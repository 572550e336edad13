/** Failure-carrying values shared by every module of the model. */
module Wrappers {

  datatype Option<T> = None | Some(value: T)

  /** Rust's `Result<T, E>`. */
  datatype Result<T, E> = Ok(value: T) | Err(error: E)
  {
    predicate IsFailure() { Err? }

    function PropagateFailure<U>(): Result<U, E>
      requires Err?
    {
      Err(error)
    }

    function Extract(): T
      requires Ok?
    {
      value
    }
  }

  /**
   * The end of a computation that can abort the whole program: `Done` when it
   * returns normally, `Panic` when the Rust code panics (an `unwrap`, an
   * `expect`, an out-of-bounds index, an arithmetic overflow in a debug build
   * or an explicit `panic!`).
   */
  datatype Outcome<T> = Done(value: T) | Panic(message: string)
  {
    predicate IsFailure() { Panic? }

    function PropagateFailure<U>(): Outcome<U>
      requires Panic?
    {
      Panic(message)
    }

    function Extract(): T
      requires Done?
    {
      value
    }
  }
}
