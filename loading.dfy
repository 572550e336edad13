/**
 * The deferred task combinator of src/loading/mod.rs.
 *
 * A `Task<W, T, E>` owns a one-shot computation over a mutable world `W` that
 * yields a `T` or fails with an `E`.  A Rust closure `FnOnce(&mut World) ->
 * Result<T>` is modelled as a state transformer: it receives the world and
 * returns the world as it left it together with its result.  The tasks of the
 * coffee library have the same shape, so the loaders that chain coffee tasks
 * are modelled with these combinators too.
 */
module Loading {
  import opened Wrappers

  datatype Task<!W, T, E> = Task(run: W -> (W, Result<T, E>))

  /** `Task::new(f)`: wraps `f` without running it. */
  function New<W, T, E>(f: W -> (W, Result<T, E>)): (r: Task<W, T, E>)
    ensures r.run == f
  {
    Task(f)
  }

  /** `Task::new(|| Ok(v))`: succeeds with `v` and leaves the world alone. */
  function Pure<W, T, E>(v: T): Task<W, T, E>
  {
    New(w => (w, Ok(v)))
  }

  /** `Task::new(|| Err(e))`: fails with `e` and leaves the world alone. */
  function Fail<W, T, E>(e: E): Task<W, T, E>
  {
    New(w => (w, Err(e)))
  }

  /** The closure built by `join`: `first`, then `second`, then `combine`. */
  function JoinRun<W, T, V, Y, E>(first: Task<W, T, E>, second: Task<W, V, E>, combine: (T, V) -> Y, w: W): (r: (W, Result<Y, E>))
    ensures first.run(w).1.Err? ==> r == (first.run(w).0, Err(first.run(w).1.error))
    ensures first.run(w).1.Ok? ==>
              var (w1, b) := second.run(first.run(w).0);
              r == (w1, if b.Ok? then Ok(combine(first.run(w).1.value, b.value)) else Err(b.error))
  {
    var (w1, a) := first.run(w);
    if a.Err? then (w1, Err(a.error))
    else
      var (w2, b) := second.run(w1);
      if b.Err? then (w2, Err(b.error))
      else (w2, Ok(combine(a.value, b.value)))
  }

  /** `self.join(other, map)`; also coffee's `(first, second).join().map(combine)`. */
  function Join<W, T, V, Y, E>(first: Task<W, T, E>, second: Task<W, V, E>, combine: (T, V) -> Y): (r: Task<W, Y, E>)
    ensures r.run == (w => JoinRun(first, second, combine, w))
  {
    Task(w => JoinRun(first, second, combine, w))
  }

  /** The closure built by `map`: `first`, then `post` on its value and the world. */
  function MapRun<W, T, V, E>(first: Task<W, T, E>, post: (T, W) -> (W, Result<V, E>), w: W): (r: (W, Result<V, E>))
    ensures first.run(w).1.Err? ==> r == (first.run(w).0, Err(first.run(w).1.error))
    ensures first.run(w).1.Ok? ==> r == post(first.run(w).1.value, first.run(w).0)
  {
    var (w1, a) := first.run(w);
    if a.Err? then (w1, Err(a.error)) else post(a.value, w1)
  }

  /** `self.map(other)`. */
  function Map<W, T, V, E>(first: Task<W, T, E>, post: (T, W) -> (W, Result<V, E>)): (r: Task<W, V, E>)
    ensures r.run == (w => MapRun(first, post, w))
  {
    Task(w => MapRun(first, post, w))
  }

  /** coffee's `Task::map`: an infallible post-processing that does not see the world. */
  function MapValue<W, T, V, E>(first: Task<W, T, E>, f: T -> V): Task<W, V, E>
  {
    Map(first, (a: T, w: W) => (w, Ok(f(a))))
  }

  // ---------------------------------------------------------------------------
  // Properties of the three combinators

  lemma NewBehavesAsF<W, T, E>(f: W -> (W, Result<T, E>), w: W)
    ensures New(f).run(w) == f(w)
  {
  }

  /** With both tasks succeeding, `other` runs on the world `self` left behind. */
  lemma JoinSequences<W, T, V, Y, E>(first: Task<W, T, E>, second: Task<W, V, E>, combine: (T, V) -> Y, w: W)
    requires first.run(w).1.Ok?
    requires second.run(first.run(w).0).1.Ok?
    ensures Join(first, second, combine).run(w)
         == (second.run(first.run(w).0).0,
             Ok(combine(first.run(w).1.value, second.run(first.run(w).0).1.value)))
  {
  }

  /**
   * When `self` fails, `join` fails with the same error and world, and neither
   * `other` nor the combiner has any influence: they are never called.
   */
  lemma JoinFirstFails<W, T, V, Y, E>(first: Task<W, T, E>, second: Task<W, V, E>, combine: (T, V) -> Y,
                                      second': Task<W, V, E>, combine': (T, V) -> Y, w: W)
    requires first.run(w).1.Err?
    ensures Join(first, second, combine).run(w) == (first.run(w).0, Err(first.run(w).1.error))
    ensures Join(first, second, combine).run(w) == Join(first, second', combine').run(w)
  {
  }

  /** When `self` succeeds and `other` fails, `other`'s error is returned and the combiner is not called. */
  lemma JoinSecondFails<W, T, V, Y, E>(first: Task<W, T, E>, second: Task<W, V, E>, combine: (T, V) -> Y,
                                       combine': (T, V) -> Y, w: W)
    requires first.run(w).1.Ok?
    requires second.run(first.run(w).0).1.Err?
    ensures Join(first, second, combine).run(w) == (second.run(first.run(w).0).0, Err(second.run(first.run(w).0).1.error))
    ensures Join(first, second, combine).run(w) == Join(first, second, combine').run(w)
  {
  }

  /** `map` propagates a failure of `self` without calling `f`. */
  lemma MapFirstFails<W, T, V, E>(first: Task<W, T, E>, post: (T, W) -> (W, Result<V, E>),
                                  post': (T, W) -> (W, Result<V, E>), w: W)
    requires first.run(w).1.Err?
    ensures Map(first, post).run(w) == (first.run(w).0, Err(first.run(w).1.error))
    ensures Map(first, post).run(w) == Map(first, post').run(w)
  {
  }

  /** On success `map` yields exactly `f(a, w)`, an error of `f` included. */
  lemma MapFirstSucceeds<W, T, V, E>(first: Task<W, T, E>, post: (T, W) -> (W, Result<V, E>), w: W)
    requires first.run(w).1.Ok?
    ensures Map(first, post).run(w) == post(first.run(w).1.value, first.run(w).0)
  {
  }

  // ---------------------------------------------------------------------------
  // Chains of joins
  //
  // The scene-stack, font and image loaders walk a manifest and, for every
  // entry, replace an accumulated task `acc` by `(entry_task, acc).join().map(combine)`.
  // `Chain(links, init)` is the task such a loop holds after the entries `links`.

  datatype Link<!W, !T, !A, E> = Link(task: Task<W, T, E>, combine: (T, A) -> A)

  function Chain<W, T, A, E>(links: seq<Link<W, T, A, E>>, init: A): (r: Task<W, A, E>)
    ensures links == [] ==> r == Pure(init)
    ensures links != [] ==> r == Join(links[|links| - 1].task, Chain(links[..|links| - 1], init), links[|links| - 1].combine)
    decreases |links|
  {
    if links == [] then Pure(init)
    else
      var last := links[|links| - 1];
      Join(last.task, Chain(links[..|links| - 1], init), last.combine)
  }

  /**
   * Reference semantics, first part: the tasks of `links` run one after the
   * other starting with the LAST entry and ending with the first; the values
   * are returned in manifest order.  The first failure in that order stops the
   * run.
   */
  function RunBackward<W, T, A, E>(links: seq<Link<W, T, A, E>>, w: W): (r: (W, Result<seq<T>, E>))
    ensures r.1.Ok? ==> |r.1.value| == |links|
    decreases |links|
  {
    if links == [] then (w, Ok([]))
    else
      var (w1, v) := links[|links| - 1].task.run(w);
      if v.Err? then (w1, Err(v.error))
      else
        var (w2, vs) := RunBackward(links[..|links| - 1], w1);
        if vs.Err? then (w2, Err(vs.error)) else (w2, Ok(vs.value + [v.value]))
  }

  /** Reference semantics, second part: the combiners folded in manifest order. */
  function Combined<W, T, A, E>(links: seq<Link<W, T, A, E>>, values: seq<T>, init: A): A
    requires |values| == |links|
    decreases |links|
  {
    if links == [] then init
    else links[|links| - 1].combine(values[|values| - 1], Combined(links[..|links| - 1], values[..|values| - 1], init))
  }

  /** Running a chain is running its entries last to first and combining their values first to last. */
  lemma {:induction false} ChainRun<W, T, A, E>(links: seq<Link<W, T, A, E>>, init: A, w: W)
    ensures var (w', r) := RunBackward(links, w);
            Chain(links, init).run(w) == (w', if r.Ok? then Ok(Combined(links, r.value, init)) else Err(r.error))
    decreases |links|
  {
    if links != [] {
      var last := links[|links| - 1];
      var prefix := links[..|links| - 1];
      var (w1, v) := last.task.run(w);
      if v.Ok? {
        ChainRun(prefix, init, w1);
        var (w2, vs) := RunBackward(prefix, w1);
        if vs.Ok? {
          assert (vs.value + [v.value])[..|links| - 1] == vs.value;
        }
      }
    }
  }

  /** The last entry runs first: when it fails, nothing else in the chain runs. */
  lemma ChainLastFails<W, T, A, E>(links: seq<Link<W, T, A, E>>, init: A, w: W)
    requires links != []
    requires links[|links| - 1].task.run(w).1.Err?
    ensures Chain(links, init).run(w) == (links[|links| - 1].task.run(w).0, Err(links[|links| - 1].task.run(w).1.error))
  {
  }

  /** A task that always succeeds with `v` and does not touch the world. */
  ghost predicate Constant<W(!new), T, E>(t: Task<W, T, E>, v: T)
  {
    forall w :: t.run(w) == (w, Ok(v))
  }

  /** A chain of constant tasks is the combination of their values, in manifest order. */
  lemma {:induction false} ChainOfConstants<W(!new), T, A, E>(links: seq<Link<W, T, A, E>>, values: seq<T>, init: A, w: W)
    requires |values| == |links|
    requires forall i :: 0 <= i < |links| ==> Constant(links[i].task, values[i])
    ensures RunBackward(links, w) == (w, Ok(values))
    ensures Chain(links, init).run(w) == (w, Ok(Combined(links, values, init)))
    decreases |links|
  {
    if links != [] {
      var n := |links| - 1;
      assert Constant(links[n].task, values[n]);
      ChainOfConstants(links[..n], values[..n], init, w);
      assert values[..n] + [values[n]] == values;
    }
    ChainRun(links, init, w);
  }
}
