/**
 * The machine integers of the Rust source, as ranges of Dafny's unbounded
 * integers, and Rust's arithmetic on them as a debug build performs it: an
 * operation whose exact result does not fit panics.
 */
module Ints {
  import opened Wrappers

  newtype u8 = x: int | 0 <= x < 0x100
  newtype u16 = x: int | 0 <= x < 0x1_0000
  newtype u32 = x: int | 0 <= x < 0x1_0000_0000

  const U16_MAX: u16 := 0xFFFF

  const AddOverflow := "attempt to add with overflow"
  const SubOverflow := "attempt to subtract with overflow"
  const MulOverflow := "attempt to multiply with overflow"
  const DivByZero := "attempt to divide by zero"
  const RemByZero := "attempt to calculate the remainder with a divisor of zero"

  /** The decimal digits of `n`, as panic messages print a number. */
  function Decimal(n: nat): string
    decreases n
  {
    if n < 10 then ["0123456789"[n]] else Decimal(n / 10) + ["0123456789"[n % 10]]
  }

  /** The panic of indexing an array of length `len` at `index >= len`. */
  function IndexOutOfBounds(len: nat, index: nat): string
  {
    "index out of bounds: the len is " + Decimal(len) + " but the index is " + Decimal(index)
  }

  function Add16(a: u16, b: u16): (r: Outcome<u16>)
    ensures r.Done? <==> a as int + b as int <= U16_MAX as int
    ensures r.Done? ==> r.value as int == a as int + b as int
    ensures r.Panic? ==> r.message == AddOverflow
  {
    if a as int + b as int <= U16_MAX as int then Done((a as int + b as int) as u16) else Panic(AddOverflow)
  }

  function Sub16(a: u16, b: u16): (r: Outcome<u16>)
    ensures r.Done? <==> b <= a
    ensures r.Done? ==> r.value as int == a as int - b as int
    ensures r.Panic? ==> r.message == SubOverflow
  {
    if b <= a then Done(a - b) else Panic(SubOverflow)
  }

  function Mul16(a: u16, b: u16): (r: Outcome<u16>)
    ensures r.Done? <==> a as int * b as int <= U16_MAX as int
    ensures r.Done? ==> r.value as int == a as int * b as int
    ensures r.Panic? ==> r.message == MulOverflow
  {
    if a as int * b as int <= U16_MAX as int then Done((a as int * b as int) as u16) else Panic(MulOverflow)
  }

  /** Unsigned division truncates, which for non-negative operands is Dafny's `/`. */
  function Div16(a: u16, b: u16): (r: Outcome<u16>)
    ensures r.Done? <==> b != 0
    ensures r.Done? ==> r.value as int == a as int / b as int
    ensures r.Panic? ==> r.message == DivByZero
  {
    if b != 0 then DivBound(a as int, b as int); Done(a / b) else Panic(DivByZero)
  }

  /** A quotient by a positive divisor is at most the dividend. */
  lemma DivBound(a: nat, b: nat)
    requires 1 <= b
    ensures 0 <= a / b <= a
  {
    var q := a / b;
    assert q * b <= a;
    MulMonotone(q, 1, b);
  }

  function Rem16(a: u16, b: u16): (r: Outcome<u16>)
    ensures r.Done? <==> b != 0
    ensures r.Done? ==> r.value as int == a as int % b as int
    ensures r.Panic? ==> r.message == RemByZero
  {
    if b != 0 then Done(a % b) else Panic(RemByZero)
  }

  /** Multiplication by a natural number is monotone. */
  lemma MulMonotone(h: nat, a: nat, b: nat)
    requires a <= b
    ensures h * a <= h * b
  {
    assert h * b - h * a == h * (b - a);
  }
}
