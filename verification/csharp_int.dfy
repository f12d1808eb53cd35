/**
  C#'s `int` is a 32-bit two's-complement integer, and arithmetic on it is
  unchecked unless a project opts in: an addition that leaves the range wraps
  around instead of failing. This module states that behaviour over Dafny's
  unbounded integers.
 */
module CSharpInt {

  const MinInt32: int := -0x8000_0000
  const MaxInt32: int := 0x7fff_ffff
  /** Number of distinct 32-bit values; wrapping moves a value by multiples of it. */
  const Modulus: int := 0x1_0000_0000

  type int32 = x: int | MinInt32 <= x <= MaxInt32

  /** The 32-bit value that an unbounded result is truncated to: the one value
      in range that differs from `x` by a whole number of wraps. */
  function Wrap(x: int): (r: int32)
    ensures MinInt32 <= x <= MaxInt32 ==> r == x
    ensures x == r + Wraps(x) * Modulus
  {
    MinInt32 + (x - MinInt32) % Modulus
  }

  /** How many times `x` wraps around on its way into range. */
  function Wraps(x: int): int
  {
    (x - MinInt32) / Modulus
  }

  /** Unchecked `a + b` on two C# ints. */
  function Add(a: int32, b: int32): (r: int32)
    ensures MinInt32 <= a + b <= MaxInt32 ==> r == a + b
    ensures a + b > MaxInt32 ==> r == a + b - Modulus
    ensures a + b < MinInt32 ==> r == a + b + Modulus
  {
    Wrap(a + b)
  }

  /** Unchecked `a - b` on two C# ints. */
  function Sub(a: int32, b: int32): (r: int32)
    ensures MinInt32 <= a - b <= MaxInt32 ==> r == a - b
    ensures a - b > MaxInt32 ==> r == a - b - Modulus
    ensures a - b < MinInt32 ==> r == a - b + Modulus
  {
    Wrap(a - b)
  }

  /** A value in range that differs from `x` by a whole number of wraps is
      the value `x` wraps to. */
  lemma WrapUnique(x: int, r: int, k: int)
    requires MinInt32 <= r <= MaxInt32
    requires x == r + k * Modulus
    ensures Wrap(x) == r
  {
    var q := Wraps(x);
    assert (k - q) * Modulus == Wrap(x) - r;
  }

  /** Truncating an intermediate result changes nothing: unchecked additions
      can be summed first and wrapped once. */
  lemma WrapAdd(x: int, y: int)
    ensures Wrap(Wrap(x) + y) == Wrap(x + y)
  {
    var w := Wrap(x);
    var r := Wrap(w + y);
    assert x + y == r + (Wraps(w + y) + Wraps(x)) * Modulus;
    WrapUnique(x + y, r, Wraps(w + y) + Wraps(x));
  }
}
