/** Java's primitive conversions, stated over unbounded integers and reals. */
module Numerics {

  /** A Java `byte`. */
  type Byte = b: int | -128 <= b < 128

  /** Java's narrowing conversion from `int` to `byte`: keep the low eight bits, read as two's complement. */
  function ToByte(i: int): (b: Byte)
    ensures -128 <= i < 128 ==> b == i
    ensures (i - b) % 256 == 0
  {
    (i + 128) % 256 - 128
  }

  /** Java's `(int)` cast of a floating-point value: truncation toward zero. */
  function Trunc(r: real): (t: int)
    ensures r >= 0.0 ==> t >= 0
    ensures r <= 0.0 ==> t <= 0
  {
    if r >= 0.0 then r.Floor else -((-r).Floor)
  }

  /** Truncation lands on the whole number next to `r` on the side of zero. */
  lemma TruncBrackets(r: real)
    ensures r >= 0.0 ==> 0 <= Trunc(r) && Trunc(r) as real <= r < Trunc(r) as real + 1.0
    ensures r < 0.0 ==> Trunc(r) <= 0 && Trunc(r) as real - 1.0 < r <= Trunc(r) as real
  {
  }

  function Abs(r: real): (a: real)
    ensures a >= 0.0 && (a == r || a == -r)
  {
    if r < 0.0 then -r else r
  }

  function Max(a: real, b: real): (m: real)
    ensures m >= a && m >= b && (m == a || m == b)
  {
    if a >= b then a else b
  }

  /** `r` is a whole number. */
  predicate IsWhole(r: real) {
    r.Floor as real == r
  }

  /**
    * Truncation commutes with adding a whole number as long as the shift does not cross zero.
    * On the far side of zero the two differ: see Selection.LookupDiffersFromRayCell.
    */
  lemma TruncShift(p: real, d: int)
    requires (p >= 0.0 && p + d as real >= 0.0) || (p <= 0.0 && p + d as real <= 0.0)
    ensures Trunc(p + d as real) == Trunc(p) + d
  {
    if p >= 0.0 {
      assert (p + d as real).Floor == p.Floor + d;
    } else {
      assert (-(p + d as real)).Floor == (-p).Floor - d;
    }
  }
}
