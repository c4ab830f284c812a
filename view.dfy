/** The view angles (Player.yaw, Player.pitch). */
module View {
  import opened Numerics

  /** Java's `a % 360` on doubles: the remainder of the division truncated toward zero. */
  function Rem360(a: real): (r: real)
    ensures a >= 0.0 ==> 0.0 <= r < 360.0
    ensures a < 0.0 ==> -360.0 < r <= 0.0
    ensures IsWhole((a - r) / 360.0)
  {
    var q := Trunc(a / 360.0);
    TruncBrackets(a / 360.0);
    assert (a - (a - 360.0 * q as real)) / 360.0 == q as real;
    a - 360.0 * q as real
  }

  /** The yaw a turn leaves: the remainder modulo 360, moved up by 360 when negative. */
  function WrapYaw(a: real): (r: real)
    ensures 0.0 <= r < 360.0
  {
    var n := Rem360(a);
    if n < 0.0 then n + 360.0 else n
  }

  /** The wrapped yaw differs from the requested one by whole turns, and a yaw already in [0, 360) is kept. */
  lemma WrapYawSpec(a: real)
    ensures IsWhole((a - WrapYaw(a)) / 360.0)
    ensures 0.0 <= a < 360.0 ==> WrapYaw(a) == a
  {
    var n := Rem360(a);
    if n < 0.0 {
      assert (a - (n + 360.0)) / 360.0 == (a - n) / 360.0 + -1.0;
      WholeSum((a - n) / 360.0, -1.0);
    }
    if 0.0 <= a < 360.0 {
      RemOfTurn(a);
    }
  }

  /** An angle in [0, 360) is its own remainder. */
  lemma RemOfTurn(a: real)
    requires 0.0 <= a < 360.0
    ensures Rem360(a) == a
  {
    assert 0.0 <= a / 360.0 < 1.0;
    assert Trunc(a / 360.0) == 0;
  }

  /** WrapYaw picks the one angle in [0, 360) that differs from its argument by whole turns. */
  lemma WrapYawIsCanonical(a: real, r: real)
    requires 0.0 <= r < 360.0 && IsWhole((a - r) / 360.0)
    ensures r == WrapYaw(a)
  {
    var w := WrapYaw(a);
    WrapYawSpec(a);
    var k := ((a - r) / 360.0).Floor;
    var m := ((a - w) / 360.0).Floor;
    assert w - r == 360.0 * (k - m) as real;
  }

  /** Turning twice is turning once by the sum. */
  lemma WrapYawCompose(a: real, d: real)
    ensures WrapYaw(WrapYaw(a) + d) == WrapYaw(a + d)
  {
    var w := WrapYaw(a);
    var r := WrapYaw(w + d);
    WrapYawSpec(a);
    WrapYawSpec(w + d);
    WholeSum((a - w) / 360.0, (w + d - r) / 360.0);
    assert (a + d - r) / 360.0 == (a - w) / 360.0 + (w + d - r) / 360.0;
    WrapYawIsCanonical(a + d, r);
  }

  lemma WholeSum(x: real, y: real)
    requires IsWhole(x) && IsWhole(y)
    ensures IsWhole(x + y)
  {
    assert x + y == (x.Floor + y.Floor) as real;
  }

  /** The pitch a nod leaves: clamped to [-89, 89]. */
  function ClampPitch(p: real): (r: real)
    ensures -89.0 <= r <= 89.0
    ensures -89.0 <= p <= 89.0 ==> r == p
    ensures p > 89.0 ==> r == 89.0
    ensures p < -89.0 ==> r == -89.0
  {
    if p > 89.0 then 89.0 else if p < -89.0 then -89.0 else p
  }

  /** The clamped pitch is the allowed pitch nearest to the requested one. */
  lemma ClampPitchIsNearest(p: real, q: real)
    requires -89.0 <= q <= 89.0
    ensures Abs(ClampPitch(p) - p) <= Abs(q - p)
  {
  }
}
