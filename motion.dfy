/** The arithmetic of Player.updatePlayerPosition: friction, the speed cap, gravity and demo flight. */
module Motion {
  import opened Numerics
  import opened Voxels

  /** One axis of the slowdown: a nonzero component loses the fraction `f` of itself. */
  function Friction(a: real, f: real): (r: real)
    ensures a == 0.0 ==> r == 0.0
  {
    if Abs(a) > 0.0 then a + -1.0 * a * f else a
  }

  /**
    * Friction scales the component by 1 - f; a fraction in [0, 1] shrinks it toward zero
    * without changing its sign.
    */
  lemma FrictionShrinks(a: real, f: real)
    ensures Friction(a, f) == a * (1.0 - f)
    ensures 0.0 <= f <= 1.0 ==> Abs(Friction(a, f)) <= Abs(a)
    ensures 0.0 <= f <= 1.0 && a >= 0.0 ==> Friction(a, f) >= 0.0
    ensures 0.0 <= f <= 1.0 && a <= 0.0 ==> Friction(a, f) <= 0.0
  {
    var g := 1.0 - f;
    if a == 0.0 {
    } else if 0.0 <= f <= 1.0 && a >= 0.0 {
      assert a * g <= a * 1.0;
      assert a * g >= 0.0;
    } else if 0.0 <= f <= 1.0 {
      assert (-a) * g <= (-a) * 1.0;
      assert (-a) * g >= 0.0;
    }
  }

  /** The slowdown of all three components. */
  function FrictionVec(v: Vec3, f: real): Vec3 {
    Vec3(Friction(v.x, f), Friction(v.y, f), Friction(v.z, f))
  }

  /** The largest component magnitude, the measure the speed cap uses. */
  function MaxAbs(v: Vec3): real {
    Max(Max(Abs(v.x), Abs(v.z)), Abs(v.y))
  }

  /** `r` is `v` scaled by the non-negative factor `w / m` (so every sign is kept). */
  predicate ScaledBy(r: Vec3, v: Vec3, w: real, m: real) {
    Scaled(r.x, v.x, w, m) && Scaled(r.y, v.y, w, m) && Scaled(r.z, v.z, w, m)
  }

  /** `ra` is `a` scaled by `w / m`. */
  predicate Scaled(ra: real, a: real, w: real, m: real) {
    ra * m == a * w
  }

  /** Dividing by `m / w` is scaling by `w / m`. */
  lemma DivideByRatio(a: real, m: real, w: real)
    requires w > 0.0 && m > 0.0
    ensures a / (m / w) * m == a * w
  {
  }

  /** A component `ra` that is `a` scaled by `w / m`, where `|a| <= m`. */
  lemma ScaleComponent(a: real, m: real, w: real, ra: real)
    requires w > 0.0 && m > 0.0 && Abs(a) <= m && Scaled(ra, a, w, m)
    ensures Abs(ra) <= w
    ensures Abs(a) == m ==> Abs(ra) == w
    ensures (a >= 0.0 ==> ra >= 0.0) && (a <= 0.0 ==> ra <= 0.0)
  {
    if a >= 0.0 {
      assert a * w <= m * w;
      assert ra >= 0.0;
    } else {
      assert (-a) * w <= m * w;
    }
  }

  lemma ProductPositive(a: real, b: real)
    requires a > 0.0 && b > 0.0
    ensures a * b > 0.0
  {
  }

  lemma RatioPositive(m: real, w: real)
    requires m > w > 0.0
    ensures m / w > 0.0
  {
  }

  function DivideAll(v: Vec3, d: real): Vec3
    requires d != 0.0
  {
    Vec3(v.x / d, v.y / d, v.z / d)
  }

  /** Dividing every component by `m / w` scales the vector by `w / m`. */
  lemma DivideAllScales(v: Vec3, m: real, w: real)
    requires w > 0.0 && m > 0.0
    ensures ScaledBy(DivideAll(v, m / w), v, w, m)
  {
    DivideByRatio(v.x, m, w);
    DivideByRatio(v.y, m, w);
    DivideByRatio(v.z, m, w);
  }

  /**
    * The speed cap: when any component exceeds `w` in magnitude, all three are divided
    * by max / w.
    */
  function ClampSpeed(v: Vec3, w: real): (r: Vec3)
    requires w > 0.0
    ensures MaxAbs(v) <= w ==> r == v
  {
    if Abs(v.x) > w || Abs(v.z) > w || Abs(v.y) > w then
      var div := MaxAbs(v) / w;
      DivideAll(v, div)
    else v
  }

  /**
    * After the cap no component exceeds `w`; a capped vector is the old one scaled down,
    * with its largest component exactly `w`; a vector within the cap is left alone.
    */
  lemma ClampSpeedCaps(v: Vec3, w: real)
    requires w > 0.0
    ensures MaxAbs(ClampSpeed(v, w)) <= w
    ensures MaxAbs(v) <= w ==> ClampSpeed(v, w) == v
    ensures MaxAbs(v) > w ==> MaxAbs(ClampSpeed(v, w)) == w && ScaledBy(ClampSpeed(v, w), v, w, MaxAbs(v))
  {
    var m := MaxAbs(v);
    assert (Abs(v.x) > w || Abs(v.z) > w || Abs(v.y) > w) <==> m > w;
    if m > w {
      var r := ClampSpeed(v, w);
      ClampSpeedScales(v, w);
      CapComponents(v, r, m, w);
      MaxAbsAttained(v, r, m, w);
    }
  }

  /** The capped branch divides every component by the same ratio. */
  lemma ClampSpeedScales(v: Vec3, w: real)
    requires w > 0.0 && MaxAbs(v) > w
    ensures ScaledBy(ClampSpeed(v, w), v, w, MaxAbs(v))
  {
    DivideAllScales(v, MaxAbs(v), w);
  }

  /** The capped branch, componentwise. */
  lemma CapComponents(v: Vec3, r: Vec3, m: real, w: real)
    requires w > 0.0 && m > 0.0
    requires Abs(v.x) <= m && Abs(v.y) <= m && Abs(v.z) <= m
    requires ScaledBy(r, v, w, m)
    ensures Abs(r.x) <= w && Abs(r.y) <= w && Abs(r.z) <= w
    ensures (Abs(v.x) == m ==> Abs(r.x) == w) && (Abs(v.y) == m ==> Abs(r.y) == w) && (Abs(v.z) == m ==> Abs(r.z) == w)
  {
    ScaleComponent(v.x, m, w, r.x);
    ScaleComponent(v.y, m, w, r.y);
    ScaleComponent(v.z, m, w, r.z);
  }

  /** If each component of r is within w, and r reaches w wherever v reaches its maximum m, then r's maximum is w. */
  lemma MaxAbsAttained(v: Vec3, r: Vec3, m: real, w: real)
    requires m == MaxAbs(v)
    requires Abs(r.x) <= w && Abs(r.y) <= w && Abs(r.z) <= w
    requires Abs(v.x) == m ==> Abs(r.x) == w
    requires Abs(v.y) == m ==> Abs(r.y) == w
    requires Abs(v.z) == m ==> Abs(r.z) == w
    ensures MaxAbs(r) == w
  {
  }

  function Add(a: Vec3, b: Vec3): Vec3 {
    Vec3(a.x + b.x, a.y + b.y, a.z + b.z)
  }

  /** The acceleration after one tick: slowed, capped at `w`, then the movement intent added. */
  function AccelerationStep(acc: Vec3, movement: Vec3, friction: real, w: real): (r: Vec3)
    requires w > 0.0
    ensures MaxAbs(Vec3(r.x - movement.x, r.y - movement.y, r.z - movement.z)) <= w
  {
    ClampSpeedCaps(FrictionVec(acc, friction), w);
    Add(ClampSpeed(FrictionVec(acc, friction), w), movement)
  }

  /**
    * Gravity outside god mode: fall by the regime's constant while above its terminal
    * velocity, then raise anything below the terminal velocity to it.
    */
  function Fall(g: real, swimming: bool, cfg: Config): (r: real)
    ensures r >= -(if swimming then cfg.maxGravitySwimming else cfg.maxGravity)
  {
    var terminal := if swimming then cfg.maxGravitySwimming else cfg.maxGravity;
    var step := if swimming then cfg.gravitySwimming else cfg.gravity;
    var g1 := if g > -terminal then g - step else g;
    if g1 < -terminal then -terminal else g1
  }

  /**
    * Gravity never ends below the terminal velocity of its medium. With non-negative constants it
    * rises only when it starts below that terminal velocity, and then only up to it (falling fast
    * into water, say). Above the terminal velocity it falls by exactly its constant unless that
    * would pass the terminal velocity.
    */
  lemma FallSpec(g: real, swimming: bool, cfg: Config)
    ensures var terminal := if swimming then cfg.maxGravitySwimming else cfg.maxGravity;
            var step := if swimming then cfg.gravitySwimming else cfg.gravity;
            && Fall(g, swimming, cfg) >= -terminal
            && (cfg.gravity >= 0.0 && cfg.gravitySwimming >= 0.0 ==> Fall(g, swimming, cfg) <= Max(g, -terminal))
            && (g > -terminal && g - step >= -terminal ==> Fall(g, swimming, cfg) == g - step)
  {
  }

  /** Demo flight: drift an 128th of the way toward 16 above the terrain ahead, kept within [40, 128]. */
  function DemoFlightY(y: real, maxHeight: int): (r: real)
    ensures 40.0 <= r <= 128.0
  {
    var ny := y + ((maxHeight + 16) as real - y) / 128.0;
    if ny > 128.0 then 128.0 else if ny < 40.0 then 40.0 else ny
  }

  /** The demo flight height stays in [40, 128], and inside that band it is the undamped drift. */
  lemma DemoFlightYSpec(y: real, maxHeight: int)
    ensures 40.0 <= DemoFlightY(y, maxHeight) <= 128.0
    ensures var ny := y + ((maxHeight + 16) as real - y) / 128.0;
            40.0 <= ny <= 128.0 ==> DemoFlightY(y, maxHeight) == ny
  {
  }
}
