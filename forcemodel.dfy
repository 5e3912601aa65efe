/** One update of an appendage as a value: from the relative fluid velocity
    at the centre of pressure and the appendage's forward and upward axes
    (both already rotated into the inertial frame) to the sweep angle, the
    angle of attack and the force applied at the centre of pressure. */
module ForceModel {
  import opened Vectors
  import opened Libm
  import opened Folding
  import opened Appendage

  /** No force is applied while the relative speed is at most this. */
  const SpeedThreshold: real := 0.01

  /** Unit normal of the lift-drag plane, forward x upward. */
  function LdNormal(forwardI: Vec3, upwardI: Vec3, lib: MathLib): Vec3 {
    Normalize(Cross(forwardI, upwardI), lib)
  }

  /** The velocity projected into the lift-drag plane, n x (v x n). */
  function InPlane(n: Vec3, vel: Vec3): Vec3 {
    Cross(n, Cross(vel, n))
  }

  /** Sine of the sweep angle, the angle between the velocity and the
      lift-drag plane. */
  function SinSweep(n: Vec3, vel: Vec3, lib: MathLib): real
    requires Len(vel, lib) > SpeedThreshold
  {
    Dot(n, vel) / Len(vel, lib)
  }

  /** Squared cosine of the sweep angle, from the sine. */
  function CosSweep2(sinSweep: real): (c: real)
    ensures c <= 1.0
  {
    SquareSign(sinSweep);
    1.0 - Square(sinSweep)
  }

  /** Drag acts against the in-plane velocity. */
  function DragDirection(p: Vec3, lib: MathLib): Vec3 {
    Normalize(Neg(p), lib)
  }

  /** Rudder and keel lift acts along n x p. */
  function LiftDirection(n: Vec3, p: Vec3, lib: MathLib): Vec3 {
    Normalize(Cross(n, p), lib)
  }

  /** The sail's drag acts along the apparent wind. */
  function SailDragDirection(aw: Vec3, lib: MathLib): Vec3 {
    Normalize(aw, lib)
  }

  /** The sail's lift acts along -(n x aw). */
  function SailLiftDirection(n: Vec3, aw: Vec3, lib: MathLib): Vec3 {
    Normalize(Neg(Cross(n, aw)), lib)
  }

  /** Cosine of the angle between the forward axis and the in-plane
      velocity, clamped into [-1, 1]. */
  function CosAlpha(forwardI: Vec3, p: Vec3, lib: MathLib): (c: real)
    ensures -1.0 <= c <= 1.0
  {
    Clamp(Quot(Dot(forwardI, p), Len(forwardI, lib) * Len(p, lib)), -1.0, 1.0)
  }

  /** The quantity whose sign decides the sign of the angle of attack. */
  function AlphaSign(upwardI: Vec3, p: Vec3, lib: MathLib): real {
    Quot(-Dot(upwardI, p), Len(upwardI, lib) + Len(p, lib))
  }

  /** The unfolded angle of attack: `offset` plus or minus the arc cosine,
      plus when AlphaSign is positive. */
  function SignedAngle(offset: real, forwardI: Vec3, upwardI: Vec3, p: Vec3, lib: MathLib): real {
    var a := lib.acos(CosAlpha(forwardI, p, lib));
    if AlphaSign(upwardI, p, lib) > 0.0 then offset + a else offset - a
  }

  /** q = 1/2 rho s^2. */
  function DynamicPressure(rho: real, speed: real): real {
    0.5 * rho * Square(speed)
  }

  /** lift + drag, each coefficient times q times the area along its unit
      direction. */
  function Force(c: Coeffs, q: real, area: real, lift: Vec3, drag: Vec3): Vec3 {
    Add(Scale(c.cl * q * area, lift), Scale(c.cd * q * area, drag))
  }

  /** The moment, which the plugin computes but does not apply. */
  function Moment(c: Coeffs, q: real, area: real, n: Vec3): Vec3 {
    Scale(c.cm * q * area, n)
  }

  /** The outcome of one update: skipped by the speed guard, or the new
      sweep angle (the sail keeps its own), the new angle of attack, the
      force applied at the centre of pressure and the computed moment. */
  datatype Tick =
    | Skipped
    | Fired(sweep: Option<real>, alpha: real, force: Vec3, torque: Vec3)

  /** One update of a rudder or keel, given the velocity at the centre of
      pressure relative to the water. The sweep is folded by PI; the angle
      of attack by PI for the rudder and by 2*PI for the keel. */
  function FoilTick(kind: Kind, cfg: Config, vel: Vec3, forwardI: Vec3, upwardI: Vec3, lib: MathLib): (t: Tick)
    requires kind != Sail
    ensures t.Skipped? <==> Len(vel, lib) <= SpeedThreshold
    ensures t.Fired? ==> t.sweep.Some? && t.torque == Zero
  {
    if Len(vel, lib) <= SpeedThreshold then Skipped
    else
      var n := LdNormal(forwardI, upwardI, lib);
      var sinSweep := SinSweep(n, vel, lib);
      var sweep := HalfTurnFold(lib.asin(sinSweep));
      var p := InPlane(n, vel);
      var raw := SignedAngle(cfg.alpha0, forwardI, upwardI, p, lib);
      var alpha := if kind == Rudder then HalfTurnFold(raw) else FullTurnFold(raw);
      var q := DynamicPressure(cfg.rho, Len(p, lib));
      var c := Coefficients(kind, cfg, alpha, CosSweep2(sinSweep), lib);
      Fired(Some(sweep), alpha,
            Force(c, q, cfg.area, LiftDirection(n, p, lib), DragDirection(p, lib)),
            Moment(c, q, cfg.area, n))
  }

  /** One update of the sail, given the apparent wind (wind minus the
      velocity at the centre of pressure). The apparent wind itself is the
      in-plane velocity, the angle of attack has no offset and no folding,
      and the sweep angle is not touched. */
  function SailTick(cfg: Config, aw: Vec3, forwardI: Vec3, upwardI: Vec3, lib: MathLib): (t: Tick)
    ensures t.Skipped? <==> Len(aw, lib) <= SpeedThreshold
    ensures t.Fired? ==> t.sweep == None && t.torque == Zero
  {
    if Len(aw, lib) <= SpeedThreshold then Skipped
    else
      var n := LdNormal(forwardI, upwardI, lib);
      var alpha := SignedAngle(0.0, forwardI, upwardI, aw, lib);
      var q := DynamicPressure(cfg.rho, Len(aw, lib));
      var c := Coefficients(Sail, cfg, alpha, 1.0, lib);
      Fired(None, alpha,
            Force(c, q, cfg.area, SailLiftDirection(n, aw, lib), SailDragDirection(aw, lib)),
            Moment(c, q, cfg.area, n))
  }

  /** The update the `link_type` selects: the rudder and keel see the
      velocity relative to the water current, the sail the apparent wind.
      Whatever the kind, the moment is zero, and the update is skipped
      exactly when the relevant relative speed is at most the threshold. */
  function TickOf(kind: Kind, cfg: Config, waterCurrent: Vec3, wind: Vec3,
                  velAtCp: Vec3, forwardI: Vec3, upwardI: Vec3, lib: MathLib): (t: Tick)
    ensures t.Fired? ==> t.torque == Zero
    ensures kind == Sail ==> (t.Skipped? <==> Len(Sub(wind, velAtCp), lib) <= SpeedThreshold)
    ensures kind != Sail ==> (t.Skipped? <==> Len(Sub(velAtCp, waterCurrent), lib) <= SpeedThreshold)
  {
    match kind
    case Sail => SailTick(cfg, Sub(wind, velAtCp), forwardI, upwardI, lib)
    case _ => FoilTick(kind, cfg, Sub(velAtCp, waterCurrent), forwardI, upwardI, lib)
  }

  /** The in-plane velocity is orthogonal to the plane's normal. */
  lemma InPlaneOrthogonal(n: Vec3, vel: Vec3)
    ensures Dot(n, InPlane(n, vel)) == 0.0
  {
    CrossOrthogonal(n, Cross(vel, n));
  }

  /** Projection into the lift-drag plane is linear in the velocity. */
  lemma InPlaneScale(k: real, n: Vec3, vel: Vec3)
    ensures InPlane(n, Scale(k, vel)) == Scale(k, InPlane(n, vel))
  {
    CrossScaleLeft(k, vel, n);
    CrossScaleRight(k, n, Cross(vel, n));
  }

  /** Lift and drag directions of a rudder or keel are orthogonal to each
      other, and lift lies in the lift-drag plane. */
  lemma FoilDirectionsOrthogonal(n: Vec3, vel: Vec3, lib: MathLib)
    ensures Dot(LiftDirection(n, InPlane(n, vel), lib), DragDirection(InPlane(n, vel), lib)) == 0.0
    ensures Dot(LiftDirection(n, InPlane(n, vel), lib), Normalize(n, lib)) == 0.0
  {
    var p := InPlane(n, vel);
    CrossOrthogonal(n, p);
    assert Dot(Cross(n, p), Neg(p)) == 0.0;
    NormalizeOrthogonal(Cross(n, p), Neg(p), lib);
    assert Dot(Cross(n, p), n) == 0.0;
    NormalizeOrthogonal(Cross(n, p), n, lib);
  }

  /** The sail's lift and drag directions are orthogonal to each other, and
      lift lies in the lift-drag plane. */
  lemma SailDirectionsOrthogonal(n: Vec3, aw: Vec3, lib: MathLib)
    ensures Dot(SailLiftDirection(n, aw, lib), SailDragDirection(aw, lib)) == 0.0
    ensures Dot(SailLiftDirection(n, aw, lib), Normalize(n, lib)) == 0.0
  {
    CrossOrthogonal(n, aw);
    assert Dot(Neg(Cross(n, aw)), aw) == 0.0;
    NormalizeOrthogonal(Neg(Cross(n, aw)), aw, lib);
    assert Dot(Neg(Cross(n, aw)), n) == 0.0;
    NormalizeOrthogonal(Neg(Cross(n, aw)), n, lib);
  }

  /** The computed sign agrees with the sign of the upward component of the
      in-plane velocity: AlphaSign is positive exactly when -upward . p is. */
  lemma AlphaSignIsUpwardSign(upwardI: Vec3, p: Vec3, lib: MathLib)
    requires Sound(lib)
    ensures AlphaSign(upwardI, p, lib) > 0.0 <==> -Dot(upwardI, p) > 0.0
  {
    LenZero(upwardI, lib);
    LenZero(p, lib);
    SignOverLengths(upwardI, p, Len(upwardI, lib), Len(p, lib));
  }

  /** AlphaSignIsUpwardSign for given lengths. */
  lemma SignOverLengths(u: Vec3, p: Vec3, lu: real, lp: real)
    requires lu >= 0.0 && lp >= 0.0
    requires lu == 0.0 ==> u == Zero
    ensures Quot(-Dot(u, p), lu + lp) > 0.0 <==> -Dot(u, p) > 0.0
  {
    if lu == 0.0 {
      DotZero(p);
    }
    QuotientSign(-Dot(u, p), lu + lp);
  }

  /** A quotient by a non-negative divisor is positive exactly when the
      dividend is and the divisor is not zero. */
  lemma QuotientSign(a: real, d: real)
    requires d >= 0.0
    ensures Quot(a, d) > 0.0 <==> a > 0.0 && d != 0.0
  {
    if d != 0.0 && a <= 0.0 {
      assert (a / d) * d == a;
    }
  }

  /** The unfolded angle of attack is offset + acos(cosAlpha) exactly when
      -upward . p is positive and offset - acos(cosAlpha) otherwise, and so
      lies within PI of the offset. */
  lemma SignedAngleSpec(offset: real, forwardI: Vec3, upwardI: Vec3, p: Vec3, lib: MathLib)
    requires Sound(lib)
    ensures var a := lib.acos(CosAlpha(forwardI, p, lib));
            SignedAngle(offset, forwardI, upwardI, p, lib)
              == if -Dot(upwardI, p) > 0.0 then offset + a else offset - a
    ensures offset - PI <= SignedAngle(offset, forwardI, upwardI, p, lib) <= offset + PI
  {
    AlphaSignIsUpwardSign(upwardI, p, lib);
    var c := CosAlpha(forwardI, p, lib);
    assert 0.0 <= lib.acos(c) <= PI;
  }

  /** After a rudder or keel update the sweep lies in [-PI/2, PI/2]; the
      rudder's angle of attack lies in [-PI/2, PI/2] and the keel's in
      [-PI, PI]. */
  lemma FoilTickRanges(kind: Kind, cfg: Config, vel: Vec3, forwardI: Vec3, upwardI: Vec3, lib: MathLib)
    requires kind != Sail
    requires FoilTick(kind, cfg, vel, forwardI, upwardI, lib).Fired?
    ensures var t := FoilTick(kind, cfg, vel, forwardI, upwardI, lib);
            && -0.5 * PI <= t.sweep.value <= 0.5 * PI
            && (kind == Rudder ==> -0.5 * PI <= t.alpha <= 0.5 * PI)
            && (kind == Keel ==> -PI <= t.alpha <= PI)
  {
    var n := LdNormal(forwardI, upwardI, lib);
    var sinSweep := SinSweep(n, vel, lib);
    HalfTurnFoldRange(lib.asin(sinSweep));
    var raw := SignedAngle(cfg.alpha0, forwardI, upwardI, InPlane(n, vel), lib);
    HalfTurnFoldRange(raw);
    FullTurnFoldRange(raw);
  }

  /** The sail's angle of attack lies in [-PI, PI]. */
  lemma SailAngleRange(cfg: Config, aw: Vec3, forwardI: Vec3, upwardI: Vec3, lib: MathLib)
    requires Sound(lib)
    requires SailTick(cfg, aw, forwardI, upwardI, lib).Fired?
    ensures -PI <= SailTick(cfg, aw, forwardI, upwardI, lib).alpha <= PI
  {
    SignedAngleSpec(0.0, forwardI, upwardI, aw, lib);
  }

  /** Dynamic pressure grows with the square of the speed; doubling the
      speed quadruples it. */
  lemma DynamicPressureScale(rho: real, speed: real, k: real)
    ensures DynamicPressure(rho, k * speed) == Square(k) * DynamicPressure(rho, speed)
    ensures DynamicPressure(rho, 2.0 * speed) == 4.0 * DynamicPressure(rho, speed)
  {
    SquareProduct(k, speed);
    SquareProduct(2.0, speed);
  }

  /** Doubling the relative velocity quadruples the dynamic pressure: for a
      rudder or keel, whose pressure comes from the in-plane velocity, and
      for the sail, whose pressure comes from the apparent wind itself. */
  lemma DoubledVelocityQuadruplesPressure(rho: real, n: Vec3, vel: Vec3, lib: MathLib)
    requires Sound(lib)
    ensures DynamicPressure(rho, Len(InPlane(n, Scale(2.0, vel)), lib))
         == 4.0 * DynamicPressure(rho, Len(InPlane(n, vel), lib))
    ensures DynamicPressure(rho, Len(Scale(2.0, vel), lib)) == 4.0 * DynamicPressure(rho, Len(vel, lib))
  {
    var p, p2 := InPlane(n, vel), InPlane(n, Scale(2.0, vel));
    DynamicPressureOfLength(rho, p, lib);
    DynamicPressureOfLength(rho, p2, lib);
    DynamicPressureOfLength(rho, vel, lib);
    DynamicPressureOfLength(rho, Scale(2.0, vel), lib);
    DoubledNorm2(n, vel);
  }

  /** Doubling a velocity multiplies its squared length, and that of its
      projection into the lift-drag plane, by four. */
  lemma DoubledNorm2(n: Vec3, vel: Vec3)
    ensures Norm2(InPlane(n, Scale(2.0, vel))) == 4.0 * Norm2(InPlane(n, vel))
    ensures Norm2(Scale(2.0, vel)) == 4.0 * Norm2(vel)
  {
    InPlaneScale(2.0, n, vel);
    Norm2Scale(2.0, InPlane(n, vel));
    Norm2Scale(2.0, vel);
  }

  /** The dynamic pressure from the length of a vector is half the density
      times the squared length. */
  lemma DynamicPressureOfLength(rho: real, v: Vec3, lib: MathLib)
    requires Sound(lib)
    ensures DynamicPressure(rho, Len(v, lib)) == 0.5 * rho * Norm2(v)
  {
    LenFacts(v, lib);
  }
}
