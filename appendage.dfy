/** The appendage a plugin instance drives, its configuration, and the
    lift, drag and moment coefficient laws of each appendage kind. */
module Appendage {
  import opened Vectors
  import opened Libm

  datatype Option<T> = None | Some(value: T)

  datatype Kind = Rudder | Keel | Sail

  /** The `link_type` string selects the update routine; any other string
      selects none. */
  function KindOf(linkType: string): (k: Option<Kind>)
    ensures k == Some(Rudder) <==> linkType == "rudder"
    ensures k == Some(Keel) <==> linkType == "keel"
    ensures k == Some(Sail) <==> linkType == "sail"
  {
    if linkType == "rudder" then Some(Rudder)
    else if linkType == "keel" then Some(Keel)
    else if linkType == "sail" then Some(Sail)
    else None
  }

  /** The plugin's tunable parameters, as the SDF element may set them. */
  datatype Config = Config(
    alpha0: real,          // zero-lift angle of attack, `a0`
    cla: real,             // lift slope before stall
    cda: real,             // drag slope before stall
    cma: real,             // moment slope before stall
    alphaStall: real,      // stall angle
    claStall: real,        // lift slope after stall
    cdaStall: real,        // drag slope after stall
    cmaStall: real,        // moment slope after stall
    cp: Vec3,              // centre of pressure in the link frame
    forward: Vec3,         // forward (-drag) direction in the link frame
    upward: Vec3,          // upward (+lift) direction in the link frame
    area: real,
    rho: real)             // fluid density, `air_density`

  /** The values the constructor gives every parameter. */
  const DefaultConfig: Config := Config(
    alpha0 := 0.0,
    cla := 1.0,
    cda := 0.01,
    cma := 0.01,
    alphaStall := 0.5 * PI,
    claStall := 0.0,
    cdaStall := 1.0,
    cmaStall := 0.0,
    cp := Zero,
    forward := Vec3(1.0, 0.0, 0.0),
    upward := Vec3(0.0, 0.0, 1.0),
    area := 1.0,
    rho := 1.2041)

  /** Lift, drag and moment coefficients. */
  datatype Coeffs = Coeffs(cl: real, cd: real, cm: real)

  /** Below the stall angle a coefficient is linear in the angle of attack,
      scaled by the squared cosine of the sweep angle. */
  function PreStall(slope: real, alpha: real, cos2: real): real {
    slope * alpha * cos2
  }

  /** Above the stall angle the value reached at the stall angle is
      continued with the post-stall slope. */
  function AboveStall(slope: real, stallSlope: real, alphaStall: real, alpha: real, cos2: real): real {
    (slope * alphaStall + stallSlope * (alpha - alphaStall)) * cos2
  }

  /** Mirror image of AboveStall below minus the stall angle. */
  function BelowStall(slope: real, stallSlope: real, alphaStall: real, alpha: real, cos2: real): real {
    (-slope * alphaStall + stallSlope * (alpha + alphaStall)) * cos2
  }

  /** The rudder's three-branch stall law; the comparisons are strict, so an
      angle equal to the stall angle takes the pre-stall branch. */
  function StallLaw(slope: real, stallSlope: real, alphaStall: real, alpha: real, cos2: real): real {
    if alpha > alphaStall then AboveStall(slope, stallSlope, alphaStall, alpha, cos2)
    else if alpha < -alphaStall then BelowStall(slope, stallSlope, alphaStall, alpha, cos2)
    else PreStall(slope, alpha, cos2)
  }

  /** The stall law with the rudder's sign clamps: never negative above the
      stall angle, never positive below minus the stall angle, and the
      pre-stall line in between. */
  function SignClamped(slope: real, stallSlope: real, alphaStall: real, alpha: real, cos2: real): (r: real)
    ensures alpha > alphaStall ==> r >= 0.0
    ensures !(alpha > alphaStall) && alpha < -alphaStall ==> r <= 0.0
    ensures -alphaStall <= alpha <= alphaStall ==> r == slope * alpha * cos2
  {
    var c := StallLaw(slope, stallSlope, alphaStall, alpha, cos2);
    if alpha > alphaStall then Max(0.0, c)
    else if alpha < -alphaStall then Min(0.0, c)
    else c
  }

  /** Rudder coefficients: clamped stall law for the lift, absolute value of
      the stall law for the drag. The plugin overwrites its stall-law moment
      coefficient with 0 before use, so that dead computation is not
      modelled and the moment coefficient is 0. */
  function RudderCoefficients(cfg: Config, alpha: real, cos2: real): (c: Coeffs)
    ensures c.cd >= 0.0
    ensures c.cm == 0.0
    ensures alpha > cfg.alphaStall ==> c.cl >= 0.0
    ensures !(alpha > cfg.alphaStall) && alpha < -cfg.alphaStall ==> c.cl <= 0.0
    ensures -cfg.alphaStall <= alpha <= cfg.alphaStall ==> c.cl == cfg.cla * alpha * cos2
  {
    Coeffs(
      SignClamped(cfg.cla, cfg.claStall, cfg.alphaStall, alpha, cos2),
      Abs(StallLaw(cfg.cda, cfg.cdaStall, cfg.alphaStall, alpha, cos2)),
      0.0)
  }

  /** Keel coefficients: lift 8 sin 2a, drag 2 (1 - cos 2a). The plugin's
      stall-law moment coefficient is overwritten with 0 before use; it is
      not modelled, and the moment coefficient is 0. */
  function KeelCoefficients(alpha: real, lib: MathLib): (c: Coeffs)
    ensures c.cm == 0.0
  {
    Coeffs(8.0 * lib.sin(2.0 * alpha), 2.0 * (1.0 - lib.cos(2.0 * alpha)), 0.0)
  }

  /** Sail coefficients: lift 1.5 sin 2a, drag 0.5 (1 - cos 2a), moment 0. */
  function SailCoefficients(alpha: real, lib: MathLib): (c: Coeffs)
    ensures c.cm == 0.0
  {
    Coeffs(1.5 * lib.sin(2.0 * alpha), 0.5 * (1.0 - lib.cos(2.0 * alpha)), 0.0)
  }

  /** The coefficient law of each kind; `cos2` is the squared cosine of the
      sweep angle. The moment coefficient is 0 for every kind. */
  function Coefficients(kind: Kind, cfg: Config, alpha: real, cos2: real, lib: MathLib): (c: Coeffs)
    ensures c.cm == 0.0
  {
    match kind
    case Rudder => RudderCoefficients(cfg, alpha, cos2)
    case Keel => KeelCoefficients(alpha, lib)
    case Sail => SailCoefficients(alpha, lib)
  }

  /** The post-stall lines meet the pre-stall line at plus and minus the
      stall angle, for lift, drag and moment slopes alike. */
  lemma StallContinuity(slope: real, stallSlope: real, alphaStall: real, cos2: real)
    ensures AboveStall(slope, stallSlope, alphaStall, alphaStall, cos2) == PreStall(slope, alphaStall, cos2)
    ensures BelowStall(slope, stallSlope, alphaStall, -alphaStall, cos2) == PreStall(slope, -alphaStall, cos2)
  {
  }

  /** At exactly the stall angle the rudder uses the pre-stall line for
      both lift and drag. */
  lemma RudderAtStallAngle(cfg: Config, cos2: real)
    requires cfg.alphaStall >= 0.0
    ensures RudderCoefficients(cfg, cfg.alphaStall, cos2).cl == cfg.cla * cfg.alphaStall * cos2
    ensures RudderCoefficients(cfg, cfg.alphaStall, cos2).cd == Abs(cfg.cda * cfg.alphaStall * cos2)
    ensures RudderCoefficients(cfg, -cfg.alphaStall, cos2).cl == -(cfg.cla * cfg.alphaStall * cos2)
  {
  }

  /** With a non-negative stall angle the rudder's laws are symmetric:
      lift is odd and drag is even in the angle of attack. */
  lemma RudderSymmetry(cfg: Config, alpha: real, cos2: real)
    requires cfg.alphaStall >= 0.0
    ensures RudderCoefficients(cfg, -alpha, cos2).cl == -RudderCoefficients(cfg, alpha, cos2).cl
    ensures RudderCoefficients(cfg, -alpha, cos2).cd == RudderCoefficients(cfg, alpha, cos2).cd
  {
    var s := cfg.alphaStall;
    if alpha > s {
      assert BelowStall(cfg.cla, cfg.claStall, s, -alpha, cos2) == -AboveStall(cfg.cla, cfg.claStall, s, alpha, cos2);
      assert BelowStall(cfg.cda, cfg.cdaStall, s, -alpha, cos2) == -AboveStall(cfg.cda, cfg.cdaStall, s, alpha, cos2);
    } else if alpha < -s {
      assert AboveStall(cfg.cla, cfg.claStall, s, -alpha, cos2) == -BelowStall(cfg.cla, cfg.claStall, s, alpha, cos2);
      assert AboveStall(cfg.cda, cfg.cdaStall, s, -alpha, cos2) == -BelowStall(cfg.cda, cfg.cdaStall, s, alpha, cos2);
    } else {
      assert PreStall(cfg.cda, -alpha, cos2) == -PreStall(cfg.cda, alpha, cos2);
    }
  }

  /** Keel and sail coefficients depend on the angle of attack alone: not on
      the stall parameters, the slopes or the sweep. */
  lemma FixedLawsIgnoreConfig(kind: Kind, cfg1: Config, cfg2: Config, alpha: real, cos2a: real, cos2b: real, lib: MathLib)
    requires kind != Rudder
    ensures Coefficients(kind, cfg1, alpha, cos2a, lib) == Coefficients(kind, cfg2, alpha, cos2b, lib)
  {
  }

  /** Given sine and cosine in [-1, 1], the keel's lift lies in [-8, 8] and
      its drag in [0, 4]; the sail's lift in [-1.5, 1.5] and its drag in
      [0, 1]. In particular neither drag is ever negative. */
  lemma FixedLawBounds(alpha: real, lib: MathLib)
    requires Sound(lib)
    ensures -8.0 <= KeelCoefficients(alpha, lib).cl <= 8.0
    ensures 0.0 <= KeelCoefficients(alpha, lib).cd <= 4.0
    ensures -1.5 <= SailCoefficients(alpha, lib).cl <= 1.5
    ensures 0.0 <= SailCoefficients(alpha, lib).cd <= 1.0
  {
    assert -1.0 <= lib.sin(2.0 * alpha) <= 1.0;
    assert -1.0 <= lib.cos(2.0 * alpha) <= 1.0;
  }

  /** With the constructor's parameters the rudder never stalls once its
      angle of attack is folded into [-PI/2, PI/2]: lift is cla * a * cos2
      and drag is |cda * a * cos2|. */
  lemma DefaultRudderNeverStalls(alpha: real, cos2: real)
    requires -0.5 * PI <= alpha <= 0.5 * PI
    ensures RudderCoefficients(DefaultConfig, alpha, cos2).cl == alpha * cos2
    ensures RudderCoefficients(DefaultConfig, alpha, cos2).cd == Abs(0.01 * alpha * cos2)
  {
  }
}
