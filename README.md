# USV sailing plugin: appendage force model

This project models the Gazebo model plugin `USV_Sailing_Plugin` from the
USV simulator. One plugin instance drives one appendage of a sailing vessel:
a rudder, a keel or a sail. On every simulation step the plugin does four
things:

- it takes the velocity of the link at the centre of pressure relative to the
  fluid (the water current for a rudder or keel, the apparent wind for a
  sail);
- it derives the sweep angle and the angle of attack, and folds them into
  range with `while` loops;
- it evaluates the lift, drag and moment coefficient laws of the appendage
  kind;
- it applies one force, lift plus drag, at the centre of pressure.

Three mechanisms set the fluid-velocity estimate. A subscriber overwrites
the water current at any time. In local mode a background thread polls a
speed service and keeps the estimate current. In global mode the wind is
read once, at load time, and never refreshed.

The project has six modules:

- `Vectors`: three-dimensional vectors over the reals, i.e. the part of
  Gazebo's `math::Vector3` the plugin uses.
- `Libm`: scalar helpers, and the C math functions as a parameter of type
  `MathLib`. The predicate `Sound` holds the facts assumed of them: sine and
  cosine lie in [-1, 1], `acos` maps [-1, 1] into [0, PI], and `sqrt` is the
  non-negative square root. This module also defines vector length and normalisation on
  top of that square root.
- `Folding`: the angle-folding loops as methods, proved equal to a closed
  form, together with the closed form's range and "whole number of steps"
  properties.
- `Appendage`: the configuration record and its constructor defaults, the
  `link_type` dispatch, and the coefficient laws of the rudder (three-branch
  stall law with sign clamps and `fabs`), the keel and the sail.
- `ForceModel`: one update as a value (`Tick`). It covers the speed guard,
  the lift-drag-plane projection, the lift and drag directions, the signed
  angle of attack, the dynamic pressure and the force.
- `Plugin`: the plugin as a class whose fields the source updates in place:
  `alpha`, `sweep`, `waterCurrent` and `wind`, plus the joint stops as ghost
  fields. The link is a class that records every force applied to it. The
  update methods run the folding loops and call the link. Each method is
  proved to leave exactly the state that the matching `Tick` describes.

The rudder's lift and drag coefficients are scaled by the squared cosine of
the sweep angle. So are the stall-law moment coefficients of the rudder and
the keel, which the plugin then overwrites with 0. The keel and sail lift and
drag laws ignore the sweep (`FixedLawsIgnoreConfig`). The sail computes no sweep angle and does not fold
its angle of attack.

## Model

| member | source | states |
|---|---|---|
| Plugin.SailingPlugin.constructor | src/usv_sailing_plugin/src/usv_sailing_plugin.cpp:18-35 | Every parameter takes its default: cla 1, cda and cma 0.01, stall angle PI/2, post-stall slopes 0/1/0, area 1, density 1.2041, cp at the origin, forward +X, upward +Z. Wind and water current start at zero. |
| Plugin.SailingPlugin.Load | src/usv_sailing_plugin/src/usv_sailing_plugin.cpp:126-141 | The water current is reset to zero. In global mode the wind becomes (x, y, 0) exactly when both wind parameters are found; otherwise the wind keeps its value. |
| Plugin.GlobalWindAfterLoad | src/usv_sailing_plugin/src/usv_sailing_plugin.cpp:131-140 | For a freshly constructed plugin loaded in global mode, the wind is (x, y, 0) when both parameters are found and the constructor's zero otherwise. |
| Appendage.KindOf | src/usv_sailing_plugin/src/usv_sailing_plugin.cpp:182-187 | "rudder", "keel" and "sail" each select their own update, in both directions of the iff; every other string selects none. |
| Plugin.SailingPlugin.OnUpdate | src/usv_sailing_plugin/src/usv_sailing_plugin.cpp:180-188 | For an unknown link type nothing changes and no force is applied. For a known one the new state is the one that kind's tick describes. Only the sail moves the joint stops. The angles stay in their folded ranges. |
| Plugin.SailingPlugin.OnUpdateRudder | src/usv_sailing_plugin/src/usv_sailing_plugin.cpp:192-341 | When the speed relative to the current is at most 0.01, alpha, sweep and the force log are unchanged. Otherwise alpha and sweep are the folded angles and exactly one force (lift + drag) is appended at cp. Angles in range stay in range. |
| Plugin.SailingPlugin.OnUpdateKeel | src/usv_sailing_plugin/src/usv_sailing_plugin.cpp:344-468 | As for the rudder, with the keel's 2*PI fold of alpha and its fixed laws. |
| Plugin.SailingPlugin.OnUpdateSail | src/usv_sailing_plugin/src/usv_sailing_plugin.cpp:471-560 | The joint stops become -angle and +angle even when the step is skipped. The guard is on the apparent wind. When the step fires, alpha and one force at cp are set and sweep is left alone. |
| Plugin.SailingPlugin.ReadWaterCurrent | src/usv_sailing_plugin/src/usv_sailing_plugin.cpp:562-568 | All three components of the water current are overwritten by the message. |
| Plugin.SailingPlugin.WaterThreadStep | src/usv_sailing_plugin/src/usv_sailing_plugin.cpp:576-593 | A successful service reply overwrites x and y and keeps z. A failed call leaves the water current unchanged. |
| Plugin.SailingPlugin.WindThreadStep | src/usv_sailing_plugin/src/usv_sailing_plugin.cpp:603-620 | The same rule for the wind. |
| Plugin.Link.AddForceAtRelativePosition | src/usv_sailing_plugin/src/usv_sailing_plugin.cpp:339 | The link's force log grows by exactly this force at this position. |
| Folding.FoldHalfTurn | src/usv_sailing_plugin/src/usv_sailing_plugin.cpp:219-220 | The loop that steps by PI towards zero while the absolute value exceeds PI/2 terminates and returns HalfTurnFold(x). It serves for the sweep angle and for the rudder's alpha. |
| Folding.FoldFullTurn | src/usv_sailing_plugin/src/usv_sailing_plugin.cpp:411-412 | The keel's loop, stepping by 2*PI while the absolute value exceeds PI, terminates and returns FullTurnFold(x). |
| Folding.HalfTurnFoldRange | src/usv_sailing_plugin/src/usv_sailing_plugin.cpp:260-261 | The PI fold lies in [-PI/2, PI/2], is the identity there, and differs from its argument by a whole number of PI steps. |
| Folding.FullTurnFoldRange | src/usv_sailing_plugin/src/usv_sailing_plugin.cpp:411-412 | The 2*PI fold lies in [-PI, PI], is the identity there, and differs from its argument by a whole number of 2*PI steps. |
| Folding.WrapUnitRange | src/usv_sailing_plugin/src/usv_sailing_plugin.cpp:370-371 | Measured in steps, the fold lands in [-1/2, 1/2]. A value above the range never lands on -1/2 and one below never lands on +1/2 (the loop stops as soon as the bound is met). Values already in range are kept. |
| Folding.WrapUnitStep | src/usv_sailing_plugin/src/usv_sailing_plugin.cpp:219-220 | One loop iteration removes one whole step and does not change where the loop ends. |
| ForceModel.CosSweep2 | src/usv_sailing_plugin/src/usv_sailing_plugin.cpp:215 | The squared cosine of the sweep, 1 - sin^2, is at most 1. |
| Libm.Clamp | src/usv_sailing_plugin/src/usv_sailing_plugin.cpp:245-246 | `math::clamp` lies within ordered bounds and is the identity between them. |
| ForceModel.CosAlpha | src/usv_sailing_plugin/src/usv_sailing_plugin.cpp:396-397 | cosAlpha lies in [-1, 1]. |
| ForceModel.AlphaSignIsUpwardSign | src/usv_sailing_plugin/src/usv_sailing_plugin.cpp:251 | alphaSign is positive exactly when -upward . velInLDPlane is positive: dividing by the sum of the lengths does not change the sign. |
| ForceModel.SignedAngleSpec | src/usv_sailing_plugin/src/usv_sailing_plugin.cpp:254-257 | The unfolded alpha is alpha0 + acos(cosAlpha) exactly when -upward . velInLDPlane > 0, and alpha0 - acos(cosAlpha) otherwise. It therefore lies within PI of alpha0. |
| ForceModel.SailAngleRange | src/usv_sailing_plugin/src/usv_sailing_plugin.cpp:515-518 | The sail's alpha (no offset, no folding) lies in [-PI, PI]. |
| ForceModel.FoilTickRanges | src/usv_sailing_plugin/src/usv_sailing_plugin.cpp:405-412 | After a rudder or keel step the sweep lies in [-PI/2, PI/2]. The rudder's alpha lies in [-PI/2, PI/2] and the keel's in [-PI, PI]. |
| ForceModel.FoilTick | src/usv_sailing_plugin/src/usv_sailing_plugin.cpp:195-198 | A rudder or keel step is skipped exactly when the speed relative to the water is at most 0.01. When it fires it sets a sweep angle and its moment is zero. |
| ForceModel.SailTick | src/usv_sailing_plugin/src/usv_sailing_plugin.cpp:476-479 | A sail step is skipped exactly when the apparent wind speed is at most 0.01. When it fires it sets no sweep angle and its moment is zero. |
| ForceModel.TickOf | src/usv_sailing_plugin/src/usv_sailing_plugin.cpp:182-187 | For every kind the computed moment is zero. The step is skipped exactly when that kind's relative speed is at most 0.01. |
| ForceModel.InPlaneOrthogonal | src/usv_sailing_plugin/src/usv_sailing_plugin.cpp:231 | velInLDPlane = n x (v x n) is orthogonal to the normal n. |
| ForceModel.InPlaneScale | src/usv_sailing_plugin/src/usv_sailing_plugin.cpp:382 | The projection into the lift-drag plane is linear: scaling the velocity scales velInLDPlane. |
| ForceModel.FoilDirectionsOrthogonal | src/usv_sailing_plugin/src/usv_sailing_plugin.cpp:233-239 | The rudder and keel lift direction is orthogonal to the drag direction and to the plane normal. |
| ForceModel.SailDirectionsOrthogonal | src/usv_sailing_plugin/src/usv_sailing_plugin.cpp:493-501 | The sail's lift direction -(n x aw) is orthogonal to its drag direction aw and to the plane normal. |
| ForceModel.DynamicPressureScale | src/usv_sailing_plugin/src/usv_sailing_plugin.cpp:264-265 | q grows with the square of the speed; doubling the speed quadruples q. |
| ForceModel.DynamicPressureOfLength | src/usv_sailing_plugin/src/usv_sailing_plugin.cpp:415-416 | q from a vector's length is half the density times its squared length. |
| ForceModel.DoubledVelocityQuadruplesPressure | src/usv_sailing_plugin/src/usv_sailing_plugin.cpp:521-522 | Doubling the relative velocity quadruples q, both through the rudder and keel projection and for the sail's apparent wind. |
| Appendage.SignClamped | src/usv_sailing_plugin/src/usv_sailing_plugin.cpp:268-282 | Above the stall angle the clamped coefficient is at least 0, below minus the stall angle it is at most 0, and in between it is slope * alpha * cos2. |
| Appendage.RudderCoefficients | src/usv_sailing_plugin/src/usv_sailing_plugin.cpp:268-324 | Rudder cd is never negative and cm is 0. cl is at least 0 above the stall angle, at most 0 below minus the stall angle, and cla * alpha * cos2 in between. |
| Appendage.StallContinuity | src/usv_sailing_plugin/src/usv_sailing_plugin.cpp:269-298 | At plus and minus the stall angle the unclamped post-stall lines equal the pre-stall line, for any slope pair (lift, drag and moment alike). |
| Appendage.RudderAtStallAngle | src/usv_sailing_plugin/src/usv_sailing_plugin.cpp:289-301 | An alpha exactly at the stall angle takes the pre-stall branch, because the comparisons are strict. |
| Appendage.RudderSymmetry | src/usv_sailing_plugin/src/usv_sailing_plugin.cpp:268-301 | With a non-negative stall angle, rudder lift is odd in alpha and rudder drag is even. |
| Appendage.KeelCoefficients | src/usv_sailing_plugin/src/usv_sailing_plugin.cpp:434-451 | The keel's moment coefficient is 0: the plugin overwrites its stall-law value with 0 before use, so that value is not modelled. |
| Appendage.SailCoefficients | src/usv_sailing_plugin/src/usv_sailing_plugin.cpp:542-544 | The sail's moment coefficient is 0. |
| Appendage.Coefficients | src/usv_sailing_plugin/src/usv_sailing_plugin.cpp:323-324 | The moment coefficient is 0 for every kind. |
| Appendage.FixedLawsIgnoreConfig | src/usv_sailing_plugin/src/usv_sailing_plugin.cpp:420-429 | Keel and sail coefficients depend only on alpha: not on the stall parameters, the slopes or the sweep. |
| Appendage.FixedLawBounds | src/usv_sailing_plugin/src/usv_sailing_plugin.cpp:528-537 | Keel cl is in [-8, 8] and cd in [0, 4]. Sail cl is in [-1.5, 1.5] and cd in [0, 1]. So drag is never negative, given sine and cosine in [-1, 1]. |
| Appendage.DefaultRudderNeverStalls | src/usv_sailing_plugin/src/usv_sailing_plugin.cpp:28-29 | With the default 90-degree stall angle, a folded rudder alpha always takes the pre-stall branch for lift and drag. |
| Libm.NormalizeUnit | src/usv_sailing_plugin/src/usv_sailing_plugin.cpp:209 | `Normalize` gives a unit vector for every non-zero vector. |
| Libm.NormalizeOrthogonal | src/usv_sailing_plugin/src/usv_sailing_plugin.cpp:234-239 | Normalising keeps orthogonal directions orthogonal. |
| Libm.NormalizeScaleInvariant | src/usv_sailing_plugin/src/usv_sailing_plugin.cpp:495-496 | A normalised direction does not depend on a positive factor, so the speed does not affect it. |
| Libm.LenZero | src/usv_sailing_plugin/src/usv_sailing_plugin.cpp:197 | `GetLength` is never negative and is zero exactly for the zero vector. |
| Vectors.Norm2 | src/usv_sailing_plugin/src/usv_sailing_plugin.cpp:349 | The squared length under the square root is never negative and is zero exactly for the zero vector. |
| Vectors.CrossOrthogonal | src/usv_sailing_plugin/src/usv_sailing_plugin.cpp:238 | A cross product is orthogonal to both of its factors. |

## Left out

- Floating point is not modelled. All quantities are reals, with no
  rounding and no infinities or NaN.
  - Two divisions can have a zero divisor. The model gives them the
    quotient 0 (`Quot`); C++ gives NaN for 0/0.
  - cosAlpha divides by `|forwardI| * |velInLDPlane|`. This is zero when
    the relative velocity lies along the plane normal, for example a purely
    sideways flow with the default axes. C++ then stores alpha = NaN. Every
    stall comparison with NaN is false, so the rudder's cl (pre-stall
    branch) and the keel's `8 sin 2a` are NaN, and a NaN force is applied.
    The model instead stores a finite alpha (alpha0 - acos(0)) and applies
    the zero force, because the in-plane speed, and so q, is 0.
  - alphaSign divides by `|upwardI| + |velInLDPlane|`, which is zero only
    when the upward axis is the zero vector. Otherwise the flow along the
    normal gives `-0.0 / |upwardI|`, which is not NaN and takes the
    `alpha0 - acos` branch, as in the model.
  - The global wind parameters are read as single-precision `float`
    values. The model keeps them exact.
  - Folding.FoldHalfTurn and Folding.FoldFullTurn terminate over the reals
    only. In doubles, `x - M_PI == x` once |x| reaches about 3.6e16 (2^55),
    and likewise for the 2*PI step at 2^56, so a huge zero-lift angle `a0`
    makes the loops of the rudder and keel spin forever.
- The math library (`sin`, `cos`, `asin`, `acos`, `sqrt`) is a parameter.
  The proofs assume only the facts in `Sound`. Its bound on `acos` is the
  constant `PI`, which is `M_PI` and lies a little below the true pi. C's
  double-valued `acos` meets that bound; the exact arc cosine does not, at
  -1.
  - Nothing is assumed of `asin`; the sweep range comes from the folding
    loop alone.
  - The rotation of `forward` and `upward` into the inertial frame
    (`RotateVector`), `GetWorldPose` and `GetWorldLinearVel` are inputs of
    the update methods: `forwardI`, `upwardI` and the velocity at cp.
- `Vector3::Normalize` uses a tolerance around zero length. The model
  treats only the exact zero length specially.
- `Load`'s SDF parsing, link and joint lookup, and `GZ_ASSERT` checks are
  not modelled. The parsed parameters arrive as a `Config`, a link type and
  a mode string. The link is handed to the constructor.
- `Init` and its subscriptions, the rope simulator callback that sets the
  sail opening `angle`, and all logging are not modelled. `angle` is a
  field that the sail update reads.
- Threads are not modelled: the local-mode thread start in `Load`, the
  `running` flag, `ros::Rate` sleeps and the unsynchronised sharing of the
  wind and water current. Each thread iteration is modelled as one step
  (`WaterThreadStep`, `WindThreadStep`) whose service outcome is a
  parameter. The position sent in the request is not modelled.
- `alpha`, `sweep` and `angle` are not initialised by the C++ constructor.
  The model starts them at 0.
- The joint stops are ghost fields (`lowStop`, `highStop`). The physics of
  the joint limits is not modelled.
- The moment arm (`GetCoG`, `momentArm`) is computed by the plugin but never
  used, and `AddTorque` is commented out. The model records the computed
  moment in `Tick.torque` only, and proves it zero.
- ForceModel.FoilTick: its contract states the guard, the presence of a
  sweep and the zero moment. The force it returns is described by its
  definition. Its properties are proved separately: the direction
  orthogonality, the coefficient laws and the dynamic pressure.
- ForceModel.SailTick: as for FoilTick. The force's properties are proved
  separately by SailDirectionsOrthogonal, FixedLawBounds and
  DoubledVelocityQuadruplesPressure.
- Appendage.KeelCoefficients and Appendage.SailCoefficients: their own
  contracts state only the zero moment. The lift and drag laws are covered
  by FixedLawsIgnoreConfig and FixedLawBounds.
