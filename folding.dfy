/** Angle folding. The plugin brings the sweep angle and the angle of
    attack back into range with loops that add or subtract a constant step
    (PI for the rudder, 2*PI for the keel's angle of attack) while the angle
    lies outside half a step of zero.

    The closed form of those loops is `Fold(step, x) == step * WrapUnit(x / step)`:
    the angle is measured in turns of the step, and `WrapUnit` removes whole
    turns until the value lies in [-1/2, 1/2]. */
module Folding {
  import opened Libm

  /** Least integer not below t. */
  function Ceil(t: real): (c: int)
    ensures t <= c as real < t + 1.0
  {
    -((-t).Floor)
  }

  /** How many whole turns the loops remove from u (in turns): none when
      |u| <= 1/2, otherwise the fewest that bring u within 1/2 of zero. */
  function Turns(u: real): int {
    if u > 0.5 then Ceil(u - 0.5)
    else if u < -0.5 then -Ceil(-u - 0.5)
    else 0
  }

  /** u with its whole turns removed. */
  function WrapUnit(u: real): real {
    u - Turns(u) as real
  }

  /** WrapUnit lands in [-1/2, 1/2], keeps the sign side it started on at the
      boundary (a value above 1/2 never lands on -1/2, one below -1/2 never
      on 1/2), and leaves values already in range alone. */
  lemma WrapUnitRange(u: real)
    ensures -0.5 <= WrapUnit(u) <= 0.5
    ensures u > 0.5 ==> WrapUnit(u) > -0.5
    ensures u < -0.5 ==> WrapUnit(u) < 0.5
    ensures -0.5 <= u <= 0.5 ==> WrapUnit(u) == u
  {
  }

  /** One iteration of the loop: removing one turn from a value outside the
      range does not change where it ends up. */
  lemma WrapUnitStep(u: real)
    ensures u > 0.5 ==> WrapUnit(u - 1.0) == WrapUnit(u) && Turns(u - 1.0) == Turns(u) - 1
    ensures u < -0.5 ==> WrapUnit(u + 1.0) == WrapUnit(u) && Turns(u + 1.0) == Turns(u) + 1
  {
  }

  /** The result of folding x with a step of PI (rudder sweep and angle of
      attack). */
  function HalfTurnFold(x: real): real {
    PI * WrapUnit(x / PI)
  }

  /** The result of folding x with a step of 2*PI (keel angle of attack). */
  function FullTurnFold(x: real): real {
    (2.0 * PI) * WrapUnit(x / (2.0 * PI))
  }

  /** The rudder's folding loops: while |y| > PI/2, step y by PI towards
      zero. */
  method FoldHalfTurn(x: real) returns (y: real)
    ensures y == HalfTurnFold(x)
  {
    y := x;
    while Abs(y) > 0.5 * PI
      invariant HalfTurnFold(y) == HalfTurnFold(x)
      decreases Abs(Turns(y / PI) as real)
    {
      WrapUnitStep(y / PI);
      assert (y - PI) / PI == y / PI - 1.0;
      assert (y + PI) / PI == y / PI + 1.0;
      y := if y > 0.0 then y - PI else y + PI;
    }
    WrapUnitRange(y / PI);
  }

  /** The keel's folding loop: while |y| > PI, step y by 2*PI towards
      zero. */
  method FoldFullTurn(x: real) returns (y: real)
    ensures y == FullTurnFold(x)
  {
    y := x;
    while Abs(y) > PI
      invariant FullTurnFold(y) == FullTurnFold(x)
      decreases Abs(Turns(y / (2.0 * PI)) as real)
    {
      WrapUnitStep(y / (2.0 * PI));
      assert (y - 2.0 * PI) / (2.0 * PI) == y / (2.0 * PI) - 1.0;
      assert (y + 2.0 * PI) / (2.0 * PI) == y / (2.0 * PI) + 1.0;
      y := if y > 0.0 then y - 2.0 * PI else y + 2.0 * PI;
    }
    WrapUnitRange(y / (2.0 * PI));
  }

  /** The half-turn fold lies in [-PI/2, PI/2], is the identity there, and
      differs from its argument by a whole number of half turns. */
  lemma HalfTurnFoldRange(x: real)
    ensures -0.5 * PI <= HalfTurnFold(x) <= 0.5 * PI
    ensures -0.5 * PI <= x <= 0.5 * PI ==> HalfTurnFold(x) == x
    ensures HalfTurnFold(x) == x - Turns(x / PI) as real * PI
  {
    WrapUnitRange(x / PI);
  }

  /** The full-turn fold lies in [-PI, PI], is the identity there, and
      differs from its argument by a whole number of full turns. */
  lemma FullTurnFoldRange(x: real)
    ensures -PI <= FullTurnFold(x) <= PI
    ensures -PI <= x <= PI ==> FullTurnFold(x) == x
    ensures FullTurnFold(x) == x - Turns(x / (2.0 * PI)) as real * (2.0 * PI)
  {
    WrapUnitRange(x / (2.0 * PI));
  }
}
