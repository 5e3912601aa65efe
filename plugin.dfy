/** The plugin object: its parameters, the fluid-velocity estimate it keeps
    (water current for a rudder or keel, wind for a sail), the angles it
    updates on every simulation step, and the link it applies forces to. */
module Plugin {
  import opened Vectors
  import opened Libm
  import opened Folding
  import opened Appendage
  import opened ForceModel

  /** A force applied to the link at a position relative to the link. */
  datatype AppliedForce = AppliedForce(force: Vec3, position: Vec3)

  /** The simulated link the plugin pushes; it records every force applied
      to it, in order. */
  class Link {
    var applied: seq<AppliedForce>

    constructor ()
      ensures applied == []
    {
      applied := [];
    }

    /** `Link::AddForceAtRelativePosition`. */
    method AddForceAtRelativePosition(force: Vec3, position: Vec3)
      modifies this
      ensures applied == old(applied) + [AppliedForce(force, position)]
    {
      applied := applied + [AppliedForce(force, position)];
    }
  }

  /** The x and y speeds a current or wind service returns. */
  datatype SpeedReply = SpeedReply(x: real, y: real)

  class SailingPlugin {
    var config: Config
    var linkType: string
    var fluidVelocity: string
    var alpha: real          // angle of attack of the last update
    var sweep: real          // sweep angle of the last rudder or keel update
    var angle: real          // sail opening, set by the rope simulator
    var waterCurrent: Vec3
    var wind: Vec3
    ghost var lowStop: real  // joint limits the sail sets
    ghost var highStop: real
    const link: Link

    /** Angles within the ranges the updates fold them into. */
    ghost predicate AnglesInRange()
      reads this
    {
      -0.5 * PI <= sweep <= 0.5 * PI && -PI <= alpha <= PI
    }

    /** The state after an update with outcome t, from the given earlier
        angles and force log: nothing changes on a skipped update; otherwise
        the new angles are stored and exactly one force is applied, at the
        centre of pressure. */
    ghost predicate Reflects(t: Tick, oldAlpha: real, oldSweep: real, oldApplied: seq<AppliedForce>)
      reads this, link
    {
      match t
      case Skipped =>
        alpha == oldAlpha && sweep == oldSweep && link.applied == oldApplied
      case Fired(s, a, f, _) =>
        && alpha == a
        && sweep == (if s.Some? then s.value else oldSweep)
        && link.applied == oldApplied + [AppliedForce(f, config.cp)]
    }

    /** The constructor's defaults. */
    constructor (link: Link)
      ensures config == DefaultConfig
      ensures linkType == "" && fluidVelocity == ""
      ensures waterCurrent == Zero && wind == Zero
      ensures alpha == 0.0 && sweep == 0.0 && angle == 0.0
      ensures this.link == link
    {
      config := DefaultConfig;
      linkType := "";
      fluidVelocity := "";
      alpha, sweep, angle := 0.0, 0.0, 0.0;
      waterCurrent := Zero;
      wind := Zero;
      this.link := link;
    }

    /** `Load` after the SDF element has been read into `sdf`, `linkType`
        and `fluidVelocity`. The water current is reset to zero. In global
        mode the wind becomes (x, y, 0) when both wind parameters are found
        on the parameter server, and is left as it was otherwise. */
    method Load(sdf: Config, linkType: string, fluidVelocity: string, windX: Option<real>, windY: Option<real>)
      modifies this`config, this`linkType, this`fluidVelocity, this`waterCurrent, this`wind
      ensures config == sdf && this.linkType == linkType && this.fluidVelocity == fluidVelocity
      ensures waterCurrent == Zero
      ensures fluidVelocity == "global" && windX.Some? && windY.Some? ==> wind == Vec3(windX.value, windY.value, 0.0)
      ensures !(fluidVelocity == "global" && windX.Some? && windY.Some?) ==> wind == old(wind)
    {
      config := sdf;
      this.linkType := linkType;
      this.fluidVelocity := fluidVelocity;
      waterCurrent := Zero;
      if fluidVelocity == "global" {
        if windX.Some? && windY.Some? {
          wind := Vec3(windX.value, windY.value, 0.0);
        }
      }
    }

    /** One simulation step: run the update the link type selects, or do
        nothing for an unknown link type. The angles stay in range. */
    method OnUpdate(velAtCp: Vec3, forwardI: Vec3, upwardI: Vec3, lib: MathLib)
      modifies this`alpha, this`sweep, this`lowStop, this`highStop, link
      ensures KindOf(linkType) == None ==>
        && alpha == old(alpha) && sweep == old(sweep)
        && lowStop == old(lowStop) && highStop == old(highStop)
        && link.applied == old(link.applied)
      ensures KindOf(linkType).Some? ==>
        Reflects(TickOf(KindOf(linkType).value, config, waterCurrent, wind, velAtCp, forwardI, upwardI, lib),
                 old(alpha), old(sweep), old(link.applied))
      ensures KindOf(linkType) == Some(Sail) ==> lowStop == -angle && highStop == angle
      ensures KindOf(linkType) != Some(Sail) ==> lowStop == old(lowStop) && highStop == old(highStop)
      ensures Sound(lib) && old(AnglesInRange()) ==> AnglesInRange()
    {
      if linkType == "rudder" {
        OnUpdateRudder(velAtCp, forwardI, upwardI, lib);
      } else if linkType == "keel" {
        OnUpdateKeel(velAtCp, forwardI, upwardI, lib);
      } else if linkType == "sail" {
        OnUpdateSail(velAtCp, forwardI, upwardI, lib);
      }
    }

    /** The rudder update. */
    method OnUpdateRudder(velAtCp: Vec3, forwardI: Vec3, upwardI: Vec3, lib: MathLib)
      modifies this`alpha, this`sweep, link
      ensures Reflects(FoilTick(Rudder, config, Sub(velAtCp, waterCurrent), forwardI, upwardI, lib),
                       old(alpha), old(sweep), old(link.applied))
      ensures old(AnglesInRange()) ==> AnglesInRange()
    {
      var vel := Sub(velAtCp, waterCurrent);
      if Len(vel, lib) <= SpeedThreshold {
        return;
      }
      var ldNormal := LdNormal(forwardI, upwardI, lib);
      var sinSweepAngle := SinSweep(ldNormal, vel, lib);
      var cosSweepAngle2 := CosSweep2(sinSweepAngle);
      sweep := FoldHalfTurn(lib.asin(sinSweepAngle));
      var velInLDPlane := InPlane(ldNormal, vel);
      var dragDirection := DragDirection(velInLDPlane, lib);
      var liftDirection := LiftDirection(ldNormal, velInLDPlane, lib);
      alpha := FoldHalfTurn(SignedAngle(config.alpha0, forwardI, upwardI, velInLDPlane, lib));
      var q := DynamicPressure(config.rho, Len(velInLDPlane, lib));
      var c := RudderCoefficients(config, alpha, cosSweepAngle2);
      var force := Force(c, q, config.area, liftDirection, dragDirection);
      FoilTickRanges(Rudder, config, vel, forwardI, upwardI, lib);
      link.AddForceAtRelativePosition(force, config.cp);
    }

    /** The keel update: as the rudder's, but the angle of attack is folded
        by 2*PI and the coefficients follow the keel's fixed laws. */
    method OnUpdateKeel(velAtCp: Vec3, forwardI: Vec3, upwardI: Vec3, lib: MathLib)
      modifies this`alpha, this`sweep, link
      ensures Reflects(FoilTick(Keel, config, Sub(velAtCp, waterCurrent), forwardI, upwardI, lib),
                       old(alpha), old(sweep), old(link.applied))
      ensures old(AnglesInRange()) ==> AnglesInRange()
    {
      var vel := Sub(velAtCp, waterCurrent);
      if Len(vel, lib) <= SpeedThreshold {
        return;
      }
      var ldNormal := LdNormal(forwardI, upwardI, lib);
      var sinSweepAngle := SinSweep(ldNormal, vel, lib);
      var cosSweepAngle2 := CosSweep2(sinSweepAngle);
      sweep := FoldHalfTurn(lib.asin(sinSweepAngle));
      var velInLDPlane := InPlane(ldNormal, vel);
      var dragDirection := DragDirection(velInLDPlane, lib);
      var liftDirection := LiftDirection(ldNormal, velInLDPlane, lib);
      alpha := FoldFullTurn(SignedAngle(config.alpha0, forwardI, upwardI, velInLDPlane, lib));
      var q := DynamicPressure(config.rho, Len(velInLDPlane, lib));
      var c := KeelCoefficients(alpha, lib);
      var force := Force(c, q, config.area, liftDirection, dragDirection);
      FoilTickRanges(Keel, config, vel, forwardI, upwardI, lib);
      link.AddForceAtRelativePosition(force, config.cp);
    }

    /** The sail update: the joint stops are set to plus and minus the sail
        opening before the speed guard; the apparent wind is used as it is,
        and the sweep angle is left alone. */
    method OnUpdateSail(velAtCp: Vec3, forwardI: Vec3, upwardI: Vec3, lib: MathLib)
      modifies this`alpha, this`lowStop, this`highStop, link
      ensures lowStop == -angle && highStop == angle
      ensures Reflects(SailTick(config, Sub(wind, velAtCp), forwardI, upwardI, lib),
                       old(alpha), old(sweep), old(link.applied))
      ensures Sound(lib) && old(AnglesInRange()) ==> AnglesInRange()
    {
      lowStop := -angle;
      highStop := angle;
      var aw := Sub(wind, velAtCp);
      if Len(aw, lib) <= SpeedThreshold {
        return;
      }
      var ldNormal := LdNormal(forwardI, upwardI, lib);
      var velInLDPlane := aw;
      var dragDirection := SailDragDirection(velInLDPlane, lib);
      var liftDirection := SailLiftDirection(ldNormal, velInLDPlane, lib);
      alpha := SignedAngle(0.0, forwardI, upwardI, velInLDPlane, lib);
      var q := DynamicPressure(config.rho, Len(velInLDPlane, lib));
      var c := SailCoefficients(alpha, lib);
      var force := Force(c, q, config.area, liftDirection, dragDirection);
      if Sound(lib) {
        SailAngleRange(config, aw, forwardI, upwardI, lib);
      }
      link.AddForceAtRelativePosition(force, config.cp);
    }

    /** The current subscriber overwrites the whole water-current
        estimate. */
    method ReadWaterCurrent(msg: Vec3)
      modifies this`waterCurrent
      ensures waterCurrent == msg
    {
      waterCurrent := Vec3(msg.x, msg.y, msg.z);
    }

    /** One pass of the water-current thread: a successful service call
        overwrites x and y and keeps z; a failed call changes nothing. */
    method WaterThreadStep(reply: Option<SpeedReply>)
      modifies this`waterCurrent
      ensures reply.Some? ==> waterCurrent == Vec3(reply.value.x, reply.value.y, old(waterCurrent).z)
      ensures reply.None? ==> waterCurrent == old(waterCurrent)
    {
      if reply.Some? {
        waterCurrent := waterCurrent.(x := reply.value.x);
        waterCurrent := waterCurrent.(y := reply.value.y);
      }
    }

    /** One pass of the wind thread, with the same rule for the wind. */
    method WindThreadStep(reply: Option<SpeedReply>)
      modifies this`wind
      ensures reply.Some? ==> wind == Vec3(reply.value.x, reply.value.y, old(wind).z)
      ensures reply.None? ==> wind == old(wind)
    {
      if reply.Some? {
        wind := wind.(x := reply.value.x);
        wind := wind.(y := reply.value.y);
      }
    }
  }

  /** A freshly constructed plugin loaded in global mode has the wind
      (x, y, 0) when both wind parameters are found, and keeps the
      constructor's zero wind otherwise. */
  method GlobalWindAfterLoad(sdf: Config, linkType: string, windX: Option<real>, windY: Option<real>)
    returns (w: Vec3)
    ensures windX.Some? && windY.Some? ==> w == Vec3(windX.value, windY.value, 0.0)
    ensures !(windX.Some? && windY.Some?) ==> w == Zero
  {
    var link := new Link();
    var plugin := new SailingPlugin(link);
    plugin.Load(sdf, linkType, "global", windX, windY);
    w := plugin.wind;
  }
}
