/** The mount's guide controller in place: one GuideAxis object per axis holding the fields
    the controller updates, and the Mount that owns both and runs their start, stop and
    poll operations. Each operation is proved to do what GuideSession specifies. */
module MountGuide {
  import opened GuideTypes
  import opened GuideRate
  import opened GuideLimits
  import opened GuideTiming
  import opened GuideSession

  /** The guide fields of one axis. */
  class GuideAxis {
    var action: GuideAction
    var rate: real
    var finishTime: U32

    function State(): AxisState
      reads this
    {
      AxisState(action, rate, finishTime)
    }

    constructor ()
      ensures State() == Idle
    {
      action := None;
      rate := 0.0;
      finishTime := 0;
    }

    /** startGuideAxisN once the limit check has given `withinLimits`. */
    method Start(req: StartRequest, env: Environment, withinLimits: bool, now: U32)
      returns (err: CommandError, effects: seq<Effect>)
      modifies this
      ensures Outcome(err, State(), effects) == StartSpec(old(State()), req, env, withinLimits, now)
    {
      effects := [];
      if req.action == None || action == req.action { return NoError, []; }
      if env.axis.driverFault || env.axis.motorFault { return HardwareFault, []; }
      if env.mount.parked { return InPark, []; }
      if env.mount.gotoActive { return InMotion, []; }
      if IsSpiralGuiding() { return InMotion, []; }
      if !withinLimits { return OutsideLimits, []; }
      if req.select.Code() < 3 {
        if env.mount.anyError { return OutsideLimits, []; }
        if env.axis.motionError { return OutsideLimits, []; }
      }

      action := req.action;

      var r := GuideRateSelectToRate(req.select, env.rateAxis, env.maxRate);

      if r <= 2.0 {
        if req.action == Reverse { rate := -r; } else { rate := r; }
        effects := [TrackingRatesUpdated];
      } else {
        effects := [FrequencyMaxSet(r / 240.0)];
        if req.action == Reverse {
          effects := effects + [AutoSlewStarted(DirReverse)];
        } else {
          effects := effects + [AutoSlewStarted(DirForward)];
        }
      }

      var limit := req.timeLimit;
      if limit == 0 { limit := Unlimited; }
      finishTime := Add32(now, limit);

      err := NoError;
    }

    /** stopGuideAxisN. */
    method Stop() returns (effects: seq<Effect>)
      modifies this
      ensures Step(State(), effects) == StopSpec(old(State()))
    {
      effects := [];
      if action.IsGuiding() {
        if rate == 0.0 {
          action := Break;
          effects := [AutoSlewStopRequested];
        } else {
          action := None;
          rate := 0.0;
          effects := [TrackingRatesUpdated];
        }
      }
    }

    /** One axis's half of pollGuides: `now` is millis(), `slewActive` autoSlewActive(). */
    method Poll(now: U32, slewActive: bool) returns (effects: seq<Effect>)
      modifies this
      ensures Step(State(), effects) == PollSpec(old(State()), now, slewActive)
    {
      effects := [];
      if action == Break && rate == 0.0 && !slewActive {
        action := None;
        effects := [TrackingRatesUpdated];
      } else {
        if action.IsGuiding() && ToSigned32(Sub32(now, finishTime)) >= 0 {
          effects := Stop();
        }
      }
    }
  }

  /** The mount's two guide axes. */
  class Mount {
    const axis1: GuideAxis
    const axis2: GuideAxis

    ghost predicate Valid()
      reads this
    {
      axis1 != axis2
    }

    constructor ()
      ensures Valid() && fresh(axis1) && fresh(axis2)
      ensures axis1.State() == Idle && axis2.State() == Idle
    {
      axis1 := new GuideAxis();
      axis2 := new GuideAxis();
    }

    /** startGuideAxis1: the axis 1 limit check decides OUTSIDE_LIMITS; axis 2 is untouched. */
    method StartGuideAxis1(req: StartRequest, env: Environment, m: Snapshot, now: U32)
      returns (err: CommandError, effects: seq<Effect>)
      requires Valid()
      modifies axis1
      ensures Outcome(err, axis1.State(), effects)
              == StartSpec(old(axis1.State()), req, env, ValidGuideAxis1(m, req.action), now)
      ensures axis2.State() == old(axis2.State())
    {
      err, effects := axis1.Start(req, env, ValidGuideAxis1(m, req.action), now);
    }

    /** startGuideAxis2: the axis 2 limit check decides OUTSIDE_LIMITS; axis 1 is untouched. */
    method StartGuideAxis2(req: StartRequest, env: Environment, m: Snapshot, now: U32)
      returns (err: CommandError, effects: seq<Effect>)
      requires Valid()
      modifies axis2
      ensures Outcome(err, axis2.State(), effects)
              == StartSpec(old(axis2.State()), req, env, ValidGuideAxis2(m, req.action), now)
      ensures axis1.State() == old(axis1.State())
    {
      err, effects := axis2.Start(req, env, ValidGuideAxis2(m, req.action), now);
    }

    method StopGuideAxis1() returns (effects: seq<Effect>)
      requires Valid()
      modifies axis1
      ensures Step(axis1.State(), effects) == StopSpec(old(axis1.State()))
      ensures axis2.State() == old(axis2.State())
    {
      effects := axis1.Stop();
    }

    method StopGuideAxis2() returns (effects: seq<Effect>)
      requires Valid()
      modifies axis2
      ensures Step(axis2.State(), effects) == StopSpec(old(axis2.State()))
      ensures axis1.State() == old(axis1.State())
    {
      effects := axis2.Stop();
    }

    /** pollGuides: each axis is advanced from its own state alone. `now1` and `now2` are
        the two readings of millis(), `slewActive1/2` each axis's autoSlewActive(). */
    method PollGuides(now1: U32, slewActive1: bool, now2: U32, slewActive2: bool)
      returns (effects1: seq<Effect>, effects2: seq<Effect>)
      requires Valid()
      modifies axis1, axis2
      ensures Step(axis1.State(), effects1) == PollSpec(old(axis1.State()), now1, slewActive1)
      ensures Step(axis2.State(), effects2) == PollSpec(old(axis2.State()), now2, slewActive2)
    {
      effects1 := axis1.Poll(now1, slewActive1);
      effects2 := axis2.Poll(now2, slewActive2);
    }
  }
}
