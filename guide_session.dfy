/** The per-axis guide session as values: its state, the collaborator calls it makes, and
    the specification of start, stop and one poll step. The classes in MountGuide carry
    out these steps in place and are proved to match them. */
module GuideSession {
  import opened GuideTypes
  import opened GuideRate
  import opened GuideTiming

  /** The three fields an axis keeps: guideAction, guideRate (signed offset from the tracking
      rate, in multiples of sidereal) and guideFinishTime. */
  datatype AxisState = AxisState(action: GuideAction, rate: real, finishTime: U32)

  datatype Direction = DirForward | DirReverse

  /** A call into a collaborator: updateTrackingRates(), setFrequencyMax(degToRad(x)) recorded
      by its argument `x` in degrees per second, autoSlew(dir) and autoSlewStop(). */
  datatype Effect =
    | TrackingRatesUpdated
    | FrequencyMaxSet(degPerSec: real)
    | AutoSlewStarted(dir: Direction)
    | AutoSlewStopRequested

  /** Mount-wide status a start reads: park state, goto in progress, anyError(). */
  datatype MountStatus = MountStatus(parked: bool, gotoActive: bool, anyError: bool)

  /** The axis's own status: its driver and motor fault flags and motionError(). */
  datatype AxisStatus = AxisStatus(driverFault: bool, motorFault: bool, motionError: bool)

  /** What a start reads besides the session: the statuses, the axis number the rate
      lookup is given, and the mount's maximum rate (see GuideRateSelectToRate). */
  datatype Environment = Environment(mount: MountStatus, axis: AxisStatus, rateAxis: int, maxRate: real)

  /** A start request: direction, rate selector and time limit in milliseconds. */
  datatype StartRequest = StartRequest(action: GuideAction, select: RateSelect, timeLimit: U32)

  /** The result of a start: its error, the new session and the calls it made. */
  datatype Outcome = Outcome(err: CommandError, state: AxisState, effects: seq<Effect>)

  /** The result of a stop or a poll: the new session and the calls made. */
  datatype Step = Step(state: AxisState, effects: seq<Effect>)

  /** How the chain of early returns at the head of a start ends. */
  datatype Admission = AlreadyDone | Rejected(err: CommandError) | Admitted

  const Idle: AxisState := AxisState(None, 0.0, 0)

  /** Spiral guiding is not implemented; the hook always says no. */
  function IsSpiralGuiding(): (r: bool)
    ensures !r
  {
    false
  }

  /** The checks of a start, in order; the first one that applies decides. */
  function CheckStart(s: AxisState, req: StartRequest, env: Environment, withinLimits: bool): (r: Admission)
    ensures r == AlreadyDone <==> req.action == None || req.action == s.action
    ensures r == Rejected(HardwareFault) <==>
      !(req.action == None || req.action == s.action) && (env.axis.driverFault || env.axis.motorFault)
    ensures r == Rejected(InPark) <==>
      !(req.action == None || req.action == s.action) && !env.axis.driverFault && !env.axis.motorFault
      && env.mount.parked
    ensures r == Rejected(InMotion) <==>
      !(req.action == None || req.action == s.action) && !env.axis.driverFault && !env.axis.motorFault
      && !env.mount.parked && env.mount.gotoActive
    ensures r == Admitted <==>
      !(req.action == None || req.action == s.action) && !env.axis.driverFault && !env.axis.motorFault
      && !env.mount.parked && !env.mount.gotoActive && withinLimits
      && (req.select.Code() < 3 ==> !env.mount.anyError && !env.axis.motionError)
    ensures r == Rejected(OutsideLimits) <==>
      !(req.action == None || req.action == s.action) && !env.axis.driverFault && !env.axis.motorFault
      && !env.mount.parked && !env.mount.gotoActive
      && (!withinLimits || (req.select.Code() < 3 && (env.mount.anyError || env.axis.motionError)))
    ensures r.Rejected? ==> r.err != NoError
  {
    if req.action == None || s.action == req.action then AlreadyDone
    else if env.axis.driverFault || env.axis.motorFault then Rejected(HardwareFault)
    else if env.mount.parked then Rejected(InPark)
    else if env.mount.gotoActive then Rejected(InMotion)
    else if IsSpiralGuiding() then Rejected(InMotion)
    else if !withinLimits then Rejected(OutsideLimits)
    else if req.select.Code() < 3 && env.mount.anyError then Rejected(OutsideLimits)
    else if req.select.Code() < 3 && env.axis.motionError then Rejected(OutsideLimits)
    else Admitted
  }

  /** The rate a start resolves its selector to. */
  function StartRate(req: StartRequest, env: Environment): real
  {
    GuideRateSelectToRate(req.select, env.rateAxis, env.maxRate)
  }

  /** Direction of the automatic slew for a guide action: reverse only for REVERSE. */
  function SlewDirection(action: GuideAction): Direction
  {
    if action == Reverse then DirReverse else DirForward
  }

  /** A start: `withinLimits` is the limit check's answer for the requested direction. */
  function StartSpec(s: AxisState, req: StartRequest, env: Environment, withinLimits: bool, now: U32): (r: Outcome)
    // a repeated or empty request succeeds and changes nothing
    ensures req.action == None || req.action == s.action ==> r == Outcome(NoError, s, [])
    // a refused request changes nothing and calls nothing
    ensures r.err != NoError ==> r.state == s && r.effects == []
    ensures r.err != NoError <==> CheckStart(s, req, env, withinLimits).Rejected?
    // and returns the error of the first check that refused it
    ensures CheckStart(s, req, env, withinLimits).Rejected? ==>
      r.err == CheckStart(s, req, env, withinLimits).err
    // an admitted request records the action and its deadline
    ensures CheckStart(s, req, env, withinLimits) == Admitted ==>
      r.err == NoError && r.state.action == req.action
      && r.state.finishTime == FinishTime(now, req.timeLimit)
    // up to 2x: offset the tracking rate by the signed rate, no slew
    ensures CheckStart(s, req, env, withinLimits) == Admitted && StartRate(req, env) <= 2.0 ==>
      r.state.rate == (if req.action == Reverse then -StartRate(req, env) else StartRate(req, env))
      && r.effects == [TrackingRatesUpdated]
    // above 2x: an automatic slew, and the rate field is left as it was
    ensures CheckStart(s, req, env, withinLimits) == Admitted && StartRate(req, env) > 2.0 ==>
      r.state.rate == s.rate
      && r.effects == [FrequencyMaxSet(StartRate(req, env) / 240.0), AutoSlewStarted(SlewDirection(req.action))]
  {
    match CheckStart(s, req, env, withinLimits)
    case AlreadyDone => Outcome(NoError, s, [])
    case Rejected(e) => Outcome(e, s, [])
    case Admitted =>
      var rate := StartRate(req, env);
      var finish := FinishTime(now, req.timeLimit);
      if rate <= 2.0 then
        var signed := if req.action == Reverse then -rate else rate;
        Outcome(NoError, AxisState(req.action, signed, finish), [TrackingRatesUpdated])
      else
        Outcome(NoError, AxisState(req.action, s.rate, finish),
                [FrequencyMaxSet(rate / 240.0), AutoSlewStarted(SlewDirection(req.action))])
  }

  /** A stop. */
  function StopSpec(s: AxisState): (r: Step)
    // with no guide running (idle, or already stopping) a stop does nothing
    ensures !s.action.IsGuiding() ==> r == Step(s, [])
    // afterwards no guide is running, and the deadline is kept
    ensures !r.state.action.IsGuiding() && r.state.finishTime == s.finishTime
    // a slew guide (rate 0) is asked to stop and waits in Break
    ensures s.action.IsGuiding() && s.rate == 0.0 ==>
      r.state.action == Break && r.state.rate == 0.0 && r.effects == [AutoSlewStopRequested]
    // an offset guide ends at once and the tracking rate loses the offset
    ensures s.action.IsGuiding() && s.rate != 0.0 ==>
      r.state.action == None && r.state.rate == 0.0 && r.effects == [TrackingRatesUpdated]
    ensures AutoSlewStopRequested in r.effects <==> s.action.IsGuiding() && s.rate == 0.0
  {
    if s.action.IsGuiding() then
      if s.rate == 0.0 then Step(s.(action := Break), [AutoSlewStopRequested])
      else Step(s.(action := None, rate := 0.0), [TrackingRatesUpdated])
    else Step(s, [])
  }

  /** Is the fast-guide completion of a poll due: Break, no offset, the slew has ended? */
  function SlewCompleted(s: AxisState, slewActive: bool): bool
  {
    s.action == Break && s.rate == 0.0 && !slewActive
  }

  /** One axis's share of a poll at time `now`; `slewActive` is autoSlewActive(). */
  function PollSpec(s: AxisState, now: U32, slewActive: bool): (r: Step)
    // Break ends only once the slew has stopped, and only with no offset rate
    ensures s.action == Break && r.state.action != Break ==> !slewActive && s.rate == 0.0
    ensures SlewCompleted(s, slewActive) ==> r == Step(s.(action := None), [TrackingRatesUpdated])
    // the deadline is not checked for Break (nor for None)
    ensures !s.action.IsGuiding() && !SlewCompleted(s, slewActive) ==> r == Step(s, [])
    // a running guide is stopped exactly when its deadline has passed
    ensures s.action.IsGuiding() ==>
      r == (if TimedOut(now, s.finishTime) then StopSpec(s) else Step(s, []))
  {
    if SlewCompleted(s, slewActive) then Step(s.(action := None), [TrackingRatesUpdated])
    else if s.action.IsGuiding() && TimedOut(now, s.finishTime) then StopSpec(s)
    else Step(s, [])
  }
}
