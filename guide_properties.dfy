/** Properties of the guide session: what repeated calls do, the invariant the operations
    keep, how deadlines behave over a run of polls, and three behaviours of the controller
    as written that its comments and design do not lead one to expect. */
module GuideProperties {
  import opened GuideTypes
  import opened GuideRate
  import opened GuideTiming
  import opened GuideSession

  /** One control tick as the poll sees it: millis() and autoSlewActive(). */
  datatype Tick = Tick(now: U32, slewActive: bool)

  /** The session after polling it once per tick, in order. */
  function PollRun(s: AxisState, ticks: seq<Tick>): AxisState
    decreases |ticks|
  {
    if |ticks| == 0 then s
    else PollRun(PollSpec(s, ticks[0].now, ticks[0].slewActive).state, ticks[1..])
  }

  // ---------------------------------------------------------------------------------------
  // Repeated calls

  /** A start that succeeded, repeated with the same action, succeeds and changes nothing,
      whatever the statuses, the selector and the clock are at the second call. */
  lemma StartTwiceIsStartOnce(s: AxisState, req: StartRequest, env: Environment, withinLimits: bool,
                              now: U32, req2: StartRequest, env2: Environment, withinLimits2: bool, now2: U32)
    requires StartSpec(s, req, env, withinLimits, now).err == NoError
    requires req2.action == req.action
    ensures var s1 := StartSpec(s, req, env, withinLimits, now).state;
            StartSpec(s1, req2, env2, withinLimits2, now2) == Outcome(NoError, s1, [])
  {
  }

  /** A second stop never does anything: the first one always leaves no guide running. */
  lemma StopTwiceIsStopOnce(s: AxisState)
    ensures StopSpec(StopSpec(s).state) == Step(StopSpec(s).state, [])
  {
  }

  // ---------------------------------------------------------------------------------------
  // The invariant: an idle or stopping axis carries no offset rate

  /** An idle axis adds nothing to the tracking rate. */
  ghost predicate IdleHasNoOffset(s: AxisState)
  {
    s.action == None ==> s.rate == 0.0
  }

  /** An idle axis, or one whose slew is stopping, adds nothing to the tracking rate. */
  ghost predicate Consistent(s: AxisState)
  {
    (s.action == None || s.action == Break) ==> s.rate == 0.0
  }

  /** Every operation keeps an idle axis free of offset, for any request. */
  lemma IdleHasNoOffsetKept(s: AxisState, req: StartRequest, env: Environment, withinLimits: bool,
                            now: U32, slewActive: bool)
    requires IdleHasNoOffset(s)
    ensures IdleHasNoOffset(StartSpec(s, req, env, withinLimits, now).state)
    ensures IdleHasNoOffset(StopSpec(s).state)
    ensures IdleHasNoOffset(PollSpec(s, now, slewActive).state)
  {
  }

  /** Stop, poll, and every start that asks for a direction (or for nothing) keep Consistent. */
  lemma ConsistentKept(s: AxisState, req: StartRequest, env: Environment, withinLimits: bool,
                       now: U32, slewActive: bool)
    requires Consistent(s)
    requires req.action != Break
    ensures Consistent(StartSpec(s, req, env, withinLimits, now).state)
    ensures Consistent(StopSpec(s).state)
    ensures Consistent(PollSpec(s, now, slewActive).state)
  {
  }

  // ---------------------------------------------------------------------------------------
  // Runs of polls

  /** An idle axis stays idle under any run of polls. */
  lemma {:induction false} IdleStaysIdle(s: AxisState, ticks: seq<Tick>)
    requires s.action == None
    ensures PollRun(s, ticks) == s
  {
    if |ticks| > 0 {
      IdleStaysIdle(s, ticks[1..]);
    }
  }

  /** The poll never confirms a stop while the slew is still running, and the deadline is
      not checked in Break: a stopping axis whose slew never ends stays in Break for ever. */
  lemma {:induction false} BreakWaitsForSlew(s: AxisState, ticks: seq<Tick>)
    requires s.action == Break
    requires forall i :: 0 <= i < |ticks| ==> ticks[i].slewActive
    ensures PollRun(s, ticks) == s
  {
    if |ticks| > 0 {
      assert forall i :: 0 <= i < |ticks[1..]| ==> ticks[1..][i].slewActive by {
        forall i | 0 <= i < |ticks[1..]| ensures ticks[1..][i].slewActive {
          assert ticks[1..][i] == ticks[i + 1];
        }
      }
      BreakWaitsForSlew(s, ticks[1..]);
    }
  }

  /** A guide started at `start` with a limit below 2^31 ms is left alone by every poll
      taken before the limit has elapsed, across any wrap of the counter. */
  lemma {:induction false} NoTimeoutBeforeLimit(s: AxisState, start: U32, limit: U32, ticks: seq<Tick>)
    requires s.action.IsGuiding()
    requires 0 < limit < HalfRange
    requires s.finishTime == FinishTime(start, limit)
    requires forall i :: 0 <= i < |ticks| ==> Sub32(ticks[i].now, start) < limit
    ensures PollRun(s, ticks) == s
  {
    if |ticks| > 0 {
      TimeoutExact(start, ticks[0].now, limit);
      assert PollSpec(s, ticks[0].now, ticks[0].slewActive).state == s;
      assert forall i :: 0 <= i < |ticks[1..]| ==> Sub32(ticks[1..][i].now, start) < limit by {
        forall i | 0 <= i < |ticks[1..]| ensures Sub32(ticks[1..][i].now, start) < limit {
          assert ticks[1..][i] == ticks[i + 1];
        }
      }
      NoTimeoutBeforeLimit(s, start, limit, ticks[1..]);
    }
  }

  /** The first poll once the limit has elapsed (and within 2^31 ms of it) stops the guide:
      an offset guide ends, a slew guide is asked to stop and waits in Break. */
  lemma TimeoutStopsGuide(s: AxisState, start: U32, limit: U32, now: U32, slewActive: bool)
    requires s.action.IsGuiding()
    requires 0 < limit < HalfRange
    requires s.finishTime == FinishTime(start, limit)
    requires limit <= Sub32(now, start) < limit + HalfRange
    ensures PollSpec(s, now, slewActive) == StopSpec(s)
    ensures !PollSpec(s, now, slewActive).state.action.IsGuiding()
  {
  }

  // ---------------------------------------------------------------------------------------
  // Behaviours of the controller as written

  /** A time limit of 0 is meant to mean "unlimited", but the guide is stopped by the very
      first poll, even one in the same millisecond as the start. */
  lemma UnlimitedGuideStopsAtFirstPoll(s: AxisState, start: U32, now: U32, slewActive: bool)
    requires s.action.IsGuiding()
    requires s.finishTime == FinishTime(start, 0)
    requires Sub32(now, start) < HalfRange - 1
    ensures PollSpec(s, now, slewActive) == StopSpec(s)
  {
  }

  /** A slew guide started while an offset guide runs keeps the offset rate; the stop that
      follows then takes the offset branch: the axis goes idle at once and autoSlewStop() is
      never called, so the slew is left running with no guide recorded. */
  lemma {:induction false} SlewOverOffsetLeavesSlewRunning(s: AxisState, req: StartRequest, env: Environment, now: U32,
                                        ticks: seq<Tick>)
    requires s.action.IsGuiding() && s.rate != 0.0
    requires req.action.IsGuiding()
    requires CheckStart(s, req, env, true) == Admitted
    requires StartRate(req, env) > 2.0
    ensures var o := StartSpec(s, req, env, true, now);
            o.state.rate == s.rate
            && AutoSlewStarted(SlewDirection(req.action)) in o.effects
            && StopSpec(o.state).state.action == None
            && AutoSlewStopRequested !in StopSpec(o.state).effects
            && PollRun(StopSpec(o.state).state, ticks) == StopSpec(o.state).state
            && forall t: Tick :: PollSpec(StopSpec(o.state).state, t.now, t.slewActive).effects == []
  {
    var o := StartSpec(s, req, env, true, now);
    IdleStaysIdle(StopSpec(o.state).state, ticks);
  }

  /** Nothing keeps a caller from asking for Break: an admitted start(Break) at up to 2x
      records Break with a nonzero offset, which no stop and no poll ever clears. */
  lemma {:induction false} StartBreakWedges(s: AxisState, req: StartRequest, env: Environment, now: U32, ticks: seq<Tick>)
    requires req.action == Break
    requires CheckStart(s, req, env, true) == Admitted
    requires 0.0 < StartRate(req, env) <= 2.0
    ensures var s1 := StartSpec(s, req, env, true, now).state;
            s1.action == Break && s1.rate == StartRate(req, env)
            && StopSpec(s1) == Step(s1, [])
            && PollRun(s1, ticks) == s1
  {
    var s1 := StartSpec(s, req, env, true, now).state;
    StuckBreak(s1, ticks);
  }

  /** An admitted start(Break) above 2x records Break, leaves the rate as it was and starts a
      forward slew; stop never asks that slew to stop, and while it runs no poll changes the
      axis, since the deadline test skips Break. */
  lemma {:induction false} StartBreakSlewWedges(s: AxisState, req: StartRequest, env: Environment, now: U32,
                                                ticks: seq<Tick>)
    requires req.action == Break
    requires CheckStart(s, req, env, true) == Admitted
    requires StartRate(req, env) > 2.0
    requires forall i :: 0 <= i < |ticks| ==> ticks[i].slewActive
    ensures var o := StartSpec(s, req, env, true, now);
            o.state.action == Break && o.state.rate == s.rate
            && AutoSlewStarted(DirForward) in o.effects
            && StopSpec(o.state) == Step(o.state, [])
            && PollRun(o.state, ticks) == o.state
  {
    var o := StartSpec(s, req, env, true, now);
    assert o.effects[1] == AutoSlewStarted(DirForward);
    if o.state.rate != 0.0 {
      StuckBreak(o.state, ticks);
    } else {
      BreakWaitsForSlew(o.state, ticks);
    }
  }

  /** A Break with an offset rate is never completed by a poll. */
  lemma {:induction false} StuckBreak(s: AxisState, ticks: seq<Tick>)
    requires s.action == Break && s.rate != 0.0
    ensures PollRun(s, ticks) == s
  {
    if |ticks| > 0 {
      StuckBreak(s, ticks[1..]);
    }
  }

  // ---------------------------------------------------------------------------------------
  // Worked sessions

  /** A healthy mount with nothing else moving. */
  function Healthy(rateAxis: int): Environment
  {
    Environment(MountStatus(false, false, false), AxisStatus(false, false, false), rateAxis, 0.0)
  }

  /** An idle axis started forward at 1x with no limit offsets tracking by +1; the same start
      again changes nothing; a stop then ends the guide within the same tick. */
  lemma OffsetGuideSession(now: U32, rateAxis: int)
    ensures var o := StartSpec(Idle, StartRequest(Forward, Times1, 0), Healthy(rateAxis), true, now);
            o.err == NoError && o.state.action == Forward && o.state.rate == 1.0
            && o.effects == [TrackingRatesUpdated]
            && StartSpec(o.state, StartRequest(Forward, Times1, 0), Healthy(rateAxis), true, now)
               == Outcome(NoError, o.state, [])
            && StopSpec(o.state).state.action == None && StopSpec(o.state).state.rate == 0.0
  {
  }

  /** An idle axis started forward at 8x for 5000 ms slews with no offset; the first poll
      after the deadline asks the slew to stop (Break), and a poll once the slew has ended
      makes the axis idle. */
  lemma SlewGuideSession(start: U32, later: U32, rateAxis: int)
    requires 5000 <= Sub32(later, start) < 5000 + HalfRange
    ensures var o := StartSpec(Idle, StartRequest(Forward, Times8, 5000), Healthy(rateAxis), true, start);
            var p1 := PollSpec(o.state, later, true);
            var p2 := PollSpec(p1.state, later, false);
            o.err == NoError && o.state.rate == 0.0 && o.state.finishTime == Add32(start, 5000)
            && o.effects == [FrequencyMaxSet(8.0 / 240.0), AutoSlewStarted(DirForward)]
            && p1 == Step(o.state.(action := Break), [AutoSlewStopRequested])
            && p2 == Step(o.state.(action := None), [TrackingRatesUpdated])
  {
  }
}
