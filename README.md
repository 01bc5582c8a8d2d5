# Guide-session controller of the OnStepX mount

A Dafny model of the per-axis guide controller of the OnStepX telescope mount firmware
(`src/mount/Mount.guide.cpp`). A guide nudges one mount axis forward or reverse at a chosen
multiple of the sidereal rate for a bounded time. The controller:

- resolves a symbolic rate selector to a rate (module `GuideRate`);
- checks the requested direction against the axis limits (module `GuideLimits`);
- starts the guide as either a signed offset of the tracking rate (rates up to 2x) or an
  independent automatic slew (faster rates), after a fixed chain of refusals;
- stops it: at once for an offset guide, or through the intermediate `Break` state for a
  slew, which a later poll completes once the slew has ended;
- polls each axis every control tick to complete stops and enforce the deadline, computed on
  the 32-bit millisecond counter with wrap-around (module `GuideTiming`).

`GuideSession` states each operation as a function over the axis's three fields (action, rate,
finish time) that returns the new fields and the calls made to collaborators
(`updateTrackingRates`, `setFrequencyMax`, `autoSlew`, `autoSlewStop`). `MountGuide` holds the
in-place form of the controller: a `GuideAxis` class with those three fields, whose `Start`,
`Stop` and `Poll` methods update them step by step, and a `Mount` class with the two axes, whose
methods are the source's `startGuideAxis1/2`, `stopGuideAxis1/2` and `pollGuides`. Every method
is proved to produce exactly the state and calls of the corresponding function. The lemmas in
`GuideProperties` then say what those functions promise.

The spiral-guide hook `isSpiralGuiding` is the constant `GuideSession.IsSpiralGuiding` (always
false), so a start is refused as in motion only by a goto.

## Behaviours of the code that the names and comments do not suggest

- HALF_MAX resolves to `(2000000 / usPerStepCurrent) / degToRad(steps)`, twice the MAX rate,
  although its name says half.
- A start that slews (rate above 2x) does not write the rate field; it is not set to 0. A slew
  started over a running offset guide keeps the offset, and the stop that follows ends the
  guide at once without asking the slew to stop (`SlewOverOffsetLeavesSlewRunning`).
- A time limit of 0 is replaced by 0xFFFFFFFF, so the finish time is one millisecond before
  the start and the very next poll stops the guide (`UnlimitedGuideStopsAtFirstPoll`); the
  comment's "about 49 days" does not hold with a 32-bit signed difference.
- The poll's deadline check applies only to Forward and Reverse, not to Break; a Break whose
  slew never reports inactive stays in Break (`BreakWaitsForSlew`).
- The axis 1 forward check on the east side compares the hour angle with the negated
  past-meridian allowance (`h < -pastMeridianE`).
- Nothing refuses a start asking for Break itself; one admitted at up to 2x records Break with
  a nonzero offset that no stop or poll clears (`StartBreakWedges`); one above 2x starts a
  forward slew that no stop asks to end and no deadline ends (`StartBreakSlewWedges`).

## Model

| member | source | states |
|---|---|---|
| GuideRate.GuideRateSelectToRate | src/mount/Mount.guide.cpp:18-33 | QUARTER..48X give 0.25, 0.5, 1, 2, 4, 8, 20, 48; HALF_MAX gives twice and MAX once the axis-1-derived maximum rate; CUSTOM gives 48 on axis 1 or 2 and 0 otherwise; unlisted selectors give 0; QUARTER..2X give a rate in (0, 2] (offset mode), 4X..48X above 2 (slew mode), and the three error-checked tiers at most 1 |
| GuideTypes.GuideAction.IsGuiding | src/mount/Mount.guide.cpp:141 | the comparison `action > GA_BREAK` holds exactly for Forward and Reverse |
| GuideLimits.ValidGuideAxis1 | src/mount/Mount.guide.cpp:35-47 | always allowed with limits disabled or for an action that is not Forward/Reverse; Forward refused below the axis 1 minimum, Reverse above the maximum |
| GuideLimits.Axis1ForwardRefusedIff | src/mount/Mount.guide.cpp:38-41 | with limits on, Forward is refused iff h < axis 1 min, or the flip policy is not NEVER, the pier side is East and h < -pastMeridianE |
| GuideLimits.Axis1ReverseRefusedIff | src/mount/Mount.guide.cpp:42-45 | with limits on, Reverse is refused iff h > axis 1 max, or the flip policy is not NEVER, the pier side is West and h > pastMeridianW |
| GuideLimits.Axis1DirectionsMirror | src/mount/Mount.guide.cpp:38-45 | the Reverse check equals the Forward check on the mount mirrored across the meridian (h negated, pier side, limits and allowances swapped), and vice versa |
| GuideLimits.Axis2Coordinate | src/mount/Mount.guide.cpp:54-58 | the axis 2 coordinate is the instrument coordinate with the tangent-arm option, otherwise the altitude on an alt-azimuth mount and the declination on any other |
| GuideLimits.ValidGuideAxis2 | src/mount/Mount.guide.cpp:49-70 | always allowed with limits disabled or for an action that is not Forward/Reverse; on an alt-azimuth mount Forward is refused above the altitude maximum and Reverse below the minimum; with no pier side on an equatorial mount everything is allowed |
| GuideLimits.Axis2ForwardRefusedIff | src/mount/Mount.guide.cpp:59-63 | with limits on, Forward is refused iff (a2 < min and West) or (a2 > max and East) or (alt-azimuth and altitude > altitude max) |
| GuideLimits.Axis2ReverseRefusedIff | src/mount/Mount.guide.cpp:64-68 | with limits on, Reverse is refused iff (a2 < min and East) or (a2 > max and West) or (alt-azimuth and altitude < altitude min) |
| GuideLimits.Axis2DirectionsMirror | src/mount/Mount.guide.cpp:59-68 | when a2 is not the altitude, the Reverse check equals the Forward check with the pier side swapped and altitude and its limits negated, and vice versa |
| GuideTiming.ToSigned32 | src/mount/Mount.guide.cpp:177 | the `(long)` cast lies in [-2^31, 2^31) and is congruent to its operand modulo 2^32 |
| GuideTiming.FinishTime | src/mount/Mount.guide.cpp:99-101 | the finish time lies `limit` ms after the start modulo 2^32, and for a limit of 0 one millisecond before the start |
| GuideTiming.TimedOut | src/mount/Mount.guide.cpp:177 | the signed test `(long)(now - finish) >= 0` holds iff the wrapped difference is below 2^31 |
| GuideTiming.TimeoutExact | src/mount/Mount.guide.cpp:177 | for 0 < limit < 2^31 the deadline test holds iff the wrapped elapsed time since the start lies in [limit, limit + 2^31), whatever the start value |
| GuideTiming.UnlimitedTimesOutAtOnce | src/mount/Mount.guide.cpp:99-101 | with a limit of 0 the deadline test already holds at the start and for every elapsed time below 2^31 - 1 ms |
| GuideSession.IsSpiralGuiding | src/mount/Mount.guide.cpp:190-192 | the spiral-guide hook is always false, so (with CheckStart) only a goto refuses a start as IN_MOTION |
| GuideSession.CheckStart | src/mount/Mount.guide.cpp:73-82 | the early returns in source order: a None or repeated action is already done; otherwise a driver or motor fault refuses with HARDWARE_FAULT, then park with IN_PARK, then goto with IN_MOTION; OUTSIDE_LIMITS exactly when past those the limit check fails or, for selectors below 3 only, a mount error or motion error is set; admission otherwise |
| GuideSession.StartSpec | src/mount/Mount.guide.cpp:72-104 | a repeated or None action succeeds with no change; a refusal changes nothing, calls nothing and returns the error of the first check that refused it (CheckStart's order); an admitted start records the action and the finish time; up to 2x it sets the signed rate (negative for Reverse) and updates tracking; above 2x it leaves the rate, sets the slew frequency to rate/240 and starts the slew in the matching direction |
| GuideSession.StopSpec | src/mount/Mount.guide.cpp:140-153 | no-op for None and Break; afterwards no guide runs and the deadline is kept; rate 0 goes to Break and requests autoSlewStop; a nonzero rate goes to None with rate 0 and updates tracking; autoSlewStop is requested iff a rate-0 guide was running |
| GuideSession.PollSpec | src/mount/Mount.guide.cpp:171-178 | Break leaves only when its slew has ended and its rate is 0, then to None with a tracking update; None and an unfinished Break are untouched; a running guide is stopped iff its deadline test holds |
| MountGuide.GuideAxis.Start | src/mount/Mount.guide.cpp:72-104 | the in-place start returns the error and calls, and leaves the fields, that StartSpec gives |
| MountGuide.GuideAxis.Stop | src/mount/Mount.guide.cpp:140-153 | the in-place stop leaves the fields and makes the calls that StopSpec gives |
| MountGuide.GuideAxis.Poll | src/mount/Mount.guide.cpp:171-178 | the in-place poll of one axis leaves the fields and makes the calls that PollSpec gives |
| MountGuide.Mount.StartGuideAxis1 | src/mount/Mount.guide.cpp:72-104 | start on axis 1 with the axis 1 limit check deciding OUTSIDE_LIMITS; axis 2 unchanged |
| MountGuide.Mount.StartGuideAxis2 | src/mount/Mount.guide.cpp:106-138 | start on axis 2 with the axis 2 limit check deciding OUTSIDE_LIMITS; axis 1 unchanged |
| MountGuide.Mount.StopGuideAxis1 | src/mount/Mount.guide.cpp:140-153 | stop on axis 1; axis 2 unchanged |
| MountGuide.Mount.StopGuideAxis2 | src/mount/Mount.guide.cpp:155-168 | stop on axis 2; axis 1 unchanged |
| MountGuide.Mount.PollGuides | src/mount/Mount.guide.cpp:170-188 | each axis is advanced by PollSpec from its own state, clock reading and slew status alone |
| GuideProperties.StartTwiceIsStartOnce | src/mount/Mount.guide.cpp:73 | after a successful start, the same action again succeeds and changes nothing, whatever else differs |
| GuideProperties.StopTwiceIsStopOnce | src/mount/Mount.guide.cpp:140-153 | a second stop is a no-op |
| GuideProperties.IdleHasNoOffsetKept | src/mount/Mount.guide.cpp:72-188 | start (any request), stop and poll keep "None implies rate 0" |
| GuideProperties.ConsistentKept | src/mount/Mount.guide.cpp:72-188 | stop, poll and any start not asking for Break keep "None or Break implies rate 0" |
| GuideProperties.IdleStaysIdle | src/mount/Mount.guide.cpp:170-188 | any run of polls leaves an idle axis unchanged |
| GuideProperties.BreakWaitsForSlew | src/mount/Mount.guide.cpp:172-177 | a Break axis stays unchanged over any run of polls during which the slew stays active |
| GuideProperties.NoTimeoutBeforeLimit | src/mount/Mount.guide.cpp:177 | a running guide with 0 < limit < 2^31 is unchanged by every run of polls taken before the limit has elapsed, across counter wrap |
| GuideProperties.TimeoutStopsGuide | src/mount/Mount.guide.cpp:177 | a poll whose elapsed time lies in [limit, limit + 2^31) stops the guide, leaving no guide running |
| GuideProperties.UnlimitedGuideStopsAtFirstPoll | src/mount/Mount.guide.cpp:99-101 | a guide started with limit 0 is stopped by a poll in the same millisecond or any later one within 2^31 - 1 ms |
| GuideProperties.SlewOverOffsetLeavesSlewRunning | src/mount/Mount.guide.cpp:91-97 | a slew started over an offset guide keeps the offset rate; the following stop goes straight to None without autoSlewStop; the axis then stays idle under any run of polls, and every poll of it makes no call |
| GuideProperties.StartBreakWedges | src/mount/Mount.guide.cpp:84-92 | an admitted start(Break) at up to 2x records Break with the nonzero rate; stop is then a no-op and no run of polls changes it |
| GuideProperties.StartBreakSlewWedges | src/mount/Mount.guide.cpp:84-97 | an admitted start(Break) above 2x records Break, keeps the rate and starts a forward slew; stop is then a no-op and no run of polls during which the slew stays active changes the axis |
| GuideProperties.StuckBreak | src/mount/Mount.guide.cpp:172-177 | a Break axis with a nonzero rate is unchanged by any run of polls |
| GuideProperties.OffsetGuideSession | src/mount/Mount.guide.cpp:72-153 | idle, healthy, forward at 1x: success with rate +1 and a tracking update; the same start again changes nothing; stop gives None with rate 0 |
| GuideProperties.SlewGuideSession | src/mount/Mount.guide.cpp:72-188 | idle, healthy, forward at 8x for 5000 ms: rate 0, slew at 8/240 deg/s, finish at start + 5000; a poll past the deadline gives Break with autoSlewStop; a poll after the slew ends gives None with a tracking update |

## Left out

- Debug output (`VF`, `VL`, `V`, `VLF`): serial logging with no effect on the state.
- The collaborators `updateTrackingRates`, `setFrequencyMax`, `autoSlew`, `autoSlewStop`: recorded as the calls a step makes, not executed; `autoSlewActive`, `anyError`, `motionError` and the axis driver and motor fault flags are boolean inputs.
- `updatePosition()` and `transform.equToHor()`: the limit checks read a snapshot of the position taken after them (hour angle, altitude, declination, pier side, axis 2 instrument coordinate).
- The HALF_MAX and MAX formulas and `degToRad`: floating-point step timing over values outside this file. The mount's maximum rate `(1000000 / usPerStepCurrent) / degToRad(axis 1 steps per measure)` is an input; HALF_MAX is modelled as exactly twice it, which the source's floating-point division also gives. The slew frequency is recorded as its argument `rate / 240` before `degToRad`.
- Floating point in general: rates are real numbers; IEEE rounding, infinities and NaN are not modelled.
- `millis()`: the clock reading is a parameter of each call, one per reading (`pollGuides` reads it once per axis).
- The `#if` build guards: the axis 2 tangent arm option is a boolean of the snapshot; the file-level guard for both drivers being present is assumed true.
- The enumeration values of the rate selectors and of the guide actions, and the default axis argument of the rate lookup, are declared in `Mount.h`, which is not part of this model: the selectors are taken in the order QUARTER = 0 through CUSTOM = 10, the guide actions in the order NONE < BREAK < FORWARD < REVERSE (which the comparisons against BREAK rely on), and the axis is an explicit parameter.
- Concurrency: there is none; all operations run on one cooperative control loop.
