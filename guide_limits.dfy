/** Directional limit checks for a guide on each axis, over a snapshot of the mount's
    position taken after the position refresh (and, for axis 2, the horizon transform). */
module GuideLimits {
  import opened GuideTypes

  datatype PierSide = PierNone | East | West

  /** Only the alt-azimuth geometry is told apart by the checks. */
  datatype MountType = Gem | Fork | AltAzm

  /** The configured limits, in the units of the coordinates they bound. */
  datatype Limits = Limits(
    axis1Min: real, axis1Max: real,
    axis2Min: real, axis2Max: real,
    pastMeridianE: real, pastMeridianW: real,
    altitudeMin: real, altitudeMax: real)

  /** Current position: hour angle, altitude, declination, pier side, and the axis 2
      instrument coordinate used by a tangent-arm axis 2. */
  datatype Position = Position(h: real, a: real, d: real, pierSide: PierSide, axis2Instrument: real)

  /** Everything the checks read. `meridianFlipNever` is `meridianFlip == MF_NEVER`;
      `tangentArm` is the AXIS2_TANGENT_ARM build option. */
  datatype Snapshot = Snapshot(
    limitsEnabled: bool,
    meridianFlipNever: bool,
    mountType: MountType,
    tangentArm: bool,
    limits: Limits,
    current: Position)

  /** May axis 1 guide in direction `action`? */
  function ValidGuideAxis1(m: Snapshot, action: GuideAction): (ok: bool)
    ensures !m.limitsEnabled ==> ok
    ensures !action.IsGuiding() ==> ok
    ensures m.limitsEnabled && action == Forward && m.current.h < m.limits.axis1Min ==> !ok
    ensures m.limitsEnabled && action == Reverse && m.current.h > m.limits.axis1Max ==> !ok
  {
    if !m.limitsEnabled then true
    else if action == Forward then
      !(!m.meridianFlipNever && m.current.pierSide == East && m.current.h < -m.limits.pastMeridianE)
      && !(m.current.h < m.limits.axis1Min)
    else if action == Reverse then
      !(!m.meridianFlipNever && m.current.pierSide == West && m.current.h > m.limits.pastMeridianW)
      && !(m.current.h > m.limits.axis1Max)
    else true
  }

  /** The coordinate axis 2 is limited on: the instrument coordinate on a tangent arm,
      otherwise altitude on an alt-azimuth mount and declination on any other. */
  function Axis2Coordinate(m: Snapshot): (a2: real)
    ensures m.tangentArm ==> a2 == m.current.axis2Instrument
    ensures !m.tangentArm && m.mountType == AltAzm ==> a2 == m.current.a
    ensures !m.tangentArm && m.mountType != AltAzm ==> a2 == m.current.d
  {
    if m.tangentArm then m.current.axis2Instrument
    else if m.mountType == AltAzm then m.current.a
    else m.current.d
  }

  /** May axis 2 guide in direction `action`? */
  function ValidGuideAxis2(m: Snapshot, action: GuideAction): (ok: bool)
    ensures !m.limitsEnabled ==> ok
    ensures !action.IsGuiding() ==> ok
    ensures (m.limitsEnabled && action == Forward && m.mountType == AltAzm
             && m.current.a > m.limits.altitudeMax) ==> !ok
    ensures (m.limitsEnabled && action == Reverse && m.mountType == AltAzm
             && m.current.a < m.limits.altitudeMin) ==> !ok
    ensures m.limitsEnabled && m.current.pierSide == PierNone && m.mountType != AltAzm ==> ok
  {
    if !m.limitsEnabled then true
    else
      var a2 := Axis2Coordinate(m);
      if action == Forward then
        !(a2 < m.limits.axis2Min && m.current.pierSide == West)
        && !(a2 > m.limits.axis2Max && m.current.pierSide == East)
        && !(m.mountType == AltAzm && m.current.a > m.limits.altitudeMax)
      else if action == Reverse then
        !(a2 < m.limits.axis2Min && m.current.pierSide == East)
        && !(a2 > m.limits.axis2Max && m.current.pierSide == West)
        && !(m.mountType == AltAzm && m.current.a < m.limits.altitudeMin)
      else true
  }

  function OppositeSide(p: PierSide): (q: PierSide)
    ensures (p == East <==> q == West) && (p == West <==> q == East)
  {
    match p
    case PierNone => PierNone
    case East => West
    case West => East
  }

  /** The snapshot seen through a mirror across the meridian for axis 1: hour angle negated,
      pier side swapped, the axis 1 limits and the past-meridian allowances exchanged. */
  function MirrorAxis1(m: Snapshot): Snapshot
  {
    m.(current := m.current.(h := -m.current.h, pierSide := OppositeSide(m.current.pierSide)),
       limits := m.limits.(axis1Min := -m.limits.axis1Max, axis1Max := -m.limits.axis1Min,
                           pastMeridianE := m.limits.pastMeridianW,
                           pastMeridianW := m.limits.pastMeridianE))
  }

  /** The axis 1 checks are symmetric: reverse on one side of the meridian is forward on
      the mirrored mount, and the other way round. */
  lemma Axis1DirectionsMirror(m: Snapshot)
    ensures ValidGuideAxis1(MirrorAxis1(m), Forward) == ValidGuideAxis1(m, Reverse)
    ensures ValidGuideAxis1(MirrorAxis1(m), Reverse) == ValidGuideAxis1(m, Forward)
  {
  }

  /** The snapshot mirrored for axis 2: pier side swapped, altitude negated with its limits
      exchanged; the axis 2 coordinate itself is kept. */
  function MirrorAxis2(m: Snapshot): Snapshot
  {
    m.(current := m.current.(a := -m.current.a, pierSide := OppositeSide(m.current.pierSide)),
       limits := m.limits.(altitudeMin := -m.limits.altitudeMax, altitudeMax := -m.limits.altitudeMin))
  }

  /** On axis 2 the pier side decides which limit a direction runs into: whenever the axis 2
      coordinate is not the altitude itself, reverse is forward on the other pier side. */
  lemma Axis2DirectionsMirror(m: Snapshot)
    requires m.tangentArm || m.mountType != AltAzm
    ensures ValidGuideAxis2(MirrorAxis2(m), Forward) == ValidGuideAxis2(m, Reverse)
    ensures ValidGuideAxis2(MirrorAxis2(m), Reverse) == ValidGuideAxis2(m, Forward)
  {
  }

  /** Forward on axis 1 is refused exactly below the axis minimum, or, when the mount may
      flip, on the east side of the pier below the negated past-meridian allowance. */
  lemma Axis1ForwardRefusedIff(m: Snapshot)
    requires m.limitsEnabled
    ensures !ValidGuideAxis1(m, Forward) <==>
      m.current.h < m.limits.axis1Min
      || (!m.meridianFlipNever && m.current.pierSide == East && m.current.h < -m.limits.pastMeridianE)
  {
  }

  /** Reverse on axis 1 is refused exactly above the axis maximum, or, when the mount may
      flip, on the west side of the pier above the past-meridian allowance. */
  lemma Axis1ReverseRefusedIff(m: Snapshot)
    requires m.limitsEnabled
    ensures !ValidGuideAxis1(m, Reverse) <==>
      m.current.h > m.limits.axis1Max
      || (!m.meridianFlipNever && m.current.pierSide == West && m.current.h > m.limits.pastMeridianW)
  {
  }

  /** Forward on axis 2 is refused exactly below the axis minimum on the west side of the
      pier, above the axis maximum on the east side, or, on an alt-azimuth mount, above the
      altitude maximum. */
  lemma Axis2ForwardRefusedIff(m: Snapshot)
    requires m.limitsEnabled
    ensures !ValidGuideAxis2(m, Forward) <==>
      (Axis2Coordinate(m) < m.limits.axis2Min && m.current.pierSide == West)
      || (Axis2Coordinate(m) > m.limits.axis2Max && m.current.pierSide == East)
      || (m.mountType == AltAzm && m.current.a > m.limits.altitudeMax)
  {
  }

  /** Reverse on axis 2 mirrors forward: the pier sides are swapped and the altitude
      minimum is checked instead of the maximum. */
  lemma Axis2ReverseRefusedIff(m: Snapshot)
    requires m.limitsEnabled
    ensures !ValidGuideAxis2(m, Reverse) <==>
      (Axis2Coordinate(m) < m.limits.axis2Min && m.current.pierSide == East)
      || (Axis2Coordinate(m) > m.limits.axis2Max && m.current.pierSide == West)
      || (m.mountType == AltAzm && m.current.a < m.limits.altitudeMin)
  {
  }
}
