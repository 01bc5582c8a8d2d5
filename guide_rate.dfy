/** The guide-rate table: a symbolic rate selector to a multiple of the sidereal rate. */
module GuideRate {

  /** The guide-rate selectors in their enumeration order (QUARTER = 0 ... CUSTOM = 10);
      `Unlisted` stands for any other value the enumeration variable may hold. */
  datatype GuideRateSelect =
    | Quarter | Half | Times1 | Times2 | Times4 | Times8 | Times20 | Times48
    | HalfMax | Max | Custom
    | Unlisted(code: int)
  {
    /** The selector's numeric value, which the start checks compare against 3. */
    function Code(): int
    {
      match this
      case Quarter => 0
      case Half => 1
      case Times1 => 2
      case Times2 => 3
      case Times4 => 4
      case Times8 => 5
      case Times20 => 6
      case Times48 => 7
      case HalfMax => 8
      case Max => 9
      case Custom => 10
      case Unlisted(c) => c
    }
  }

  /** A selector value: an unlisted code is one that no named selector has. */
  type RateSelect = s: GuideRateSelect | !s.Unlisted? || s.code < 0 || 10 < s.code
    witness Quarter

  /** The fixed multiples of the selectors QUARTER ... 48X, indexed by selector code. */
  const FixedRates: seq<real> := [0.25, 0.5, 1.0, 2.0, 4.0, 8.0, 20.0, 48.0]

  /** Rate, as a multiple of sidereal, for a selector on `axis`. `maxRate` is the mount's
      maximum rate (1000000 / usPerStepCurrent) / degToRad(axis 1 steps per measure),
      which both HALF_MAX and MAX derive from axis 1 whatever axis is asked about. */
  function GuideRateSelectToRate(select: RateSelect, axis: int, maxRate: real): (r: real)
    ensures 0 <= select.Code() < |FixedRates| ==> r == FixedRates[select.Code()]
    ensures select == HalfMax ==> r == 2.0 * maxRate
    ensures select == Max ==> r == maxRate
    ensures select == Custom ==> r == (if axis == 1 || axis == 2 then 48.0 else 0.0)
    ensures select.Unlisted? ==> r == 0.0
    // selectors QUARTER ... 2X guide by a tracking offset, 4X ... 48X by an automatic slew
    ensures 0 <= select.Code() <= 3 ==> 0.0 < r <= 2.0
    ensures 4 <= select.Code() <= 7 ==> r > 2.0
    // the tiers that are checked for mount and motion errors all offset tracking
    ensures select.Code() < 3 ==> r <= 1.0
  {
    match select
    case Quarter => 0.25
    case Half => 0.5
    case Times1 => 1.0
    case Times2 => 2.0
    case Times4 => 4.0
    case Times8 => 8.0
    case Times20 => 20.0
    case Times48 => 48.0
    case HalfMax => 2.0 * maxRate
    case Max => maxRate
    case Custom => if axis == 1 then 48.0 else if axis == 2 then 48.0 else 0.0
    case Unlisted(_) => 0.0
  }
}
