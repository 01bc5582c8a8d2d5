/** Enumerations shared by the guide controller. */
module GuideTypes {

  /** A per-axis guide action. The declaration order None < Break < Forward < Reverse is
      the order the controller compares against: Break means "stop requested, slew still
      decelerating"; only the two actions after it are actively guiding. */
  datatype GuideAction = None | Break | Forward | Reverse
  {
    function Ordinal(): nat
    {
      match this
      case None => 0
      case Break => 1
      case Forward => 2
      case Reverse => 3
    }

    /** `action > GA_BREAK`. */
    function IsGuiding(): (r: bool)
      ensures r <==> this == Forward || this == Reverse
    {
      Ordinal() > GuideAction.Break.Ordinal()
    }
  }

  /** The command errors a start can return; NoError is CE_NONE. */
  datatype CommandError = NoError | HardwareFault | InPark | InMotion | OutsideLimits
}
