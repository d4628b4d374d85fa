/** A meter for one utility: appliances add signed units to its reading, and
    report() turns the reading into a cost and resets it. */
module Meter {

  /** The value of a meter: utility name, cost of one unit, current reading. */
  datatype MeterState = MeterState(utility: string, unitCost: real, reading: real)

  /** Sum of a sequence of unit amounts, in order. */
  function Sum(us: seq<real>): real
  {
    if us == [] then 0.0 else Sum(us[..|us| - 1]) + us[|us| - 1]
  }

  /** The meter after consumeUnits has been called with each of us, in order. */
  function Consumed(m: MeterState, us: seq<real>): MeterState
  {
    if us == [] then m else Consumed(m, us[..|us| - 1]).(reading := Consumed(m, us[..|us| - 1]).reading + us[|us| - 1])
  }

  /** report(): the cost of the reading (not clamped at zero) and the reset meter. */
  function ReportOf(m: MeterState): (r: (real, MeterState))
    ensures r.1.utility == m.utility && r.1.unitCost == m.unitCost && r.1.reading == 0.0
    ensures m.reading == 0.0 ==> r.0 == 0.0
    ensures m.unitCost > 0.0 ==> (r.0 < 0.0 <==> m.reading < 0.0)
  {
    (m.unitCost * m.reading, m.(reading := 0.0))
  }

  /** Consuming u1..un adds exactly their sum and changes nothing else. */
  lemma {:induction false} ConsumedAddsSum(m: MeterState, us: seq<real>)
    ensures Consumed(m, us) == m.(reading := m.reading + Sum(us))
  {
    if us != [] {
      ConsumedAddsSum(m, us[..|us| - 1]);
    }
  }

  /** From a zero reading, report() after consuming u1..un costs unitCost times their sum. */
  lemma ReportAfterConsumes(m: MeterState, us: seq<real>)
    requires m.reading == 0.0
    ensures ReportOf(Consumed(m, us)).0 == m.unitCost * Sum(us)
  {
    ConsumedAddsSum(m, us);
  }

  /** Two reports with nothing in between: the second costs nothing. */
  lemma SecondReportIsFree(m: MeterState)
    ensures ReportOf(ReportOf(m).1).0 == 0.0
  {
  }

  class Meter {
    const utility: string
    const unitCost: real
    var reading: real

    ghost function Model(): MeterState
      reads this
    {
      MeterState(utility, unitCost, reading)
    }

    constructor (utility: string, unitCost: real)
      ensures this.utility == utility && this.unitCost == unitCost
      ensures reading == 0.0
    {
      this.utility := utility;
      this.unitCost := unitCost;
      reading := 0.0;
    }

    function GetMeterReading(): (r: real)
      reads this
      ensures r == Model().reading
    {
      reading
    }

    method SetMeterReading(value: real)
      modifies this`reading
      ensures reading == value
    {
      reading := value;
    }

    method ConsumeUnits(units: real)
      modifies this`reading
      ensures reading == old(reading) + units
    {
      reading := reading + units;
    }

    method Report() returns (cost: real)
      modifies this`reading
      ensures (cost, Model()) == ReportOf(old(Model()))
    {
      cost := unitCost * reading;
      reading := 0.0;
    }
  }
}
