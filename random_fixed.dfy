/** An appliance that is on in an hour when an integer drawn from
    [0, probability) is 0, and then consumes a fixed amount. It has no hour
    counter: nothing about it changes from call to call. */
module RandomFixed {
  import opened Wrappers
  import opened ApplianceBase
  import Meter

  /** Units one call adds for the drawn integer. */
  function Consumption(unitsFixed: real, pick: int): real
  {
    if pick == 0 then unitsFixed else 0.0
  }

  /** Units added by calls whose draws are picks, in order. */
  function Total(unitsFixed: real, picks: seq<int>): real
  {
    if picks == [] then 0.0
    else Total(unitsFixed, picks[..|picks| - 1]) + Consumption(unitsFixed, picks[|picks| - 1])
  }

  /** The number of draws that switch the appliance on. */
  function Hits(picks: seq<int>): (n: nat)
    ensures n <= |picks|
  {
    if picks == [] then 0 else Hits(picks[..|picks| - 1]) + (if picks[|picks| - 1] == 0 then 1 else 0)
  }

  /** The calls consume unitsFixed once per draw that is 0. */
  lemma {:induction false} TotalCountsHits(unitsFixed: real, picks: seq<int>)
    ensures Total(unitsFixed, picks) == Hits(picks) as real * unitsFixed
  {
    if picks != [] {
      TotalCountsHits(unitsFixed, picks[..|picks| - 1]);
      var h := Hits(picks[..|picks| - 1]);
      assert (h + 1) as real * unitsFixed == h as real * unitsFixed + unitsFixed;
    }
  }

  /** With probability 1 every draw from [0, 1) is 0, so every call consumes. */
  lemma {:induction false} AlwaysOn(unitsFixed: real, picks: seq<int>)
    requires forall i :: 0 <= i < |picks| ==> 0 <= picks[i] < 1
    ensures Hits(picks) == |picks|
    ensures Total(unitsFixed, picks) == |picks| as real * unitsFixed
  {
    if picks != [] {
      AlwaysOn(unitsFixed, picks[..|picks| - 1]);
    }
    TotalCountsHits(unitsFixed, picks);
  }

  class RandomFixed {
    const name: string
    const unitsFixed: real
    const probability: int
    var meter: Meter.Meter?
    /** The integers drawn so far, one per call that got past the meter check. */
    ghost var drawn: seq<int>

    /** The probability is stored unchecked. */
    constructor (name: string, unitsFixed: real, probability: int)
      ensures this.name == name && this.unitsFixed == unitsFixed && this.probability == probability
      ensures meter == null && drawn == []
    {
      this.name := name;
      this.unitsFixed := unitsFixed;
      this.probability := probability;
      meter := null;
      drawn := [];
    }

    method SetMeter(m: Meter.Meter)
      modifies this`meter
      ensures meter == m
    {
      meter := m;
    }

    /** One hour: fatal without a meter, before the draw; otherwise `pick`, an
        integer drawn from [0, probability), switches the appliance on iff it is 0.
        A probability below 1 has nothing to draw from and is fatal too. */
    method TimePasses(pick: int) returns (r: Outcome<ApplianceError>)
      requires meter != null && probability >= 1 ==> 0 <= pick < probability
      modifies this`drawn, meter
      ensures meter == null ==> r == Fail(MeterNotSet(name)) && drawn == old(drawn)
      ensures meter != null && probability < 1 ==> r == Fail(BoundNotPositive(name, probability)) && drawn == old(drawn)
      ensures meter != null && probability < 1 ==> meter.reading == old(meter.reading)
      ensures meter != null && probability >= 1 ==> r == Pass && drawn == old(drawn) + [pick]
      ensures meter != null && probability >= 1 ==> meter.reading == old(meter.reading) + Consumption(unitsFixed, pick)
    {
      if meter == null {
        return Fail(MeterNotSet(name));
      }
      if probability < 1 {
        return Fail(BoundNotPositive(name, probability));
      }
      drawn := drawn + [pick];

      if pick == 0 {
        meter.ConsumeUnits(unitsFixed);
      }
      r := Pass;
    }
  }
}
