/** An appliance that is on in an hour when an integer drawn from
    [0, probability) is 0, and then consumes a randomly drawn amount. Past the
    meter check the amount is drawn first, on every call; the integer is drawn
    after it, and that draw fails when the probability is below 1. The model
    receives the two draws as the parameters randomUnits and pick. */
module RandomVaries {
  import opened Wrappers
  import opened ApplianceBase
  import Meter

  /** Units one call adds: the drawn amount iff the drawn integer is 0. */
  function Consumption(randomUnits: real, pick: int): real
  {
    if pick == 0 then randomUnits else 0.0
  }

  /** Units added by calls whose draws are ds, in order. */
  function Total(ds: seq<Draw>): real
  {
    if ds == [] then 0.0 else Total(ds[..|ds| - 1]) + Consumption(ds[|ds| - 1].units, ds[|ds| - 1].pick)
  }

  function Amounts(ds: seq<Draw>): (us: seq<real>)
    ensures |us| == |ds|
    ensures forall i :: 0 <= i < |ds| ==> us[i] == ds[i].units
  {
    if ds == [] then [] else Amounts(ds[..|ds| - 1]) + [ds[|ds| - 1].units]
  }

  /** With probability 1 every integer draw is 0, so every drawn amount is added. */
  lemma {:induction false} AlwaysOn(ds: seq<Draw>)
    requires forall i :: 0 <= i < |ds| ==> 0 <= ds[i].pick < 1
    ensures Total(ds) == Meter.Sum(Amounts(ds))
  {
    if ds != [] {
      var front := ds[..|ds| - 1];
      AlwaysOn(front);
      assert Amounts(ds)[..|ds| - 1] == Amounts(front);
    }
  }

  /** Draws whose integer is never 0 add nothing, whatever the amounts. */
  lemma {:induction false} NeverOn(ds: seq<Draw>)
    requires forall i :: 0 <= i < |ds| ==> ds[i].pick != 0
    ensures Total(ds) == 0.0
  {
    if ds != [] {
      NeverOn(ds[..|ds| - 1]);
    }
  }

  class RandomVaries {
    const name: string
    const probability: int
    const minUnits: real
    const maxUnits: real
    var meter: Meter.Meter?
    /** The amounts drawn so far, one per call that got past the meter check. */
    ghost var amounts: seq<real>
    /** The integers drawn so far, one per call whose probability allowed the
        draw. */
    ghost var picks: seq<int>

    constructor (name: string, probability: int, minUnits: real, maxUnits: real)
      ensures this.name == name && this.probability == probability
      ensures this.minUnits == minUnits && this.maxUnits == maxUnits
      ensures meter == null && amounts == [] && picks == []
    {
      this.name := name;
      this.probability := probability;
      this.minUnits := minUnits;
      this.maxUnits := maxUnits;
      meter := null;
      amounts := [];
      picks := [];
    }

    method SetMeter(m: Meter.Meter)
      modifies this`meter
      ensures meter == m
    {
      meter := m;
    }

    /** One hour: fatal without a meter, before either draw. Otherwise the
        amount is drawn, and then the integer; that draw is fatal when the
        probability is below 1, since nextInt has nothing to draw from.
        randomUnits is added iff pick is 0. */
    method TimePasses(randomUnits: real, pick: int) returns (r: Outcome<ApplianceError>)
      requires meter != null && probability >= 1 ==> 0 <= pick < probability
      modifies this`amounts, this`picks, meter
      ensures meter == null ==> r == Fail(MeterNotSet(name)) && amounts == old(amounts) && picks == old(picks)
      ensures meter != null ==> amounts == old(amounts) + [randomUnits]
      ensures meter != null && probability < 1 ==> r == Fail(BoundNotPositive(name, probability)) && picks == old(picks)
      ensures meter != null && probability < 1 ==> meter.reading == old(meter.reading)
      ensures meter != null && probability >= 1 ==> r == Pass && picks == old(picks) + [pick]
      ensures meter != null && probability >= 1 ==> meter.reading == old(meter.reading) + Consumption(randomUnits, pick)
    {
      if meter == null {
        return Fail(MeterNotSet(name));
      }
      amounts := amounts + [randomUnits];
      if probability < 1 {
        return Fail(BoundNotPositive(name, probability));
      }
      picks := picks + [pick];

      if pick == 0 {
        meter.ConsumeUnits(randomUnits);
      }
      r := Pass;
    }
  }
}
