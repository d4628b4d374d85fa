/** The four appliance kinds seen through their common base class: the House
    keeps them in one list and calls timePasses on each without knowing the
    kind. With no traits in the model, an Appliance is a tagged handle on one
    object of one of the four classes, and its state is read off as a value. */
module Appliance {
  import opened Wrappers
  import opened ApplianceBase
  import opened HourCounter
  import Meter
  import CyclicFixed
  import CyclicVaries
  import RandomFixed
  import RandomVaries

  /** What an appliance's timePasses depends on and changes, apart from its meter. */
  datatype ApplianceValue =
    | CyclicFixedValue(name: string, unitsFixed: real, cycleLength: int, currentTime: int)
    | CyclicVariesValue(name: string, cycleLength: int, currentTime: int)
    | RandomFixedValue(name: string, unitsFixed: real, probability: int)
    | RandomVariesValue(name: string, probability: int)

  /** The state after one hour and the units it added to the bound meter. */
  datatype Stepped = Stepped(value: ApplianceValue, delta: real)

  /** Whether v and w are the same appliance at possibly different hours. */
  predicate SameConstants(v: ApplianceValue, w: ApplianceValue)
  {
    match v
    case CyclicFixedValue(n, u, c, _) => w.CyclicFixedValue? && w.name == n && w.unitsFixed == u && w.cycleLength == c
    case CyclicVariesValue(n, c, _) => w.CyclicVariesValue? && w.name == n && w.cycleLength == c
    case _ => w == v
  }

  /** Whether the draws d are ones the appliance's random source can return:
      the integer draw lies in [0, probability) whenever that range is not
      empty. The cyclic kinds draw no integer. */
  predicate DrawFits(v: ApplianceValue, d: Draw)
  {
    match v
    case RandomFixedValue(_, _, p) => p >= 1 ==> 0 <= d.pick < p
    case RandomVariesValue(_, p) => p >= 1 ==> 0 <= d.pick < p
    case _ => true
  }

  /** One hour of a bound appliance, for any of the four kinds. */
  function Step(v: ApplianceValue, d: Draw): (r: Result<Stepped, ApplianceError>)
    ensures r.Err? <==> (v.RandomFixedValue? || v.RandomVariesValue?) && v.probability < 1
    ensures r.Err? ==> r.error == BoundNotPositive(v.name, v.probability)
    ensures r.Ok? ==> SameConstants(v, r.value.value)
    ensures r.Ok? && (v.CyclicFixedValue? || v.CyclicVariesValue?) ==> r.value.value.currentTime == Tick(v.currentTime)
    ensures r.Ok? && (v.RandomFixedValue? || v.RandomVariesValue?) ==> r.value.value == v
    ensures r.Ok? && d.pick != 0 && (v.RandomFixedValue? || v.RandomVariesValue?) ==> r.value.delta == 0.0
  {
    match v
    case CyclicFixedValue(n, u, c, t) =>
      Ok(Stepped(CyclicFixedValue(n, u, c, Tick(t)), CyclicFixed.Consumption(u, c, Tick(t))))
    case CyclicVariesValue(n, c, t) =>
      Ok(Stepped(CyclicVariesValue(n, c, Tick(t)), CyclicVaries.Consumption(c, Tick(t), d.units)))
    case RandomFixedValue(n, u, p) =>
      if p < 1 then Err(BoundNotPositive(n, p)) else Ok(Stepped(v, RandomFixed.Consumption(u, d.pick)))
    case RandomVariesValue(n, p) =>
      if p < 1 then Err(BoundNotPositive(n, p)) else Ok(Stepped(v, RandomVaries.Consumption(d.units, d.pick)))
  }

  /** An appliance whose cycle length was rejected never adds anything,
      whatever the hour and the draws. */
  lemma RejectedCycleAddsNothing(v: ApplianceValue, d: Draw)
    requires (v.CyclicFixedValue? || v.CyclicVariesValue?) && v.cycleLength == 0
    requires 0 <= v.currentTime <= 24
    ensures Step(v, d).Ok? && Step(v, d).value.delta == 0.0
  {
  }

  datatype Appliance =
    | CF(cf: CyclicFixed.CyclicFixed)
    | CV(cv: CyclicVaries.CyclicVaries)
    | RF(rf: RandomFixed.RandomFixed)
    | RV(rv: RandomVaries.RandomVaries)
  {
    /** The object behind the handle, the whole of what timePasses may change
        apart from the meter. */
    function Obj(): object
    {
      match this
      case CF(a) => a
      case CV(a) => a
      case RF(a) => a
      case RV(a) => a
    }

    function Name(): string
    {
      match this
      case CF(a) => a.name
      case CV(a) => a.name
      case RF(a) => a.name
      case RV(a) => a.name
    }

    function MeterOf(): Meter.Meter?
      reads Obj()
    {
      match this
      case CF(a) => a.meter
      case CV(a) => a.meter
      case RF(a) => a.meter
      case RV(a) => a.meter
    }

    function Value(): (v: ApplianceValue)
      reads Obj()
      ensures v.name == Name()
    {
      match this
      case CF(a) => CyclicFixedValue(a.name, a.unitsFixed, a.cycleLength, a.currentTime)
      case CV(a) => CyclicVariesValue(a.name, a.cycleLength, a.currentTime)
      case RF(a) => RandomFixedValue(a.name, a.unitsFixed, a.probability)
      case RV(a) => RandomVariesValue(a.name, a.probability)
    }

    /** Whether d suits this appliance; it depends on constant fields only. */
    predicate Fits(d: Draw)
    {
      match this
      case CF(_) => true
      case CV(_) => true
      case RF(a) => a.probability >= 1 ==> 0 <= d.pick < a.probability
      case RV(a) => a.probability >= 1 ==> 0 <= d.pick < a.probability
    }

    lemma FitsValue(d: Draw)
      ensures Fits(d) <==> DrawFits(Value(), d)
    {
    }

    /** setMeter: rebinding changes the meter handle and nothing the hour depends on. */
    method SetMeter(m: Meter.Meter)
      modifies Obj()
      ensures MeterOf() == m && Value() == old(Value())
    {
      match this
      case CF(a) => a.SetMeter(m);
      case CV(a) => a.SetMeter(m);
      case RF(a) => a.SetMeter(m);
      case RV(a) => a.SetMeter(m);
    }

    /** timePasses of whichever kind this is: the meter check first, then the
        kind's own step, its delta added to the bound meter. */
    method TimePasses(d: Draw) returns (r: Outcome<ApplianceError>)
      requires MeterOf() != null ==> Fits(d)
      modifies Obj(), MeterOf()
      ensures MeterOf() == old(MeterOf())
      ensures MeterOf() == null ==> r == Fail(MeterNotSet(Name())) && Value() == old(Value())
      ensures MeterOf() != null && Step(old(Value()), d).Err? ==>
        r == Fail(Step(old(Value()), d).error) && Value() == old(Value()) && MeterOf().reading == old(MeterOf().reading)
      ensures MeterOf() != null && Step(old(Value()), d).Ok? ==>
        r == Pass && Value() == Step(old(Value()), d).value.value &&
        MeterOf().reading == old(MeterOf().reading) + Step(old(Value()), d).value.delta
    {
      match this
      case CF(a) => r := a.TimePasses();
      case CV(a) => r := a.TimePasses(d.units);
      case RF(a) => r := a.TimePasses(d.pick);
      case RV(a) => r := a.TimePasses(d.units, d.pick);
    }
  }

  /** Distinct handles are distinct objects, so stepping one appliance leaves
      every other appliance's state alone. */
  lemma ObjInjective(a: Appliance, b: Appliance)
    requires a != b
    ensures a.Obj() != b.Obj()
  {
  }
}
