/** The House class: two meters and an ordered list of appliances, each
    bound to one of the meters. Its methods are proved against the value
    model of module Household. */
module House {
  import opened Wrappers
  import opened ApplianceBase
  import opened Appliance
  import opened Household
  import Meter
  import Battery
  import BatteryMeter

  /** The electric meter is a plain Meter or a BatteryMeter; the Java field
      has the static type Meter and report() dispatches dynamically. */
  datatype ElectricMeter = Plain(m: Meter.Meter) | Backed(bm: BatteryMeter.BatteryMeter)
  {
    /** The meter whose reading appliances feed. */
    function Base(): Meter.Meter
    {
      match this
      case Plain(m) => m
      case Backed(bm) => bm.meter
    }

    function Footprint(): (s: set<object>)
      ensures Base() in s
    {
      match this
      case Plain(m) => {m}
      case Backed(bm) => {bm.meter, bm.battery}
    }

    ghost function BatteryModel(): Option<Battery.BatteryState>
      reads Footprint()
    {
      match this
      case Plain(_) => None
      case Backed(bm) => Some(bm.battery.Model())
    }

    method Report() returns (cost: real)
      modifies Footprint()
      ensures (cost, Base().Model(), BatteryModel()) == ElectricReport(old(Base().Model()), old(BatteryModel()))
    {
      match this
      case Plain(m) => cost := m.Report();
      case Backed(bm) => cost := bm.Report();
    }
  }

  class House {
    const waterMeter: Meter.Meter
    const electricMeter: ElectricMeter
    var appliances: seq<Appliance>
    /** The objects of every appliance ever added. */
    ghost var objs: set<object>
    /** Each listed appliance's state and the side of the meter it is bound to. */
    ghost var values: map<Appliance, ApplianceValue>
    ghost var sides: map<Appliance, Side>

    function MeterFor(s: Side): Meter.Meter
    {
      match s
      case WaterSide => waterMeter
      case ElectricSide => electricMeter.Base()
    }

    /** The two meters are different objects, and every listed appliance is
        bound to one of them and described by values and sides. */
    ghost predicate Valid()
      reads this, objs
    {
      && waterMeter != electricMeter.Base()
      && waterMeter !in objs && electricMeter.Footprint() !! objs
      && forall a :: a in appliances ==>
           && a.Obj() in objs && a in values && a in sides
           && values[a] == a.Value() && a.MeterOf() == MeterFor(sides[a])
    }

    /** The meter objects the reports change. */
    function Meters(): set<object>
    {
      {waterMeter} + electricMeter.Footprint()
    }

    ghost function Model(): HouseState
      reads this, Meters()
    {
      HouseState(appliances, values, sides,
                 waterMeter.Model(), electricMeter.Base().Model(), electricMeter.BatteryModel())
    }

    /** House(): default plain meters and no appliances. */
    constructor ()
      ensures Valid() && fresh(waterMeter) && electricMeter.Plain? && fresh(electricMeter.Base())
      ensures Model() == HouseState([], map[], map[], Meter.MeterState("Water", 0.002, 0.0),
                                    Meter.MeterState("Electricity", 0.013, 0.0), None)
    {
      waterMeter := new Meter.Meter("Water", 0.002);
      var e := new Meter.Meter("Electricity", 0.013);
      electricMeter := Plain(e);
      appliances := [];
      objs := {};
      values := map[];
      sides := map[];
    }

    /** House(batteryMeter, waterMeter): the given meters and no appliances. */
    constructor WithMeters(batteryMeter: ElectricMeter, waterMeter: Meter.Meter)
      requires waterMeter != batteryMeter.Base()
      ensures Valid() && this.waterMeter == waterMeter && electricMeter == batteryMeter && appliances == []
      ensures values == map[] && sides == map[]
    {
      this.waterMeter := waterMeter;
      electricMeter := batteryMeter;
      appliances := [];
      objs := {};
      values := map[];
      sides := map[];
    }

    /** addWaterAppliance (s == WaterSide) and addElectricAppliance: append,
        then bind to the meter of that side. */
    method Add(a: Appliance, s: Side)
      requires Valid()
      modifies this`appliances, this`objs, this`values, this`sides, a.Obj()
      ensures Valid()
      ensures appliances == old(appliances) + [a] && a.MeterOf() == MeterFor(s)
      ensures objs == old(objs) + {a.Obj()}
      ensures Model() == Added(old(Model()), a, old(a.Value()), s)
    {
      appliances := appliances + [a];
      a.SetMeter(MeterFor(s));
      objs := objs + {a.Obj()};
      values := values[a := a.Value()];
      sides := sides[a := s];
      forall b | b in old(appliances) && b != a
        ensures b.Value() == old(b.Value()) && b.MeterOf() == old(b.MeterOf())
      {
        ObjInjective(a, b);
      }
      assert waterMeter.Model() == old(waterMeter.Model());
      assert electricMeter.Base().Model() == old(electricMeter.Base().Model());
      assert electricMeter.BatteryModel() == old(electricMeter.BatteryModel());
    }

    method AddWaterAppliance(a: Appliance)
      requires Valid()
      modifies this`appliances, this`objs, this`values, this`sides, a.Obj()
      ensures Valid()
      ensures appliances == old(appliances) + [a] && a.MeterOf() == waterMeter
      ensures objs == old(objs) + {a.Obj()}
      ensures Model() == Added(old(Model()), a, old(a.Value()), WaterSide)
    {
      Add(a, WaterSide);
    }

    method AddElectricAppliance(a: Appliance)
      requires Valid()
      modifies this`appliances, this`objs, this`values, this`sides, a.Obj()
      ensures Valid()
      ensures appliances == old(appliances) + [a] && a.MeterOf() == electricMeter.Base()
      ensures objs == old(objs) + {a.Obj()}
      ensures Model() == Added(old(Model()), a, old(a.Value()), ElectricSide)
    {
      Add(a, ElectricSide);
    }

    method RemoveAppliance(a: Appliance)
      requires Valid()
      modifies this`appliances
      ensures Valid()
      ensures appliances == RemoveFirst(old(appliances), a)
      ensures a in old(appliances) ==> NumAppliances() == old(NumAppliances()) - 1
      ensures a !in old(appliances) ==> appliances == old(appliances)
      ensures Model() == old(Model()).(list := RemoveFirst(old(Model()).list, a))
    {
      RemoveFirstSpec(appliances, a);
      appliances := RemoveFirst(appliances, a);
      forall b | b in appliances
        ensures b in old(appliances)
      {
        RemoveFirstSubset(old(appliances), a, b);
      }
    }

    /** numAppliances(): the length of the list; Add raises it by one and
        RemoveAppliance lowers it by one when the appliance is listed. */
    function NumAppliances(): nat
      reads this
    {
      |appliances|
    }

    /** The objects of the listed appliances, all that an hour may change
        besides the meters. */
    ghost function Listed(): set<object>
      reads this
    {
      set a | a in appliances :: a.Obj()
    }

    /** activate(): timePasses on every appliance in list order, then
        getTotalCost. A failing appliance ends the program in Java; here it
        ends the hour with its error. */
    method Activate(draws: seq<Draw>) returns (r: Result<real, ApplianceError>)
      requires Valid() && DrawsFit(appliances, draws)
      modifies this`values, Listed(), waterMeter, electricMeter.Footprint()
      ensures Valid() && appliances == old(appliances)
      ensures r.Err? <==> Hour(old(Model()), draws).Err?
      ensures r.Err? ==> r.error == Hour(old(Model()), draws).error
      ensures r.Ok? ==> r.value == Hour(old(Model()), draws).value.0 && Model() == Hour(old(Model()), draws).value.1
    {
      var o := StepAll(draws);
      if o.Fail? {
        return Err(o.error);
      }
      var cost := GetTotalCost();
      return Ok(cost);
    }

    /** The loop of activate(): timePasses on every appliance in list order,
        the first failure ending it. */
    method StepAll(draws: seq<Draw>) returns (o: Outcome<ApplianceError>)
      requires Valid() && DrawsFit(appliances, draws)
      modifies this`values, Listed(), waterMeter, electricMeter.Footprint()
      ensures Valid() && appliances == old(appliances)
      ensures o.Fail? ==> Advance(old(Model()), draws, |appliances|) == Err(o.error)
      ensures o.Pass? ==> Advance(old(Model()), draws, |appliances|) == Ok(Model())
    {
      ghost var start := Model();
      var i := 0;
      while i < |appliances|
        invariant 0 <= i <= |appliances| && appliances == start.list
        invariant Valid()
        invariant Advance(start, draws, i) == Ok(Model())
      {
        assert appliances[i].Obj() in Listed() && appliances[i].Fits(draws[i]);
        o := StepNext(start, draws, i);
        if o.Fail? {
          return;
        }
        i := i + 1;
      }
      return Pass;
    }

    /** One turn of activate()'s loop, after the first i appliances of an
        hour from start have stepped: a failure is the outcome of the hour. */
    method StepNext(ghost start: HouseState, draws: seq<Draw>, i: nat) returns (o: Outcome<ApplianceError>)
      requires Valid() && |draws| == |appliances| && i < |appliances| && appliances[i].Fits(draws[i])
      requires appliances == start.list
      requires Advance(start, draws, i) == Ok(Model())
      modifies this`values, appliances[i].Obj(), waterMeter, electricMeter.Footprint()
      ensures Valid() && appliances == old(appliances)
      ensures o.Fail? ==> Advance(start, draws, |start.list|) == Err(o.error)
      ensures o.Pass? ==> Advance(start, draws, i + 1) == Ok(Model())
    {
      ghost var before := Model();
      o := StepAppliance(i, draws[i]);
      AdvanceExtend(start, draws, i, before);
      if o.Fail? {
        AdvanceErrSticks(start, draws, i + 1, |appliances|);
      }
    }

    /** The body of activate()'s loop: timePasses on the i-th appliance. */
    method StepAppliance(i: nat, d: Draw) returns (o: Outcome<ApplianceError>)
      requires Valid() && i < |appliances| && appliances[i].Fits(d)
      modifies this`values, appliances[i].Obj(), waterMeter, electricMeter.Footprint()
      ensures Valid() && appliances == old(appliances)
      ensures o.Fail? <==> StepOne(old(Model()), appliances[i], d).Err?
      ensures o.Fail? ==> o.error == StepOne(old(Model()), appliances[i], d).error
      ensures o.Pass? ==> Model() == StepOne(old(Model()), appliances[i], d).value
    {
      var a := appliances[i];
      StepOneSpec(Model(), a, d);
      o := a.TimePasses(d);
      forall b | b in appliances && b != a
        ensures b.Value() == old(b.Value()) && b.MeterOf() == old(b.MeterOf())
      {
        ObjInjective(a, b);
      }
      if o.Fail? {
        return;
      }
      values := values[a := a.Value()];
      assert electricMeter.BatteryModel() == old(electricMeter.BatteryModel());
      if sides[a] == WaterSide {
        assert electricMeter.Base().Model() == old(electricMeter.Base().Model());
      } else {
        assert waterMeter.Model() == old(waterMeter.Model());
      }
    }

    /** getTotalCost(): each meter reports once, water first. Java prints a
        separator line at a different place for a BatteryMeter; the order of
        the two reports is the same on both branches. */
    method GetTotalCost() returns (cost: real)
      requires Valid()
      modifies waterMeter, electricMeter.Footprint()
      ensures Valid()
      ensures (cost, Model()) == ReportAll(old(Model()))
    {
      var w := waterMeter.Report();
      var e := electricMeter.Report();
      cost := w + e;
    }

    /** The clock at the head of activate(hours)'s loop: hour 24 rolls over
        to hour 1 of the next day, and the new clock is printed. */
    static method NextLabel(currentHour: int, currentDay: int, labels: seq<Clock>, ghost hour: nat)
      returns (nextHour: int, nextDay: int, printed: seq<Clock>)
      requires Clock(currentHour, currentDay) == Clocks(hour) && labels == ClockLabels(hour)
      ensures Clock(nextHour, nextDay) == Clocks(hour + 1) && printed == ClockLabels(hour + 1)
    {
      if currentHour != 24 {
        nextHour, nextDay := currentHour + 1, currentDay;
      } else {
        nextHour, nextDay := 1, currentDay + 1;
      }
      printed := labels + [Clock(nextHour, nextDay)];
    }

    /** `totalCost += activate()` in activate(hours): the next hour of a run
        from start, its cost added to the costs of the hours before it. */
    method Tally(ghost start: HouseState, hourly: seq<seq<Draw>>, hour: nat, totalCost: real)
      returns (r: Result<real, ApplianceError>)
      requires Valid() && hour < |hourly| && DrawsFor(start, hourly) && DrawsFit(appliances, hourly[hour])
      requires Run(start, hourly[..hour]) == Ok((totalCost, Model()))
      modifies this`values, Listed(), waterMeter, electricMeter.Footprint()
      ensures Valid() && appliances == old(appliances)
      ensures r.Err? ==> Run(start, hourly) == Err(r.error)
      ensures r.Ok? ==> Run(start, hourly[..hour + 1]) == Ok((r.value, Model()))
    {
      ghost var before := Model();
      var cost := Activate(hourly[hour]);
      RunTally(start, hourly, hour, totalCost, before, cost, Model());
      if cost.Err? {
        return Err(cost.error);
      }
      r := Ok(totalCost + cost.value);
    }

    /** activate(hours): hours <= 0 runs no hour. Each hour is labelled with
        the clock the Java loop prints, then activated; the costs are summed. */
    method ActivateFor(hours: int, hourly: seq<seq<Draw>>) returns (r: Result<real, ApplianceError>, labels: seq<Clock>)
      requires Valid()
      requires |hourly| == (if hours > 0 then hours else 0)
      requires forall k :: 0 <= k < |hourly| ==> DrawsFit(appliances, hourly[k])
      requires DrawsFor(Model(), hourly)
      modifies this`values, Listed(), waterMeter, electricMeter.Footprint()
      ensures Valid() && appliances == old(appliances)
      ensures r.Err? <==> Run(old(Model()), hourly).Err?
      ensures r.Err? ==> r.error == Run(old(Model()), hourly).error
      ensures r.Ok? ==> r.value == Run(old(Model()), hourly).value.0 && Model() == Run(old(Model()), hourly).value.1
      ensures |labels| <= |hourly| && (r.Ok? ==> |labels| == |hourly|)
      ensures labels == ClockLabels(|labels|)
    {
      ghost var start := Model();
      var totalCost := 0.0;
      var currentHour := 0;
      var currentDay := 1;
      labels := [];
      var hour := 0;
      while hour < hours
        invariant 0 <= hour <= |hourly|
        invariant Valid() && appliances == start.list
        invariant forall k :: 0 <= k < |hourly| ==> DrawsFit(start.list, hourly[k])
        invariant Run(start, hourly[..hour]) == Ok((totalCost, Model()))
        invariant Clock(currentHour, currentDay) == Clocks(hour)
        invariant labels == ClockLabels(hour)
      {
        currentHour, currentDay, labels := NextLabel(currentHour, currentDay, labels, hour);
        var sum := Tally(start, hourly, hour, totalCost);
        if sum.Err? {
          return sum, labels;
        }
        totalCost := sum.value;
        hour := hour + 1;
      }
      assert hourly[..hour] == hourly;
      r := Ok(totalCost);
    }
  }
}
