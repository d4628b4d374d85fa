/** The House as a value: its appliance list, each listed appliance's state
    and the meter it is bound to, and the two meters (and the battery behind
    the electric one, if any). Appliances are keyed by identity, so an
    appliance added twice has one state and is stepped twice an hour, as in
    the ArrayList of the Java class. */
module Household {
  import opened Wrappers
  import opened ApplianceBase
  import opened Appliance
  import opened Meter
  import opened Battery
  import opened BatteryMeter
  import opened HourCounter

  datatype Side = WaterSide | ElectricSide

  datatype HouseState = HouseState(
    list: seq<Appliance>,
    value: map<Appliance, ApplianceValue>,
    side: map<Appliance, Side>,
    water: MeterState,
    electric: MeterState,
    battery: Option<BatteryState>)

  /** Every listed appliance has a state and a side. */
  predicate Complete(h: HouseState)
  {
    forall i :: 0 <= i < |h.list| ==> h.list[i] in h.value && h.list[i] in h.side
  }

  predicate Distinct<T(==)>(s: seq<T>)
  {
    forall i, j :: 0 <= i < j < |s| ==> s[i] != s[j]
  }

  /** g differs from h at most in appliance states (each the same appliance,
      a later hour), meter readings and battery level. */
  predicate Unmoved(h: HouseState, g: HouseState)
  {
    && g.list == h.list && g.side == h.side && g.value.Keys == h.value.Keys
    && (forall a :: a in h.value ==> SameConstants(h.value[a], g.value[a]))
    && g.water.utility == h.water.utility && g.water.unitCost == h.water.unitCost
    && g.electric.utility == h.electric.utility && g.electric.unitCost == h.electric.unitCost
    && g.battery.Some? == h.battery.Some?
  }

  /** Whether the appliance's step cannot fail. */
  predicate CanStep(v: ApplianceValue)
  {
    !((v.RandomFixedValue? || v.RandomVariesValue?) && v.probability < 1)
  }

  lemma SameConstantsCanStep(v: ApplianceValue, w: ApplianceValue)
    requires SameConstants(v, w)
    ensures CanStep(v) == CanStep(w)
    ensures !CanStep(v) ==> v == w
  {
  }

  /** Adds delta to the reading of the meter on the given side. */
  function Feed(h: HouseState, s: Side, delta: real): (g: HouseState)
    ensures g.list == h.list && g.value == h.value && g.side == h.side && g.battery == h.battery
    ensures s == WaterSide ==> g.water == h.water.(reading := h.water.reading + delta) && g.electric == h.electric
    ensures s == ElectricSide ==> g.electric == h.electric.(reading := h.electric.reading + delta) && g.water == h.water
  {
    match s
    case WaterSide => h.(water := h.water.(reading := h.water.reading + delta))
    case ElectricSide => h.(electric := h.electric.(reading := h.electric.reading + delta))
  }

  /** timePasses on one appliance: its state steps and its delta goes to the
      meter it is bound to. An appliance the state does not know is left alone. */
  function StepOne(h: HouseState, a: Appliance, d: Draw): (r: Result<HouseState, ApplianceError>)
    ensures r.Ok? ==> r.value.list == h.list && r.value.side == h.side && r.value.battery == h.battery
  {
    if a !in h.value || a !in h.side then Ok(h)
    else
      match Step(h.value[a], d)
      case Err(e) => Err(e)
      case Ok(s) => Ok(Feed(h.(value := h.value[a := s.value]), h.side[a], s.delta))
  }

  /** One step of a listed appliance fails iff it cannot step; otherwise only
      its own state and its own meter's reading change. */
  lemma StepOneSpec(h: HouseState, a: Appliance, d: Draw)
    requires a in h.value && a in h.side
    ensures StepOne(h, a, d).Err? <==> !CanStep(h.value[a])
    ensures StepOne(h, a, d).Err? ==> StepOne(h, a, d).error == BoundNotPositive(h.value[a].name, h.value[a].probability)
    ensures StepOne(h, a, d).Ok? ==>
      && Unmoved(h, StepOne(h, a, d).value)
      && StepOne(h, a, d).value.value == h.value[a := Step(h.value[a], d).value.value]
      && StepOne(h, a, d).value == Feed(h.(value := h.value[a := Step(h.value[a], d).value.value]), h.side[a], Step(h.value[a], d).value.delta)
  {
  }

  /** The first n appliances of the list step in list order; the first failure
      ends the hour. */
  function Advance(h: HouseState, draws: seq<Draw>, n: nat): (r: Result<HouseState, ApplianceError>)
    requires n <= |h.list| && n <= |draws|
    ensures r.Ok? ==> r.value.list == h.list && r.value.side == h.side && r.value.battery == h.battery
  {
    if n == 0 then Ok(h)
    else
      match Advance(h, draws, n - 1)
      case Err(e) => Err(e)
      case Ok(g) => StepOne(g, h.list[n - 1], draws[n - 1])
  }

  /** Stepping keeps every listed appliance known, and the same appliance. */
  lemma {:induction false} AdvanceUnmoved(h: HouseState, draws: seq<Draw>, n: nat)
    requires Complete(h) && n <= |h.list| && n <= |draws|
    requires Advance(h, draws, n).Ok?
    ensures Complete(Advance(h, draws, n).value) && Unmoved(h, Advance(h, draws, n).value)
  {
    if n > 0 {
      AdvanceUnmoved(h, draws, n - 1);
      var g := Advance(h, draws, n - 1).value;
      StepOneSpec(g, h.list[n - 1], draws[n - 1]);
    }
  }

  /** One more appliance: the hour so far must succeed and that appliance must
      be able to step. */
  lemma AdvanceLast(h: HouseState, draws: seq<Draw>, n: nat)
    requires Complete(h) && 0 < n <= |h.list| && n <= |draws|
    ensures Advance(h, draws, n).Ok? <==> Advance(h, draws, n - 1).Ok? && CanStep(h.value[h.list[n - 1]])
    ensures Advance(h, draws, n - 1).Ok? && !CanStep(h.value[h.list[n - 1]]) ==>
      Advance(h, draws, n) == Err(BoundNotPositive(h.value[h.list[n - 1]].name, h.value[h.list[n - 1]].probability))
  {
    if Advance(h, draws, n - 1).Ok? {
      AdvanceUnmoved(h, draws, n - 1);
      var g := Advance(h, draws, n - 1).value;
      var a := h.list[n - 1];
      SameConstantsCanStep(h.value[a], g.value[a]);
      StepOneSpec(g, a, draws[n - 1]);
    }
  }

  /** An hour fails exactly when a random appliance with a probability below 1
      is listed. */
  lemma {:induction false} AdvanceOkIff(h: HouseState, draws: seq<Draw>, n: nat)
    requires Complete(h) && n <= |h.list| && n <= |draws|
    ensures Advance(h, draws, n).Ok? <==> forall i :: 0 <= i < n ==> CanStep(h.value[h.list[i]])
  {
    if n > 0 {
      AdvanceOkIff(h, draws, n - 1);
      AdvanceLast(h, draws, n);
    }
  }

  /** The hour fails with the error of the first appliance that cannot step. */
  lemma {:induction false} AdvanceFailsAtFirst(h: HouseState, draws: seq<Draw>, n: nat, i: nat)
    requires Complete(h) && n <= |h.list| && n <= |draws|
    requires i < n && !CanStep(h.value[h.list[i]])
    requires forall j :: 0 <= j < i ==> CanStep(h.value[h.list[j]])
    ensures Advance(h, draws, n) == Err(BoundNotPositive(h.value[h.list[i]].name, h.value[h.list[i]].probability))
  {
    if i < n - 1 {
      AdvanceFailsAtFirst(h, draws, n - 1, i);
    } else {
      AdvanceOkIff(h, draws, i);
      AdvanceLast(h, draws, n);
    }
  }

  /** The units the appliances bound to side s add in the first n steps, each
      stepped from its state at the start of the hour. */
  function Delta(h: HouseState, draws: seq<Draw>, n: nat, s: Side): real
    requires Complete(h) && n <= |h.list| && n <= |draws|
  {
    if n == 0 then 0.0
    else
      var a := h.list[n - 1];
      var step := Step(h.value[a], draws[n - 1]);
      Delta(h, draws, n - 1, s) + (if h.side[a] == s && step.Ok? then step.value.delta else 0.0)
  }

  /** With no appliance listed twice, activate() calls timePasses once on each
      appliance: each ends one step on from where it started. */
  lemma {:induction false} AdvanceStepsEach(h: HouseState, draws: seq<Draw>, n: nat)
    requires Complete(h) && n <= |h.list| && n <= |draws| && Distinct(h.list)
    requires Advance(h, draws, n).Ok?
    ensures Complete(Advance(h, draws, n).value)
    ensures forall i :: 0 <= i < n ==>
      Step(h.value[h.list[i]], draws[i]).Ok? &&
      Advance(h, draws, n).value.value[h.list[i]] == Step(h.value[h.list[i]], draws[i]).value.value
    ensures forall i :: n <= i < |h.list| ==> Advance(h, draws, n).value.value[h.list[i]] == h.value[h.list[i]]
  {
    AdvanceUnmoved(h, draws, n);
    if n > 0 {
      AdvanceLast(h, draws, n);
      AdvanceStepsEach(h, draws, n - 1);
      var g := Advance(h, draws, n - 1).value;
      var a := h.list[n - 1];
      StepOneSpec(g, a, draws[n - 1]);
      forall i | 0 <= i < |h.list| && i != n - 1
        ensures Advance(h, draws, n).value.value[h.list[i]] == g.value[h.list[i]]
      {
        assert h.list[i] != a;
      }
    }
  }

  /** With no appliance listed twice, each meter gains in an hour the sum of
      the deltas of the appliances bound to it. */
  lemma {:induction false} AdvanceAddsDeltas(h: HouseState, draws: seq<Draw>, n: nat)
    requires Complete(h) && n <= |h.list| && n <= |draws| && Distinct(h.list)
    requires Advance(h, draws, n).Ok?
    ensures Advance(h, draws, n).value.water.reading == h.water.reading + Delta(h, draws, n, WaterSide)
    ensures Advance(h, draws, n).value.electric.reading == h.electric.reading + Delta(h, draws, n, ElectricSide)
  {
    if n > 0 {
      AdvanceLast(h, draws, n);
      AdvanceAddsDeltas(h, draws, n - 1);
      AdvanceStepsEach(h, draws, n - 1);
      var g := Advance(h, draws, n - 1).value;
      StepOneSpec(g, h.list[n - 1], draws[n - 1]);
    }
  }

  /** The electric meter's report: a plain meter bills its reading, a
      battery-backed one nets the reading against the battery first. */
  function ElectricReport(e: MeterState, b: Option<BatteryState>): (r: (real, MeterState, Option<BatteryState>))
    ensures r.1 == e.(reading := 0.0)
    ensures r.2.Some? == b.Some?
    ensures b.Some? && Sound(b.value) ==> Sound(r.2.value) && r.2.value.capacity == b.value.capacity
    ensures b.None? ==> r.0 == ReportOf(e).0
    ensures b.Some? && e.unitCost >= 0.0 ==> r.0 >= 0.0
    ensures b.Some? && Sound(b.value) && b.value.level >= e.reading && e.reading >= 0.0 ==> r.0 == 0.0
  {
    match b
    case None =>
      var (cost, e') := ReportOf(e);
      (cost, e', None)
    case Some(bs) =>
      var (s, bs') := Netting(e.unitCost, e.reading, bs);
      assert e.unitCost >= 0.0 ==> s.cost >= 0.0 by {
        if e.unitCost >= 0.0 { CostNeverNegative(e.unitCost, e.reading, s.stored, s.taken); }
      }
      assert Sound(bs) ==> Sound(bs') by {
        if Sound(bs) { NettingClosedForm(e.unitCost, e.reading, bs); }
      }
      (s.cost, e.(reading := 0.0), Some(bs'))
  }

  /** getTotalCost: the water meter reports first, then the electric one, and
      the cost is their sum. */
  function ReportAll(h: HouseState): (r: (real, HouseState))
    ensures r.1 == h.(water := h.water.(reading := 0.0), electric := h.electric.(reading := 0.0),
                      battery := ElectricReport(h.electric, h.battery).2)
    ensures r.0 == ReportOf(h.water).0 + ElectricReport(h.electric, h.battery).0
  {
    var (cw, w) := ReportOf(h.water);
    var (ce, e, b) := ElectricReport(h.electric, h.battery);
    (cw + ce, h.(water := w, electric := e, battery := b))
  }

  /** A second report with nothing in between costs nothing and changes nothing. */
  lemma SecondReportIsFree(h: HouseState)
    requires h.battery.Some? ==> Sound(h.battery.value)
    ensures ReportAll(ReportAll(h).1).0 == 0.0
    ensures ReportAll(ReportAll(h).1).1 == ReportAll(h).1
  {
    var g := ReportAll(h).1;
    if g.battery.Some? {
      IdleReportIsFree(g.electric.unitCost, g.battery.value);
    }
  }

  /** The sum is not floored: a plain-metered house with a negative water
      reading reports a negative cost. */
  lemma NegativeTotalNotClamped()
    ensures ReportAll(HouseState([], map[], map[], MeterState("Water", 0.002, -100.0),
                                 MeterState("Electricity", 0.013, 0.0), None)).0 == -0.2
  {
  }

  /** Whether draws holds one draw per listed appliance, each one its
      random source can return. */
  predicate DrawsFit(list: seq<Appliance>, draws: seq<Draw>)
  {
    |draws| == |list| && forall i :: 0 <= i < |list| ==> list[i].Fits(draws[i])
  }

  /** Whether every hour's draws agree in number with the list. */
  predicate DrawsFor(h: HouseState, hourly: seq<seq<Draw>>)
  {
    forall k :: 0 <= k < |hourly| ==> |hourly[k]| == |h.list|
  }

  /** activate(): every appliance steps, then the meters report. */
  function Hour(h: HouseState, draws: seq<Draw>): (r: Result<(real, HouseState), ApplianceError>)
    requires |draws| == |h.list|
    ensures r.Ok? ==> r.value.1.list == h.list && r.value.1.side == h.side
    ensures r.Ok? ==> r.value.1.water.reading == 0.0 && r.value.1.electric.reading == 0.0
  {
    match Advance(h, draws, |h.list|)
    case Err(e) => Err(e)
    case Ok(g) => Ok(ReportAll(g))
  }

  /** activate(hours): the hours run in order and their costs are summed; the
      first failure ends the run. */
  function Run(h: HouseState, hourly: seq<seq<Draw>>): (r: Result<(real, HouseState), ApplianceError>)
    requires DrawsFor(h, hourly)
    ensures r.Ok? ==> r.value.1.list == h.list && r.value.1.side == h.side
  {
    if hourly == [] then Ok((0.0, h))
    else
      match Run(h, hourly[..|hourly| - 1])
      case Err(e) => Err(e)
      case Ok(p) =>
        match Hour(p.1, hourly[|hourly| - 1])
        case Err(e) => Err(e)
        case Ok(q) => Ok((p.0 + q.0, q.1))
  }

  /** A run keeps every appliance known and the same appliance, and a sound
      battery sound. */
  lemma {:induction false} RunUnmoved(h: HouseState, hourly: seq<seq<Draw>>)
    requires Complete(h) && DrawsFor(h, hourly) && Run(h, hourly).Ok?
    requires h.battery.Some? ==> Sound(h.battery.value)
    ensures Complete(Run(h, hourly).value.1) && Unmoved(h, Run(h, hourly).value.1)
    ensures Run(h, hourly).value.1.battery.Some? ==> Sound(Run(h, hourly).value.1.battery.value)
  {
    if hourly != [] {
      RunUnmoved(h, hourly[..|hourly| - 1]);
      var g := Run(h, hourly[..|hourly| - 1]).value.1;
      AdvanceUnmoved(g, hourly[|hourly| - 1], |g.list|);
    }
  }

  /** A house with no appliances and nothing on its meters costs nothing, for
      any number of hours, and ends as it began. */
  lemma {:induction false} IdleHouseIsFree(h: HouseState, hourly: seq<seq<Draw>>)
    requires DrawsFor(h, hourly) && h.list == []
    requires h.water.reading == 0.0 && h.electric.reading == 0.0
    requires h.battery.Some? ==> Sound(h.battery.value)
    ensures Run(h, hourly) == Ok((0.0, h))
  {
    if hourly != [] {
      IdleHouseIsFree(h, hourly[..|hourly| - 1]);
      if h.battery.Some? {
        IdleReportIsFree(h.electric.unitCost, h.battery.value);
      }
      assert Advance(h, hourly[|hourly| - 1], 0) == Ok(h);
    }
  }

  /** Given at least one hour, the run fails exactly when some listed appliance
      cannot step. */
  lemma {:induction false} RunOkIff(h: HouseState, hourly: seq<seq<Draw>>)
    requires Complete(h) && DrawsFor(h, hourly) && hourly != []
    requires h.battery.Some? ==> Sound(h.battery.value)
    ensures Run(h, hourly).Ok? <==> forall i :: 0 <= i < |h.list| ==> CanStep(h.value[h.list[i]])
  {
    var front := hourly[..|hourly| - 1];
    if front == [] {
      AdvanceOkIff(h, hourly[0], |h.list|);
    } else {
      RunOkIff(h, front);
      if Run(h, front).Ok? {
        RunUnmoved(h, front);
        var g := Run(h, front).value.1;
        AdvanceOkIff(g, hourly[|hourly| - 1], |g.list|);
        forall i | 0 <= i < |h.list|
          ensures CanStep(h.value[h.list[i]]) == CanStep(g.value[g.list[i]])
        {
          SameConstantsCanStep(h.value[h.list[i]], g.value[h.list[i]]);
        }
      }
    }
  }

  /** addWaterAppliance / addElectricAppliance: a is appended and bound to
      the meter on side s; an appliance already listed is rebound. */
  function Added(h: HouseState, a: Appliance, v: ApplianceValue, s: Side): (g: HouseState)
    ensures Complete(h) ==> Complete(g)
    ensures |g.list| == |h.list| + 1 && g.list[|h.list|] == a
  {
    h.(list := h.list + [a], value := h.value[a := v], side := h.side[a := s])
  }

  /** One more step of the hour. */
  lemma AdvanceExtend(h: HouseState, draws: seq<Draw>, i: nat, g: HouseState)
    requires i < |h.list| && i < |draws| && Advance(h, draws, i) == Ok(g)
    ensures Advance(h, draws, i + 1) == StepOne(g, h.list[i], draws[i])
  {
  }

  /** One more hour of the run. */
  lemma RunExtend(h: HouseState, hourly: seq<seq<Draw>>, k: nat, c: real, g: HouseState)
    requires k < |hourly| && DrawsFor(h, hourly) && Run(h, hourly[..k]) == Ok((c, g))
    ensures DrawsFor(h, hourly[..k + 1]) && |hourly[k]| == |g.list|
    ensures Hour(g, hourly[k]).Err? ==> Run(h, hourly[..k + 1]) == Err(Hour(g, hourly[k]).error)
    ensures Hour(g, hourly[k]).Ok? ==>
      Run(h, hourly[..k + 1]) == Ok((c + Hour(g, hourly[k]).value.0, Hour(g, hourly[k]).value.1))
  {
    assert hourly[..k + 1][..k] == hourly[..k];
  }

  /** An error in the first i steps is the error of the whole hour. */
  lemma {:induction false} AdvanceErrSticks(h: HouseState, draws: seq<Draw>, i: nat, n: nat)
    requires i <= n <= |h.list| && n <= |draws|
    requires Advance(h, draws, i).Err?
    ensures Advance(h, draws, n) == Advance(h, draws, i)
    decreases n
  {
    if i < n {
      AdvanceErrSticks(h, draws, i, n - 1);
    }
  }

  /** An error in the first k hours is the error of the whole run. */
  lemma {:induction false} RunErrSticks(h: HouseState, hourly: seq<seq<Draw>>, k: nat)
    requires k <= |hourly| && DrawsFor(h, hourly)
    requires Run(h, hourly[..k]).Err?
    ensures Run(h, hourly) == Run(h, hourly[..k])
    decreases |hourly|
  {
    if k < |hourly| {
      var front := hourly[..|hourly| - 1];
      assert front[..k] == hourly[..k];
      RunErrSticks(h, front, k);
    } else {
      assert hourly[..k] == hourly;
    }
  }

  /** The hour after the first k: its outcome r (and the state g2 it leaves)
      decides the run, an error ending it and a cost adding to the total. */
  lemma RunTally(h: HouseState, hourly: seq<seq<Draw>>, k: nat, c: real, g: HouseState,
                 r: Result<real, ApplianceError>, g2: HouseState)
    requires k < |hourly| && DrawsFor(h, hourly) && Run(h, hourly[..k]) == Ok((c, g))
    requires |hourly[k]| == |g.list|
    requires r.Err? <==> Hour(g, hourly[k]).Err?
    requires r.Err? ==> r.error == Hour(g, hourly[k]).error
    requires r.Ok? ==> r.value == Hour(g, hourly[k]).value.0 && g2 == Hour(g, hourly[k]).value.1
    ensures r.Err? ==> Run(h, hourly) == Err(r.error)
    ensures r.Ok? ==> Run(h, hourly[..k + 1]) == Ok((c + r.value, g2))
  {
    RunExtend(h, hourly, k, c, g);
    if r.Err? {
      RunErrSticks(h, hourly, k + 1);
    }
  }

  /** removeAppliance: ArrayList.remove(Object) drops the first occurrence. */
  function RemoveFirst<T(==)>(s: seq<T>, x: T): (r: seq<T>)
  {
    if s == [] then []
    else if s[0] == x then s[1..]
    else [s[0]] + RemoveFirst(s[1..], x)
  }

  function FirstIndex<T(==)>(s: seq<T>, x: T): (i: nat)
    requires x in s
    ensures i < |s| && s[i] == x && x !in s[..i]
  {
    if s[0] == x then 0
    else
      var j := FirstIndex(s[1..], x);
      assert s[..j + 1] == [s[0]] + s[1..][..j];
      j + 1
  }

  /** Removing an element present drops its first occurrence and keeps the
      others in order; removing an absent one changes nothing. */
  lemma {:induction false} RemoveFirstSpec<T>(s: seq<T>, x: T)
    ensures x in s ==> RemoveFirst(s, x) == s[..FirstIndex(s, x)] + s[FirstIndex(s, x) + 1..]
    ensures x in s ==> |RemoveFirst(s, x)| == |s| - 1
    ensures x !in s ==> RemoveFirst(s, x) == s
  {
    if s != [] && s[0] != x {
      RemoveFirstSpec(s[1..], x);
      if x in s {
        var j := FirstIndex(s[1..], x);
        assert s[1..][..j] == s[1..j + 1];
        assert s[..j + 1] == [s[0]] + s[1..j + 1];
      }
    }
  }

  lemma {:induction false} RemoveFirstSubset<T>(s: seq<T>, x: T, y: T)
    requires y in RemoveFirst(s, x)
    ensures y in s
  {
    if s != [] && s[0] != x && y != s[0] {
      RemoveFirstSubset(s[1..], x, y);
    }
  }

  /** The hour and day labels of the multi-hour loop. */
  datatype Clock = Clock(hour: int, day: int)

  function ClockStep(c: Clock): Clock
  {
    if c.hour != 24 then Clock(c.hour + 1, c.day) else Clock(1, c.day + 1)
  }

  /** The label of the k-th hour; the loop starts at hour 0 of day 1. */
  function Clocks(k: nat): Clock
  {
    if k == 0 then Clock(0, 1) else ClockStep(Clocks(k - 1))
  }

  /** The labels of the first n hours. */
  function ClockLabels(n: nat): (cs: seq<Clock>)
    ensures |cs| == n
  {
    if n == 0 then [] else ClockLabels(n - 1) + [Clocks(n)]
  }

  /** The k-th label (from 0) is the clock after k + 1 hours. */
  lemma {:induction false} ClockLabelsAt(n: nat, k: nat)
    requires k < n
    ensures ClockLabels(n)[k] == Clocks(k + 1)
  {
    if k < n - 1 {
      ClockLabelsAt(n - 1, k);
    }
  }

  /** After k >= 1 hours the label is hour (k-1) mod 24 + 1 of day
      (k-1) div 24 + 1, the same hour as an appliance counter's. */
  lemma {:induction false} ClockAfter(k: nat)
    requires k >= 1
    ensures Clocks(k) == Clock((k - 1) % 24 + 1, (k - 1) / 24 + 1)
    ensures Clocks(k).hour == Ticks(0, k)
  {
    if k > 1 {
      ClockAfter(k - 1);
      if (k - 2) % 24 == 23 {
        assert (k - 1) % 24 == 0 && (k - 1) / 24 == (k - 2) / 24 + 1;
      } else {
        assert (k - 1) % 24 == (k - 2) % 24 + 1 && (k - 1) / 24 == (k - 2) / 24;
      }
    }
    FreshTicks(k);
  }
}
