/** An appliance that is on for the first cycleLength hours of each 24-hour
    cycle, like CyclicFixed, but consumes a randomly drawn amount in each of
    those hours. The amount is drawn on every call, also in hours when the
    appliance is off; the model receives it as the parameter randomUnits. */
module CyclicVaries {
  import opened Wrappers
  import opened HourCounter
  import opened ApplianceBase
  import Meter
  import CyclicFixed

  /** Units one call adds: the drawn amount iff the new hour is within the cycle. */
  function Consumption(cycleLength: int, time: int, randomUnits: real): real
  {
    if time <= cycleLength then randomUnits else 0.0
  }

  /** Units added by calls starting from counter value `from`, the i-th call
      drawing amounts[i]. */
  function Total(cycleLength: int, from: int, amounts: seq<real>): real
  {
    if amounts == [] then 0.0
    else Total(cycleLength, from, amounts[..|amounts| - 1])
         + Consumption(cycleLength, Ticks(from, |amounts|), amounts[|amounts| - 1])
  }

  /** Within the first 24 calls from fresh, only the first cycleLength draws count. */
  lemma {:induction false} FirstDay(cycleLength: int, amounts: seq<real>)
    requires 0 <= cycleLength <= 24 && |amounts| <= 24
    ensures Total(cycleLength, 0, amounts) == Meter.Sum(amounts[..CyclicFixed.Min(|amounts|, cycleLength)])
  {
    var n := |amounts|;
    if n > 0 {
      var front := amounts[..n - 1];
      FirstDay(cycleLength, front);
      FreshTicks(n);
      assert Ticks(0, n) == n;
      assert front[..CyclicFixed.Min(n - 1, cycleLength)] == amounts[..CyclicFixed.Min(n - 1, cycleLength)];
      if n <= cycleLength {
        assert amounts[..n][..n - 1] == front;
        assert amounts[..n] == amounts;
      }
    }
  }

  /** Totals over consecutive runs of calls add up. */
  lemma {:induction false} TotalSplit(cycleLength: int, from: int, a: seq<real>, b: seq<real>)
    ensures Total(cycleLength, from, a + b)
         == Total(cycleLength, from, a) + Total(cycleLength, Ticks(from, |a|), b)
  {
    if b != [] {
      var front := b[..|b| - 1];
      TotalSplit(cycleLength, from, a, front);
      assert (a + b)[..|a + b| - 1] == a + front;
      TicksAdd(from, |a|, |b|);
    } else {
      assert a + b == a;
    }
  }

  /** A counter at 24 runs the same calls as a fresh one. */
  lemma {:induction false} WrappedTotal(cycleLength: int, amounts: seq<real>)
    ensures Total(cycleLength, 24, amounts) == Total(cycleLength, 0, amounts)
  {
    if amounts != [] {
      WrappedTotal(cycleLength, amounts[..|amounts| - 1]);
      WrappedLikeFresh(|amounts|);
    }
  }

  /** From fresh, a first day of 24 calls contributes the sum of its first
      cycleLength draws, and the calls after it run like calls from fresh. */
  lemma DayByDay(cycleLength: int, day: seq<real>, rest: seq<real>)
    requires 0 <= cycleLength <= 24 && |day| == 24
    ensures Total(cycleLength, 0, day + rest) == Meter.Sum(day[..cycleLength]) + Total(cycleLength, 0, rest)
  {
    TotalSplit(cycleLength, 0, day, rest);
    FirstDay(cycleLength, day);
    FreshTicks(24);
    WrappedTotal(cycleLength, rest);
  }

  class CyclicVaries {
    const name: string
    const cycleLength: int
    const minUnits: real
    const maxUnits: real
    var currentTime: int
    var meter: Meter.Meter?
    /** The amounts drawn so far, one per call that got past the meter check. */
    ghost var drawn: seq<real>

    constructor (name: string, cycleLength: int, minUnits: real, maxUnits: real)
      ensures this.name == name && this.minUnits == minUnits && this.maxUnits == maxUnits
      ensures this.cycleLength == CyclicFixed.AcceptedCycle(cycleLength)
      ensures currentTime == 0 && meter == null && drawn == []
    {
      this.name := name;
      if cycleLength >= 1 && cycleLength <= 24 {
        this.cycleLength := cycleLength;
      } else {
        this.cycleLength := 0;
      }
      this.minUnits := minUnits;
      this.maxUnits := maxUnits;
      currentTime := 0;
      meter := null;
      drawn := [];
    }

    method SetMeter(m: Meter.Meter)
      modifies this`meter
      ensures meter == m
    {
      meter := m;
    }

    /** One hour: fatal without a meter, before any draw or tick; otherwise the
        amount is drawn, the counter ticks and the amount is added iff the new
        hour <= cycleLength. */
    method TimePasses(randomUnits: real) returns (r: Outcome<ApplianceError>)
      modifies this`currentTime, this`drawn, meter
      ensures meter == null ==> r == Fail(MeterNotSet(name)) && currentTime == old(currentTime) && drawn == old(drawn)
      ensures meter != null ==> r == Pass && drawn == old(drawn) + [randomUnits] && currentTime == Tick(old(currentTime))
      ensures meter != null ==> meter.reading == old(meter.reading) + Consumption(cycleLength, currentTime, randomUnits)
    {
      if meter == null {
        return Fail(MeterNotSet(name));
      }
      drawn := drawn + [randomUnits];

      if currentTime != 24 {
        currentTime := currentTime + 1;
      } else {
        currentTime := 1;
      }

      if currentTime <= cycleLength {
        meter.ConsumeUnits(randomUnits);
      }
      r := Pass;
    }
  }
}
