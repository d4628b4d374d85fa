/** An appliance that is on for the first cycleLength hours of each 24-hour
    cycle and consumes a fixed amount in each of those hours. */
module CyclicFixed {
  import opened Wrappers
  import opened HourCounter
  import opened ApplianceBase
  import Meter

  /** The constructor keeps a cycle length only when it lies in 1..24;
      otherwise the field keeps the Java default 0. */
  function AcceptedCycle(cycleLength: int): (r: int)
    ensures 0 <= r <= 24
    ensures 1 <= cycleLength <= 24 ==> r == cycleLength
    ensures !(1 <= cycleLength <= 24) ==> r == 0
  {
    if cycleLength >= 1 && cycleLength <= 24 then cycleLength else 0
  }

  /** Units one call adds once the counter has moved on to `time`. */
  function Consumption(unitsFixed: real, cycleLength: int, time: int): real
  {
    if time <= cycleLength then unitsFixed else 0.0
  }

  /** Units added by n calls starting from counter value `from`. */
  function Total(unitsFixed: real, cycleLength: int, from: int, n: nat): real
  {
    if n == 0 then 0.0
    else Total(unitsFixed, cycleLength, from, n - 1) + Consumption(unitsFixed, cycleLength, Ticks(from, n))
  }

  function Min(x: int, y: int): int
  {
    if x < y then x else y
  }

  /** Within the first 24 calls from fresh, exactly the first cycleLength calls
      consume: k calls add min(k, cycleLength) times unitsFixed. */
  lemma {:induction false} FirstDay(unitsFixed: real, cycleLength: int, k: nat)
    requires 0 <= cycleLength <= 24 && k <= 24
    ensures Total(unitsFixed, cycleLength, 0, k) == Min(k, cycleLength) as real * unitsFixed
  {
    if k > 0 {
      FirstDay(unitsFixed, cycleLength, k - 1);
      FreshTicks(k);
      assert Ticks(0, k) == k;
      if k <= cycleLength {
        assert Min(k, cycleLength) as real * unitsFixed == Min(k - 1, cycleLength) as real * unitsFixed + unitsFixed by {
          assert Min(k, cycleLength) as real == Min(k - 1, cycleLength) as real + 1.0;
        }
      } else {
        assert Min(k, cycleLength) == Min(k - 1, cycleLength);
      }
    }
  }

  /** Totals over consecutive runs of calls add up. */
  lemma {:induction false} TotalSplit(unitsFixed: real, cycleLength: int, from: int, n: nat, m: nat)
    ensures Total(unitsFixed, cycleLength, from, n + m)
         == Total(unitsFixed, cycleLength, from, n) + Total(unitsFixed, cycleLength, Ticks(from, n), m)
  {
    if m > 0 {
      TotalSplit(unitsFixed, cycleLength, from, n, m - 1);
      TicksAdd(from, n, m);
    }
  }

  /** A counter at 24 runs the same calls as a fresh one. */
  lemma {:induction false} WrappedTotal(unitsFixed: real, cycleLength: int, n: nat)
    ensures Total(unitsFixed, cycleLength, 24, n) == Total(unitsFixed, cycleLength, 0, n)
  {
    if n > 0 {
      WrappedTotal(unitsFixed, cycleLength, n - 1);
      WrappedLikeFresh(n);
    }
  }

  /** The first 24 calls from fresh consume cycleLength times unitsFixed. */
  lemma DayTotal(unitsFixed: real, cycleLength: int)
    requires 0 <= cycleLength <= 24
    ensures Total(unitsFixed, cycleLength, 0, 24) == cycleLength as real * unitsFixed
  {
    FirstDay(unitsFixed, cycleLength, 24);
  }

  /** The block of 24 calls that follows d full days runs like the first one. */
  lemma NextDay(unitsFixed: real, cycleLength: int, d: nat)
    ensures Total(unitsFixed, cycleLength, 0, 24 * d + 24)
         == Total(unitsFixed, cycleLength, 0, 24 * d) + Total(unitsFixed, cycleLength, 0, 24)
  {
    var before := 24 * d;
    TotalSplit(unitsFixed, cycleLength, 0, before, 24);
    var start := Ticks(0, before);
    assert start == 0 || start == 24 by {
      if d > 0 { FullDays(d); }
    }
    assert Total(unitsFixed, cycleLength, start, 24) == Total(unitsFixed, cycleLength, 0, 24) by {
      if start == 24 { WrappedTotal(unitsFixed, cycleLength, 24); }
    }
  }

  /** Every 24-call block from fresh consumes cycleLength times unitsFixed. */
  lemma {:induction false} EveryDay(unitsFixed: real, cycleLength: int, days: nat)
    requires 0 <= cycleLength <= 24
    ensures Total(unitsFixed, cycleLength, 0, 24 * days) == (days * cycleLength) as real * unitsFixed
  {
    if days > 0 {
      var d := days - 1;
      var earlier := Total(unitsFixed, cycleLength, 0, 24 * d);
      var day := Total(unitsFixed, cycleLength, 0, 24);
      assert Total(unitsFixed, cycleLength, 0, 24 * days) == earlier + day by {
        NextDay(unitsFixed, cycleLength, d);
        assert 24 * d + 24 == 24 * days;
      }
      assert earlier == ((days - 1) * cycleLength) as real * unitsFixed by {
        EveryDay(unitsFixed, cycleLength, d);
      }
      assert day == cycleLength as real * unitsFixed by {
        DayTotal(unitsFixed, cycleLength);
      }
      Distribute(Total(unitsFixed, cycleLength, 0, 24 * days), earlier, day, days, cycleLength, unitsFixed);
    }
  }

  lemma Distribute(total: real, earlier: real, day: real, days: nat, c: int, u: real)
    requires days >= 1 && total == earlier + day
    requires earlier == ((days - 1) * c) as real * u && day == c as real * u
    ensures total == (days * c) as real * u
  {
    assert (days * c) as real == ((days - 1) * c) as real + c as real;
  }

  /** A rejected cycle length (field left at 0) never consumes. */
  lemma {:induction false} RejectedCycleNeverConsumes(unitsFixed: real, from: int, n: nat)
    requires 0 <= from <= 24
    ensures Total(unitsFixed, 0, from, n) == 0.0
  {
    if n > 0 {
      RejectedCycleNeverConsumes(unitsFixed, from, n - 1);
      TicksInRange(from, n);
    }
  }

  class CyclicFixed {
    const name: string
    const unitsFixed: real
    const cycleLength: int
    var currentTime: int
    var meter: Meter.Meter?

    constructor (name: string, unitsFixed: real, cycleLength: int)
      ensures this.name == name && this.unitsFixed == unitsFixed
      ensures this.cycleLength == AcceptedCycle(cycleLength)
      ensures currentTime == 0 && meter == null
    {
      this.name := name;
      this.unitsFixed := unitsFixed;
      if cycleLength >= 1 && cycleLength <= 24 {
        this.cycleLength := cycleLength;
      } else {
        this.cycleLength := 0;
      }
      currentTime := 0;
      meter := null;
    }

    method SetMeter(m: Meter.Meter)
      modifies this`meter
      ensures meter == m
    {
      meter := m;
    }

    /** One hour: fatal without a meter, before the counter moves; otherwise
        the counter ticks and unitsFixed is added iff the new hour <= cycleLength. */
    method TimePasses() returns (r: Outcome<ApplianceError>)
      modifies this`currentTime, meter
      ensures meter == null ==> r == Fail(MeterNotSet(name)) && currentTime == old(currentTime)
      ensures meter != null ==> r == Pass && currentTime == Tick(old(currentTime))
      ensures meter != null ==> meter.reading == old(meter.reading) + Consumption(unitsFixed, cycleLength, currentTime)
    {
      if meter == null {
        return Fail(MeterNotSet(name));
      }

      if currentTime != 24 {
        currentTime := currentTime + 1;
      } else {
        currentTime := 1;
      }

      if currentTime <= cycleLength {
        meter.ConsumeUnits(unitsFixed);
      }
      r := Pass;
    }
  }
}
