/** The battery behind a BatteryMeter. Battery.java is not part of this model:
    everything in this module is an ASSUMED contract for the two calls that
    BatteryMeter makes (storeUnits, takeUnits). The assumption is that both are
    saturating: storeUnits(r) stores min(capacity - level, |r|) units, takeUnits(r)
    supplies min(level, r) units, and each returns the amount actually moved. */
module Battery {

  datatype BatteryState = BatteryState(capacity: real, level: real)

  /** One call made on the battery, with the argument it was given. */
  datatype Request = Store(amount: real) | Take(amount: real)

  predicate Sound(b: BatteryState)
  {
    0.0 <= b.level <= b.capacity
  }

  function Abs(x: real): real
  {
    if x < 0.0 then -x else x
  }

  /** Assumed: what storeUnits(r) stores and returns. */
  function StoreAmount(b: BatteryState, r: real): (s: real)
    ensures s <= b.capacity - b.level && s <= Abs(r)
    ensures s == b.capacity - b.level || s == Abs(r)
    ensures Sound(b) ==> 0.0 <= s
  {
    if b.capacity - b.level < Abs(r) then b.capacity - b.level else Abs(r)
  }

  /** Assumed: what takeUnits(r) supplies and returns, for a request r >= 0. */
  function TakeAmount(b: BatteryState, r: real): (t: real)
    requires r >= 0.0
    ensures t <= b.level && t <= r
    ensures t == b.level || t == r
    ensures Sound(b) ==> 0.0 <= t
  {
    if b.level < r then b.level else r
  }

  /** The battery after one assumed call. */
  function Apply(b: BatteryState, q: Request): BatteryState
    requires q.Take? ==> q.amount >= 0.0
  {
    match q
    case Store(r) => b.(level := b.level + StoreAmount(b, r))
    case Take(r) => b.(level := b.level - TakeAmount(b, r))
  }

  ghost predicate WellFormed(qs: seq<Request>)
  {
    forall i :: 0 <= i < |qs| ==> (qs[i].Take? ==> qs[i].amount >= 0.0)
  }

  /** The battery after a sequence of calls, in order. */
  function ApplyAll(b: BatteryState, qs: seq<Request>): BatteryState
    requires WellFormed(qs)
  {
    if qs == [] then b else Apply(ApplyAll(b, qs[..|qs| - 1]), qs[|qs| - 1])
  }

  /** Under the assumed contract, 0 <= level <= capacity after every call. */
  lemma {:induction false} ApplyAllSound(b: BatteryState, qs: seq<Request>)
    requires Sound(b) && WellFormed(qs)
    ensures Sound(ApplyAll(b, qs))
    ensures ApplyAll(b, qs).capacity == b.capacity
  {
    if qs != [] {
      ApplyAllSound(b, qs[..|qs| - 1]);
    }
  }

  /** A battery of capacity 500, empty, asked twice to absorb a surplus of 300:
      the first call stores 300, the second only the remaining 200. */
  lemma StoreTwiceSaturates()
    ensures StoreAmount(BatteryState(500.0, 0.0), -300.0) == 300.0
    ensures StoreAmount(BatteryState(500.0, 300.0), -300.0) == 200.0
    ensures ApplyAll(BatteryState(500.0, 0.0), [Store(-300.0), Store(-300.0)]) == BatteryState(500.0, 500.0)
  {
    var qs := [Store(-300.0), Store(-300.0)];
    assert qs[..1] == [Store(-300.0)];
    assert [Store(-300.0)][..0] == [];
  }

  class Battery {
    const capacity: real
    var level: real
    /** The calls made on this battery so far. */
    ghost var log: seq<Request>

    ghost function Model(): BatteryState
      reads this
    {
      BatteryState(capacity, level)
    }

    constructor (capacity: real)
      ensures this.capacity == capacity && level == 0.0 && log == []
    {
      this.capacity := capacity;
      level := 0.0;
      log := [];
    }

    method StoreUnits(r: real) returns (stored: real)
      modifies this`level, this`log
      ensures stored == StoreAmount(old(Model()), r)
      ensures Model() == Apply(old(Model()), Store(r))
      ensures log == old(log) + [Store(r)]
    {
      stored := StoreAmount(BatteryState(capacity, level), r);
      level := level + stored;
      log := log + [Store(r)];
    }

    method TakeUnits(r: real) returns (taken: real)
      requires r >= 0.0
      modifies this`level, this`log
      ensures taken == TakeAmount(old(Model()), r)
      ensures Model() == Apply(old(Model()), Take(r))
      ensures log == old(log) + [Take(r)]
    {
      taken := TakeAmount(BatteryState(capacity, level), r);
      level := level - taken;
      log := log + [Take(r)];
    }
  }
}
