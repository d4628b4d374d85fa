/** The 1..24 hour counter shared by the cyclic appliances (their currentTime
    field) and by the simulation clock of the house: a value other than 24 is
    incremented, 24 wraps round to 1. */
module HourCounter {

  function Tick(t: int): (r: int)
    ensures 0 <= t <= 24 ==> 1 <= r <= 24
    ensures t != 24 ==> r == t + 1
    ensures t == 24 ==> r == 1
  {
    if t != 24 then t + 1 else 1
  }

  /** The counter after n ticks from t. */
  function Ticks(t: int, n: nat): int
  {
    if n == 0 then t else Tick(Ticks(t, n - 1))
  }

  /** From a fresh counter (0), the n-th tick shows hour ((n - 1) mod 24) + 1. */
  lemma {:induction false} FreshTicks(n: nat)
    requires n >= 1
    ensures Ticks(0, n) == (n - 1) % 24 + 1
  {
    if n > 1 {
      FreshTicks(n - 1);
      assert Ticks(0, n) == Tick((n - 2) % 24 + 1);
      if (n - 2) % 24 == 23 {
        assert (n - 1) % 24 == 0;
      } else {
        assert (n - 1) % 24 == (n - 2) % 24 + 1;
      }
    }
  }

  /** A counter that starts in 0..24 shows an hour in 1..24 after any tick. */
  lemma {:induction false} TicksInRange(t: int, n: nat)
    requires 0 <= t <= 24 && n >= 1
    ensures 1 <= Ticks(t, n) <= 24
  {
    if n > 1 {
      TicksInRange(t, n - 1);
    }
  }

  /** Ticking n then m times is ticking n + m times. */
  lemma {:induction false} TicksAdd(t: int, n: nat, m: nat)
    ensures Ticks(Ticks(t, n), m) == Ticks(t, n + m)
  {
    if m > 0 {
      TicksAdd(t, n, m - 1);
    }
  }

  /** A counter at 24 behaves like a fresh one from its next tick on. */
  lemma {:induction false} WrappedLikeFresh(n: nat)
    requires n >= 1
    ensures Ticks(24, n) == Ticks(0, n)
  {
    if n > 1 {
      WrappedLikeFresh(n - 1);
    }
  }

  /** After 24 * d ticks (d >= 1) from fresh the counter stands at 24. */
  lemma FullDays(d: nat)
    requires d >= 1
    ensures Ticks(0, 24 * d) == 24
  {
    FreshTicks(24 * d);
    assert (24 * d - 1) % 24 == 23;
  }
}
