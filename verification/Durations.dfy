/** Signed 64-bit nanosecond durations and the doubling-with-a-cap that both the ingest retry
loop and the services poll use. */
module Durations {

  const TWO_62: int := 0x4000_0000_0000_0000
  const TWO_63: int := 0x8000_0000_0000_0000
  const TWO_64: int := 0x1_0000_0000_0000_0000

  /** A duration in nanoseconds. */
  type Duration = x: int | -TWO_63 <= x < TWO_63

  const SECOND: Duration := 1_000_000_000
  const MINUTE: Duration := 60 * SECOND

  /** Two's-complement wrap-around of a doubled duration. */
  function Wrap64(x: int): Duration
    requires -TWO_64 <= x < TWO_64
  {
    if x >= TWO_63 then x - TWO_64 else if x < -TWO_63 then x + TWO_64 else x
  }

  function Min(a: int, b: int): int {
    if b < a then b else a
  }

  /** One doubling, capped afterwards. */
  function DoubledUpTo(cap: Duration, b: Duration): Duration {
    var d := Wrap64(b * 2);
    if d > cap then cap else d
  }

  /** The backoff after k doublings. */
  function Backoff(initial: Duration, cap: Duration, k: nat): Duration {
    if k == 0 then initial else DoubledUpTo(cap, Backoff(initial, cap, k - 1))
  }

  // ----- The closed form -----

  function Pow2(k: nat): (p: nat)
    ensures p > 0
  {
    if k == 0 then 1 else 2 * Pow2(k - 1)
  }

  function Doublings(i: int, k: nat): int {
    i * Pow2(k)
  }

  /** The capped exponential min(initial * 2^k, cap). */
  function CappedPower(initial: int, cap: int, k: nat): int {
    Min(Doublings(initial, k), cap)
  }

  lemma DoublingsStep(i: int, k: nat)
    requires k > 0
    ensures Doublings(i, k) == 2 * Doublings(i, k - 1)
  {
    var p := Pow2(k - 1);
    assert i * (2 * p) == 2 * (i * p);
  }

  lemma {:induction false} DoublingsPositive(i: int, k: nat)
    requires i > 0
    ensures Doublings(i, 0) == i && Doublings(i, k) > 0
  {
    if k == 0 {
    } else {
      DoublingsPositive(i, k - 1);
      DoublingsStep(i, k);
    }
  }

  /** Below 2^62 ns (146 years) the schedule is the capped exponential. */
  lemma {:induction false} BackoffIsCappedPower(initial: Duration, cap: Duration, k: nat)
    requires 0 < initial < TWO_62 && 0 < cap < TWO_62 && k > 0
    ensures Backoff(initial, cap, k) == CappedPower(initial, cap, k)
  {
    DoublingsStep(initial, k);
    DoublingsPositive(initial, k - 1);
    if k > 1 {
      BackoffIsCappedPower(initial, cap, k - 1);
    }
  }

  /** From 2^62 ns on, some doubling wraps around and leaves a negative backoff. */
  lemma {:induction false} BackoffWraps(initial: Duration, cap: Duration, k: nat) returns (bad: nat)
    requires 0 < cap && 0 < Backoff(initial, cap, k)
    requires Backoff(initial, cap, k) >= TWO_62 || cap >= TWO_62
    ensures Backoff(initial, cap, bad) < 0 && bad > k
    decreases TWO_63 - Backoff(initial, cap, k)
  {
    bad := k + 1;
    if Backoff(initial, cap, k) < TWO_62 {
      bad := BackoffWraps(initial, cap, k + 1);
    }
  }

  /** The capped exponential describes every step exactly when both durations are below 2^62 ns. */
  lemma BackoffScheduleIff(initial: Duration, cap: Duration)
    requires 0 < initial && 0 < cap
    ensures (forall k: nat :: k > 0 ==> Backoff(initial, cap, k) == CappedPower(initial, cap, k))
            <==> initial < TWO_62 && cap < TWO_62
  {
    if initial < TWO_62 && cap < TWO_62 {
      forall k: nat | k > 0
        ensures Backoff(initial, cap, k) == CappedPower(initial, cap, k)
      {
        BackoffIsCappedPower(initial, cap, k);
      }
    } else {
      var bad := BackoffWraps(initial, cap, 0);
      DoublingsPositive(initial, bad);
      assert Backoff(initial, cap, bad) != CappedPower(initial, cap, bad);
    }
  }
}
