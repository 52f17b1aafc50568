/**
 The two retry delays of the system: the relay's configurable backoff and the consumer's fixed redelivery backoff.
 Both are doubling loops, written differently; both compute the same closed form, `Capped`.
 Durations are nanoseconds held in 64-bit integers, so every intermediate value of a loop is checked for overflow.
 */
module RetryPolicy {

  newtype int64 = x: int | -0x8000_0000_0000_0000 <= x < 0x8000_0000_0000_0000

  newtype uint64 = x: int | 0 <= x < 0x1_0000_0000_0000_0000

  const MAX_DURATION: int := 0x7fff_ffff_ffff_ffff

  const SECOND: int64 := 1_000_000_000

  const MINUTE: int64 := 60_000_000_000

  function Pow2(n: nat): nat {
    if n == 0 then 1 else 2 * Pow2(n - 1)
  }

  function Min(a: int, b: int): int {
    if a <= b then a else b
  }

  /** `base` doubled `n` times. */
  function Doubled(base: int, n: nat): int {
    if n == 0 then base else 2 * Doubled(base, n - 1)
  }

  /** The delay after attempt `n`: the base doubled n-1 times, never above max. */
  function Capped(base: int, max: int, n: int): int {
    if n <= 1 then Min(base, max) else Min(Doubled(base, n - 1), max)
  }

  /** The total of the first `k` delays of the schedule. */
  function TotalDelay(base: int, max: int, k: nat): int {
    if k == 0 then 0 else TotalDelay(base, max, k - 1) + Capped(base, max, k)
  }

  lemma {:induction false} DoubledIsPower(base: int, n: nat)
    ensures Doubled(base, n) == base * Pow2(n)
  {
    if n > 0 {
      DoubledIsPower(base, n - 1);
    }
  }

  /** The delay schedule in closed form: min(base * 2^(n-1), max). */
  lemma CappedClosedForm(base: int, max: int, n: int)
    requires n >= 1
    ensures Capped(base, max, n) == Min(base * Pow2(n - 1), max)
  {
    DoubledIsPower(base, n - 1);
  }

  lemma {:induction false} DoubledMonotone(base: int, a: nat, b: nat)
    requires 0 < base && a <= b
    ensures base <= Doubled(base, a) <= Doubled(base, b)
    decreases b
  {
    if a < b {
      DoubledMonotone(base, a, b - 1);
    } else if a > 0 {
      DoubledMonotone(base, a - 1, a - 1);
    }
  }

  /** A later attempt never waits less, and every delay lies between the base and the cap. */
  lemma CappedMonotone(base: int, max: int, a: int, b: int)
    requires 0 < base <= max
    requires a <= b
    ensures base <= Capped(base, max, a) <= Capped(base, max, b) <= max
  {
    DoubledMonotone(base, if a <= 1 then 0 else a - 1, if b <= 1 then 0 else b - 1);
  }

  /** The relay's backoff loop: its 64-bit arithmetic never overflows, and it is the closed form for every attempt. */
  method RelayBackoff(base: int64, max: int64, attempt: int) returns (backoff: int64)
    requires 0 < base <= max
    ensures backoff as int == Capped(base as int, max as int, attempt)
  {
    backoff := base;
    var current := 1;
    while current < attempt && backoff < max
      invariant 1 <= current
      invariant current == 1 || current <= attempt
      invariant 0 < backoff <= max
      invariant backoff as int == Doubled(base as int, current - 1)
    {
      if backoff > max / 2 {
        DoubledMonotone(base as int, current, attempt - 1);
        return max;
      }
      backoff := backoff * 2;
      current := current + 1;
    }
    if current < attempt {
      DoubledMonotone(base as int, current - 1, attempt - 1);
    }
    if backoff > max {
      return max;
    }
  }

  /**
   The consumer's backoff loop: the same closed form at one second and one minute, for every 64-bit delivery count,
   after at most six doublings.
   */
  method RedeliveryBackoff(delivery: uint64) returns (backoff: int64, doublings: nat)
    ensures backoff as int == Capped(SECOND as int, MINUTE as int, delivery as int)
    ensures doublings == if delivery <= 1 then 0 else Min(delivery as int - 1, 6)
  {
    backoff, doublings := SECOND, 0;
    var current: uint64 := 1;
    FirstDoublings(SECOND as int);
    while current < delivery && backoff < MINUTE
      invariant 1 <= current
      invariant current == 1 || current <= delivery
      invariant doublings == current as int - 1 <= 6
      invariant backoff as int == Doubled(SECOND as int, doublings)
    {
      DoubledMonotone(SECOND as int, doublings, 6);
      backoff := backoff * 2;
      current := current + 1;
      doublings := doublings + 1;
    }
    if doublings < 6 {
      DoubledMonotone(SECOND as int, doublings, 5);
    }
    if current < delivery {
      DoubledMonotone(SECOND as int, current as int - 1, delivery as int - 1);
    }
    if backoff > MINUTE {
      return MINUTE, doublings;
    }
  }

  lemma FirstDoublings(base: int)
    ensures Doubled(base, 1) == 2 * base && Doubled(base, 2) == 4 * base && Doubled(base, 3) == 8 * base
    ensures Doubled(base, 5) == 32 * base && Doubled(base, 6) == 64 * base
  {
    assert Doubled(base, 4) == 2 * Doubled(base, 3);
  }
}
