/** Exponential backoff with jitter. Durations are nanoseconds. */
module Backoffs {
  import opened Words

  const U32_MAX: nat := 0xFFFF_FFFF
  const MAX_EXPONENT: nat := 20

  /** The longest `Duration`: 2^64 seconds less a nanosecond. */
  const DURATION_MAX: nat := 0x1_0000_0000_0000_0000 * 1_000_000_000 - 1

  function Pow2(n: nat): nat { if n == 0 then 1 else 2 * Pow2(n - 1) }

  /** The delay after `failures` failures, before jitter. */
  function Delay(initial: nat, max: nat, failures: nat): nat {
    Min(initial * Pow2(Min(failures, MAX_EXPONENT)), max)
  }

  class Backoff {
    const initial: nat
    const max: nat
    const jitter: bool
    var attempt: nat

    ghost predicate Valid()
      reads this
    {
      attempt <= U32_MAX && initial <= DURATION_MAX && max <= DURATION_MAX
    }

    ghost function PlainDelay(failures: nat): real { Delay(initial, max, failures) as real }

    constructor (initial: nat, max: nat, jitter: bool)
      requires initial <= DURATION_MAX && max <= DURATION_MAX
      ensures Valid() && attempt == 0 && this.initial == initial && this.max == max && this.jitter == jitter
    {
      this.initial, this.max, this.jitter, attempt := initial, max, jitter, 0;
    }

    /** `factor` is the random draw; without jitter it is not used. */
    method NextDelay(factor: real) returns (delay: real)
      requires Valid() && 0.75 <= factor <= 1.25
      modifies this
      ensures Valid() && attempt == Min(old(attempt) + 1, U32_MAX)
      ensures jitter ==> 0.75 * PlainDelay(old(attempt)) <= delay <= 1.25 * PlainDelay(old(attempt))
      ensures delay == PlainDelay(old(attempt)) * (if jitter then factor else 1.0)
    {
      var bounded := Bounded(initial, max, attempt);
      delay := bounded as real;
      if jitter { delay := Spread(delay, factor); }
      attempt := Min(attempt + 1, U32_MAX);
    }

    method Reset()
      requires Valid()
      modifies this
      ensures Valid() && attempt == 0
    {
      attempt := 0;
    }
  }

  /** The saturated product, cut to the maximum. */
  method Bounded(initial: nat, max: nat, attempt: nat) returns (d: nat)
    requires max <= DURATION_MAX
    ensures d == Delay(initial, max, attempt)
  {
    var shifted := Shift(Min(attempt, MAX_EXPONENT));
    var raw := Min(initial * shifted, DURATION_MAX);
    d := Min(raw, max);
  }

  /** `1u32 << exp`, which does not overflow for the capped exponent. */
  method Shift(exp: nat) returns (r: nat)
    requires exp <= MAX_EXPONENT
    ensures r == Pow2(exp) && r <= U32_MAX
  {
    r := 1;
    for i := 0 to exp
      invariant r == Pow2(i)
    {
      r := 2 * r;
    }
    Pow2Monotone(exp, MAX_EXPONENT);
    assert Pow2(10) == 1024;
    assert Pow2(20) == 1024 * Pow2(10);
  }

  lemma {:induction false} Pow2Monotone(a: nat, b: nat)
    requires a <= b
    ensures Pow2(a) <= Pow2(b)
  {
    if a < b { Pow2Monotone(a, b - 1); }
  }

  /** A random spread of at most a quarter either way. */
  method Spread(plain: real, factor: real) returns (delay: real)
    requires plain >= 0.0 && 0.75 <= factor <= 1.25
    ensures 0.75 * plain <= delay <= 1.25 * plain && delay == plain * factor
  {
    delay := plain * factor;
  }

  /** The delay never shrinks as failures go on, and never passes the maximum. */
  lemma DelayMonotone(initial: nat, max: nat, a: nat, b: nat)
    requires a <= b
    ensures Delay(initial, max, a) <= Delay(initial, max, b) <= max
  {
    Pow2Monotone(Min(a, MAX_EXPONENT), Min(b, MAX_EXPONENT));
    MulMonotone(initial, Pow2(Min(a, MAX_EXPONENT)), Pow2(Min(b, MAX_EXPONENT)));
  }

  lemma MulMonotone(k: nat, a: nat, b: nat)
    requires a <= b
    ensures k * a <= k * b
  {
  }

  /** Each failure doubles the delay up to the maximum, and the twenty-first no more. */
  lemma DelayDoubles(initial: nat, max: nat, failures: nat)
    ensures Delay(initial, max, 0) == Min(initial, max)
    ensures failures < 20 ==> Delay(initial, max, failures + 1) == Min(2 * Delay(initial, max, failures), max)
    ensures failures >= 20 ==> Delay(initial, max, failures) == Delay(initial, max, 20)
  {
    if failures < 20 {
      assert Pow2(failures + 1) == 2 * Pow2(failures);
      assert initial * (2 * Pow2(failures)) == 2 * (initial * Pow2(failures));
    }
  }

  /** A counter that saturates gives the same delay as one that does not. */
  lemma SaturatedDelay(initial: nat, max: nat, failures: nat)
    ensures Delay(initial, max, Min(failures, U32_MAX)) == Delay(initial, max, failures)
  {
  }
}
