/** Bounded retry with equal-jitter exponential backoff. Durations are counts of
    nanoseconds; the saturations, the clamp of the shift and the truncating cast
    of the jitter span are written out. */
module Retry {
  import opened Domain

  const U32_MAX: nat := 0xFFFF_FFFF
  const U64_MAX: nat := 0xFFFF_FFFF_FFFF_FFFF
  const NANOS_PER_SEC: nat := 1_000_000_000
  const DURATION_MAX: nat := U64_MAX * NANOS_PER_SEC + 999_999_999

  type Duration = n: nat | n <= DURATION_MAX
  /** The sub-second part of the system clock, which seeds the jitter. */
  type Subsec = n: nat | n < NANOS_PER_SEC

  function Pow2(n: nat): (p: nat)
    ensures p >= 1
  {
    if n == 0 then 1 else 2 * Pow2(n - 1)
  }

  lemma {:induction false} Pow2Monotone(a: nat, b: nat)
    requires a <= b
    ensures Pow2(a) <= Pow2(b)
  {
    if a < b {
      Pow2Monotone(a, b - 1);
    }
  }

  lemma Pow2At32()
    ensures Pow2(32) == U32_MAX + 1
  {
    assert Pow2(8) == 256;
    assert Pow2(16) == 65536;
    assert Pow2(24) == 16777216;
  }

  /** `1 << n` in 64 bits, the maximum when the shift is too wide, then clamped to 32 bits. */
  function Factor(n: nat): nat {
    var shifted := if n < 64 then Pow2(n) else U64_MAX;
    if shifted <= U32_MAX then shifted else U32_MAX
  }

  /** Both clamps together are one: the exact factor is `min(2^n, 2^32 - 1)`. */
  lemma FactorIsClampedPower(n: nat)
    ensures Factor(n) == Min(Pow2(n), U32_MAX)
  {
    Pow2At32();
    if n >= 32 {
      Pow2Monotone(32, n);
    }
  }

  function SaturatingMul(d: Duration, k: nat): Duration {
    if d * k <= DURATION_MAX then d * k else DURATION_MAX
  }

  datatype Backoff = Panics | Delay(nanos: nat)

  datatype RetryPolicy = RetryPolicy(maxAttempts: nat, baseDelay: Duration, maxDelay: Duration) {
    static function New(maxAttempts: nat, baseDelay: Duration, maxDelay: Duration): RetryPolicy {
      RetryPolicy(Max(maxAttempts, 1), baseDelay, maxDelay)
    }

    /** The upper end of the jitter range before retry `n`. */
    function Cap(n: nat): Duration {
      var raw := SaturatingMul(baseDelay, Factor(n));
      if raw <= maxDelay then raw else maxDelay
    }

    function BackoffFor(n: nat, subsec: Subsec): Backoff {
      var cap := Cap(n);
      var half := cap / 2;
      var jitterSpan := cap - half;
      if jitterSpan == 0 then Delay(half)
      else
        var span := Max(jitterSpan, 1) % (U64_MAX + 1);
        if span == 0 then Panics else Delay(half + subsec % span)
    }

    /** At least one attempt, and no cap whose jitter span truncates to zero. */
    predicate Usable() {
      maxAttempts >= 1 && (maxDelay + 1) / 2 <= U64_MAX
    }

    function SleepFor(n: nat, subsec: Subsec): (d: nat)
      requires Usable()
      ensures BackoffFor(n, subsec) == Delay(d)
      ensures d <= maxDelay
    {
      BackoffRange(this, n, subsec);
      BackoffFor(n, subsec).nanos
    }
  }

  lemma TimesMonotone(d: nat, a: nat, b: nat)
    requires a <= b
    ensures d * a <= d * b
  {
  }

  lemma ProductGrows(d: nat, f: nat, g: nat)
    requires f <= g <= 2 * f
    ensures d * f <= d * g <= 2 * (d * f)
  {
    TimesMonotone(d, f, g);
    TimesMonotone(d, g, 2 * f);
  }

  /** The cap in closed form: both saturations disappear into two minima. */
  lemma CapExact(p: RetryPolicy, n: nat)
    ensures p.Cap(n) == Min(p.maxDelay, p.baseDelay * Min(Pow2(n), U32_MAX))
    ensures p.Cap(n) <= Min(p.maxDelay, p.baseDelay * Pow2(n))
  {
    FactorIsClampedPower(n);
    TimesMonotone(p.baseDelay, Min(Pow2(n), U32_MAX), Pow2(n));
  }

  /** From one retry to the next the cap never falls and at most doubles. */
  lemma CapGrows(p: RetryPolicy, n: nat)
    ensures p.Cap(n) <= p.Cap(n + 1) <= 2 * p.Cap(n)
  {
    CapExact(p, n);
    CapExact(p, n + 1);
    ProductGrows(p.baseDelay, Min(Pow2(n), U32_MAX), Min(Pow2(n + 1), U32_MAX));
  }

  lemma {:induction false} CapMonotone(p: RetryPolicy, i: nat, j: nat)
    requires i <= j
    ensures p.Cap(i) <= p.Cap(j)
  {
    if i < j {
      CapMonotone(p, i, j - 1);
      CapGrows(p, j - 1);
    }
  }

  /** The delay lies in the upper half of its cap, a zero cap gives no delay, and
      the jitter computation divides by zero exactly when the span is a non-zero
      multiple of 2^64 nanoseconds. */
  lemma BackoffRange(p: RetryPolicy, n: nat, subsec: Subsec)
    ensures var cap := p.Cap(n);
      && (p.BackoffFor(n, subsec).Panics? <==> cap != 0 && (cap - cap / 2) % (U64_MAX + 1) == 0)
      && (p.BackoffFor(n, subsec).Delay? && cap > 0 ==> cap / 2 <= p.BackoffFor(n, subsec).nanos < cap)
      && (cap == 0 ==> p.BackoffFor(n, subsec) == Delay(0))
      && ((p.maxDelay + 1) / 2 <= U64_MAX ==> p.BackoffFor(n, subsec).Delay?)
  {
    var cap := p.Cap(n);
    var span := cap - cap / 2;
    if cap > 0 {
      assert span == (cap + 1) / 2;
      assert span % (U64_MAX + 1) <= span;
      if (p.maxDelay + 1) / 2 <= U64_MAX {
        assert span <= (p.maxDelay + 1) / 2;
      }
    }
  }

  lemma DoublingMin(max: nat, b: nat)
    ensures Min(max, 2 * b) == Min(max, 2 * Min(max, b))
  {
  }

  /** The caps in their own words: the first is the base delay, each next one twice the one
      before, none above `maxDelay`; from retry 32 on they stay at 2^32 - 1 base delays. */
  lemma CapsByDoubling(p: RetryPolicy, n: nat)
    ensures p.Cap(0) == if p.baseDelay < p.maxDelay then p.baseDelay else p.maxDelay
    ensures n < 31 ==> p.Cap(n + 1) == if 2 * p.Cap(n) < p.maxDelay then 2 * p.Cap(n) else p.maxDelay
    ensures n >= 32 ==>
      p.Cap(n) == if p.baseDelay * 0xFFFF_FFFF < p.maxDelay then p.baseDelay * 0xFFFF_FFFF else p.maxDelay
  {
    CapExact(p, 0);
    CapExact(p, n);
    CapExact(p, n + 1);
    Pow2At32();
    if n < 31 {
      Pow2Monotone(n, 31);
      Pow2Monotone(n + 1, 31);
      DoubledProduct(p.baseDelay, Pow2(n));
      DoublingMin(p.maxDelay, p.baseDelay * Pow2(n));
    } else if n >= 32 {
      Pow2Monotone(32, n);
    }
  }

  lemma DoubledProduct(d: nat, k: nat)
    ensures d * (2 * k) == 2 * (d * k)
  {
  }

  /** The delay in its own words: the lower half of the cap plus the clock's nanoseconds
      modulo the rest of it, and none for a zero cap. */
  lemma BackoffExact(p: RetryPolicy, n: nat, subsec: Subsec)
    requires (p.maxDelay + 1) / 2 <= 0xFFFF_FFFF_FFFF_FFFF
    ensures p.Cap(n) == 0 ==> p.BackoffFor(n, subsec) == Delay(0)
    ensures p.Cap(n) > 0 ==>
      p.BackoffFor(n, subsec) == Delay(p.Cap(n) / 2 + subsec % (p.Cap(n) - p.Cap(n) / 2))
  {
    var cap := p.Cap(n);
    if cap > 0 {
      assert 1 <= cap - cap / 2 <= (p.maxDelay + 1) / 2;
      SmallModulus(cap - cap / 2);
    }
  }

  lemma SmallModulus(span: nat)
    requires span <= U64_MAX
    ensures span % (U64_MAX + 1) == span
  {
  }

  /** The same condition on the fields of the policy: the closed form of the cap,
      less its half, is a nonzero multiple of 2^64 nanoseconds. */
  lemma PanicsExactly(p: RetryPolicy, n: nat, subsec: Subsec)
    ensures p.BackoffFor(n, subsec).Panics? <==>
      var cap := Min(p.maxDelay, p.baseDelay * Min(Pow2(n), U32_MAX));
      cap != 0 && (cap - cap / 2) % (U64_MAX + 1) == 0
  {
    hide *;
    CapExact(p, n);
    BackoffRange(p, n, subsec);
  }

  /** A policy whose first retry divides by zero: both delays are 2^65 nanoseconds, some
      1,169 years. */
  lemma LongDelayPanics(subsec: Subsec)
    ensures RetryPolicy.New(2, 0x2_0000_0000_0000_0000, 0x2_0000_0000_0000_0000).BackoffFor(0, subsec) == Panics
  {
    PanicsExactly(RetryPolicy.New(2, 0x2_0000_0000_0000_0000, 0x2_0000_0000_0000_0000), 0, subsec);
  }

  /** All the sleep of one retry loop that made `|subsecs|` retries. */
  function TotalSleep(p: RetryPolicy, subsecs: seq<Subsec>): nat
    requires p.Usable()
  {
    if subsecs == [] then 0
    else
      var k := |subsecs| - 1;
      TotalSleep(p, subsecs[..k]) + p.SleepFor(k, subsecs[k])
  }

  lemma SumsStep(base: nat, max: nat, k: nat, pow: nat)
    ensures (k + 1) * max == k * max + max
    ensures base * (2 * pow - 1) == base * (pow - 1) + base * pow
  {
  }

  lemma {:induction false} TotalSleepBound(p: RetryPolicy, subsecs: seq<Subsec>)
    requires p.Usable()
    ensures TotalSleep(p, subsecs) <= Min(|subsecs| * p.maxDelay, p.baseDelay * (Pow2(|subsecs|) - 1))
  {
    if subsecs != [] {
      var k := |subsecs| - 1;
      TotalSleepBound(p, subsecs[..k]);
      BackoffRange(p, k, subsecs[k]);
      CapExact(p, k);
      SumsStep(p.baseDelay, p.maxDelay, k, Pow2(k));
    }
  }

  /** One more sleep in the sum. */
  lemma SleepsSnoc(p: RetryPolicy, subsec: nat -> Subsec, k: nat)
    requires p.Usable()
    ensures TotalSleep(p, seq(k + 1, (i: nat) => subsec(i)))
      == TotalSleep(p, seq(k, (i: nat) => subsec(i))) + p.SleepFor(k, subsec(k))
  {
    assert seq(k + 1, (i: nat) => subsec(i))[..k] == seq(k, (i: nat) => subsec(i));
  }

  datatype Attempt<+T, +E> = Good(value: T) | Bad(error: E)

  /** The attempt at which the loop stops: the first success, the first error that
      may not be retried, or the last one the budget allows. */
  ghost predicate StopsAfter<T(!new), E(!new)>(
    p: RetryPolicy, op: nat -> Attempt<T, E>, isRetryable: E -> bool, k: nat)
  {
    && 1 <= k <= p.maxAttempts
    && (forall j: nat :: j < k - 1 ==> op(j).Bad? && isRetryable(op(j).error))
    && (k == p.maxAttempts || op(k - 1).Good? || !isRetryable(op(k - 1).error))
  }

  lemma StopsOnce<T(!new), E(!new)>(
    p: RetryPolicy, op: nat -> Attempt<T, E>, isRetryable: E -> bool, j: nat, k: nat)
    requires StopsAfter(p, op, isRetryable, j) && StopsAfter(p, op, isRetryable, k)
    ensures j == k
  {
    var lastOfJ: nat, lastOfK: nat := j - 1, k - 1;
    assert lastOfJ >= k - 1;
    assert lastOfK >= j - 1;
  }

  /** The retry loop. `op(j)` is what attempt `j` returns and `subsec(j)` the clock
      reading that jitters the sleep after it. */
  method RunRetry<T(!new), E(!new)>(
    p: RetryPolicy, op: nat -> Attempt<T, E>, isRetryable: E -> bool, subsec: nat -> Subsec)
    returns (result: Attempt<T, E>, attempts: nat, slept: nat)
    requires p.Usable()
    ensures StopsAfter(p, op, isRetryable, attempts)
    ensures result == op(attempts - 1)
    ensures slept == TotalSleep(p, seq(attempts - 1, (i: nat) => subsec(i)))
    ensures slept <= (attempts - 1) * p.maxDelay
  {
    var attempt := 0;
    slept := 0;
    while true
      invariant attempt < p.maxAttempts
      invariant forall j: nat :: j < attempt ==> op(j).Bad? && isRetryable(op(j).error)
      invariant slept == TotalSleep(p, seq(attempt, (i: nat) => subsec(i)))
      decreases p.maxAttempts - attempt
    {
      result := op(attempt);
      match result {
        case Good(_) =>
          TotalSleepBound(p, seq(attempt, (i: nat) => subsec(i)));
          attempts := attempt + 1;
          return;
        case Bad(e) =>
          attempt := attempt + 1;
          if attempt >= p.maxAttempts || !isRetryable(e) {
            TotalSleepBound(p, seq(attempt - 1, (i: nat) => subsec(i)));
            attempts := attempt;
            return;
          }
          var delay := p.SleepFor(attempt - 1, subsec(attempt - 1));
          SleepsSnoc(p, subsec, attempt - 1);
          slept := slept + delay;
      }
    }
  }
}
