/** Retry delays, and the loop that runs a handler until it succeeds or gives up. */
module Retry {
  import opened Events

  const U32_LIMIT: nat := 0x1_0000_0000
  type U32 = n: nat | n < U32_LIMIT

  // The longest `Duration`: u64::MAX seconds and 999_999_999 nanoseconds.
  const MAX_DURATION: nat := 18446744073709551615 * 1_000_000_000 + 999_999_999

  /** How integer overflow behaves: debug builds check, release builds wrap. A `Duration` product
      that does not fit panics in both. */
  datatype Overflow = Checked | Wrapping

  function Pow2(n: nat): (p: nat)
    ensures p >= 1
  {
    if n == 0 then 1 else 2 * Pow2(n - 1)
  }

  function Min(a: nat, b: nat): nat { if a < b then a else b }

  lemma {:induction false} Pow2Monotone(m: nat, n: nat)
    requires m <= n
    ensures Pow2(m) <= Pow2(n)
  {
    if m < n { Pow2Monotone(m, n - 1); }
  }

  lemma {:induction false} Pow2Multiple(n: nat)
    requires n >= 32
    ensures Pow2(n) % U32_LIMIT == 0
  {
    if n > 32 {
      Pow2Multiple(n - 1);
      DoubledMultiple(Pow2(n - 1));
    } else {
      Pow2At32();
    }
  }

  lemma DoubledMultiple(p: nat)
    requires p % U32_LIMIT == 0
    ensures (2 * p) % U32_LIMIT == 0
  {
  }

  lemma Pow2At32()
    ensures Pow2(32) == U32_LIMIT
  {
    assert Pow2(8) == 256;
    assert Pow2(16) == 65536;
    assert Pow2(24) == 16777216;
  }

  /** `2u32.pow(n)`, or None for an overflow panic. */
  function PowU32(n: nat, mode: Overflow): (p: Option<nat>) {
    if Pow2(n) < U32_LIMIT then Some(Pow2(n))
    else if mode.Checked? then None
    else Some(Pow2(n) % U32_LIMIT)
  }

  /** `base * 2u32.pow(n)`, or None for a panic of either operation. */
  function Backoff(base: Nanos, n: nat, mode: Overflow): (d: Option<Nanos>) {
    match PowU32(n, mode)
    case None => None
    case Some(factor) => if base * factor <= MAX_DURATION then Some(base * factor) else None
  }

  /** Below 32 the factor is exact. From 32 on, checked arithmetic panics and wrapping arithmetic
      yields a zero delay. */
  lemma BackoffCases(base: Nanos, n: nat, mode: Overflow)
    ensures n < 32 ==> Backoff(base, n, mode) == if base * Pow2(n) <= MAX_DURATION then Some(base * Pow2(n)) else None
    ensures n >= 32 ==> Backoff(base, n, mode) == if mode.Checked? then None else Some(0)
  {
    Pow2At32();
    if n < 32 {
      Pow2Monotone(n, 31);
    } else {
      Pow2Monotone(32, n);
      Pow2Multiple(n);
    }
  }

  /** The sleeps after the first `n` failures can all be computed. */
  predicate Fits(base: Nanos, n: nat, mode: Overflow) {
    n == 0 || ((mode.Checked? ==> n <= 32) && base * Pow2(Min(n, 32) - 1) <= MAX_DURATION)
  }

  lemma FitsStep(base: Nanos, n: nat, mode: Overflow)
    ensures Fits(base, n + 1, mode) <==> Fits(base, n, mode) && Backoff(base, n, mode).Some?
  {
    BackoffCases(base, n, mode);
    if n > 0 {
      Pow2Monotone(Min(n, 32) - 1, Min(n + 1, 32) - 1);
      MulMonotone(base, Pow2(Min(n, 32) - 1), Pow2(Min(n + 1, 32) - 1));
    }
  }

  /** All the sleeping done after `n` failures. */
  function TotalSleep(base: Nanos, n: nat): Nanos {
    base * (Pow2(Min(n, 32)) - 1)
  }

  lemma TotalSleepStep(base: Nanos, n: nat, mode: Overflow)
    requires Backoff(base, n, mode).Some?
    ensures TotalSleep(base, n + 1) == TotalSleep(base, n) + Backoff(base, n, mode).value
  {
    hide Backoff;
    BackoffCases(base, n, mode);
    if n < 32 {
      hide Pow2;
      assert Pow2(n + 1) == 2 * Pow2(n) by { Pow2Step(n); }
      Doubled(base, Pow2(n));
    }
  }

  lemma Pow2Step(n: nat)
    ensures Pow2(n + 1) == 2 * Pow2(n)
  {
  }

  lemma Doubled(a: nat, p: nat)
    requires p >= 1
    ensures a * (2 * p - 1) == a * (p - 1) + a * p
  {
  }

  lemma MulMonotone(a: nat, b: nat, c: nat)
    requires b <= c
    ensures a * b <= a * c
  {
  }

  /** How many runs of the handler fail before the first success, counting no further than the limit. */
  ghost function Failures(succeeds: nat -> bool, limit: nat): (f: nat)
    ensures f <= limit
    ensures forall i: nat :: i < f ==> !succeeds(i)
    ensures f < limit ==> succeeds(f)
  {
    if limit == 0 then 0
    else
      var f := Failures(succeeds, limit - 1);
      if f < limit - 1 || succeeds(f) then f else limit
  }

  datatype Verdict = Acked | MarkedFailed | Panicked

  /** Runs the handler on one envelope, sleeping `base`, then twice as long each time, between
      failures. The i-th run succeeds when `succeeds(i)`. With `f` the failures before the first
      success, up to one more than the retries allowed: the envelope is acknowledged after `f`
      failures if they do not use up the retries, and otherwise marked failed after `maxRetries + 1`
      of them, unless computing one of the sleeps in between overflows. */
  method HandleEnvelope(succeeds: nat -> bool, maxRetries: U32, base: Nanos, mode: Overflow)
    returns (verdict: Verdict, runs: nat, slept: Nanos)
    requires mode.Wrapping? ==> maxRetries < U32_LIMIT - 1
    ensures var f := Failures(succeeds, maxRetries + 1); var sleeps := Min(f, maxRetries);
      if Fits(base, sleeps, mode) then
        verdict == (if f <= maxRetries then Acked else MarkedFailed)
        && runs == sleeps + 1
        && slept == TotalSleep(base, sleeps)
      else
        verdict == Panicked && 1 <= runs <= sleeps
        && Fits(base, runs - 1, mode) && !Fits(base, runs, mode)
  {
    hide Backoff, Fits, TotalSleep, Pow2;
    ghost var f := Failures(succeeds, maxRetries + 1);
    var attempt := 0;
    slept := 0;
    NoSleep(base, mode);
    while true
      invariant attempt <= f && attempt <= maxRetries
      invariant Fits(base, attempt, mode) && slept == TotalSleep(base, attempt)
      decreases maxRetries - attempt
    {
      if succeeds(attempt) {
        return Acked, attempt + 1, slept;
      }
      attempt := attempt + 1;
      if attempt > maxRetries {
        return MarkedFailed, attempt, slept;
      }
      var backoff := Backoff(base, attempt - 1, mode);
      FitsStep(base, attempt - 1, mode);
      if backoff.None? {
        FitsDown(base, attempt, Min(f, maxRetries), mode);
        return Panicked, attempt, slept;
      }
      TotalSleepStep(base, attempt - 1, mode);
      slept := slept + backoff.value;
    }
  }

  lemma NoSleep(base: Nanos, mode: Overflow)
    ensures Fits(base, 0, mode) && TotalSleep(base, 0) == 0
  {
  }

  lemma {:induction false} FitsDown(base: Nanos, m: nat, n: nat, mode: Overflow)
    requires m <= n
    ensures Fits(base, n, mode) ==> Fits(base, m, mode)
  {
    if m < n {
      FitsStep(base, n - 1, mode);
      FitsDown(base, m, n - 1, mode);
    }
  }

  /** With at most 32 retries and a base delay below 272 years, no sleep overflows and every
      envelope ends in exactly one acknowledgement or one failure mark. */
  lemma AlwaysVerdict(base: Nanos, sleeps: nat, maxRetries: nat, mode: Overflow)
    requires sleeps <= maxRetries <= 32 && base * Pow2(31) <= MAX_DURATION
    ensures Fits(base, sleeps, mode)
  {
    if sleeps > 0 {
      Pow2Monotone(sleeps - 1, 31);
      MulMonotone(base, Pow2(sleeps - 1), Pow2(31));
    }
  }

  /** Retry policies, consulted with the number of the attempt that failed. */
  datatype Policy =
    | ExponentialBackoff(baseDelay: Nanos, maxDelay: Nanos, maxAttempts: U32, jitter: bool)
    | FixedDelay(delay: Nanos, maxAttempts: U32)
    | NoRetry

  datatype Advice = RetryAfter(delay: Nanos) | GiveUp | Panics

  /** A jitter draw scales the delay by a factor between one half and one. */
  type Jitter = f: real | 0.5 <= f < 1.0 witness 0.5

  function ShouldRetry(policy: Policy, attempt: U32, draw: Jitter, mode: Overflow): (a: Advice) {
    match policy
    case NoRetry => GiveUp
    case FixedDelay(delay, maxAttempts) => if attempt >= maxAttempts then GiveUp else RetryAfter(delay)
    case ExponentialBackoff(base, maxDelay, maxAttempts, jitter) =>
      if attempt >= maxAttempts then GiveUp
      else if attempt == 0 && mode.Checked? then Panics
      else
        // The exponent of attempt zero wraps to u32::MAX.
        match Backoff(base, if attempt == 0 then U32_LIMIT - 1 else attempt - 1, mode)
        case None => Panics
        case Some(d) =>
          var capped := Min(d, maxDelay);
          RetryAfter(if jitter then (capped as real * draw).Floor else capped)
  }

  /** Without jitter, delays double from the base up to the cap and never shrink from one attempt
      to a later one, as long as the factor does not wrap. */
  lemma DelaysGrowToCap(policy: Policy, a: nat, b: nat, draw: Jitter, mode: Overflow)
    requires policy.ExponentialBackoff? && 1 <= a <= b < policy.maxAttempts && b <= 32
    requires policy.baseDelay * Pow2(b - 1) <= MAX_DURATION && !policy.jitter
    ensures ShouldRetry(policy, a, draw, mode) == RetryAfter(Min(policy.baseDelay * Pow2(a - 1), policy.maxDelay))
    ensures ShouldRetry(policy, b, draw, mode).RetryAfter?
    ensures ShouldRetry(policy, a, draw, mode).delay <= ShouldRetry(policy, b, draw, mode).delay <= policy.maxDelay
  {
    Pow2Monotone(a - 1, b - 1);
    MulMonotone(policy.baseDelay, Pow2(a - 1), Pow2(b - 1));
    BackoffCases(policy.baseDelay, a - 1, mode);
    BackoffCases(policy.baseDelay, b - 1, mode);
  }

  /** Jitter takes off at most half of the delay, and adds nothing. */
  lemma JitterHalves(policy: Policy, attempt: U32, draw: Jitter, mode: Overflow)
    requires policy.ExponentialBackoff? && policy.jitter
    ensures var plain := ShouldRetry(policy.(jitter := false), attempt, draw, mode);
      var drawn := ShouldRetry(policy, attempt, draw, mode);
      if plain.RetryAfter? then drawn.RetryAfter? && plain.delay / 2 <= drawn.delay <= plain.delay else drawn == plain
    ensures var plain := ShouldRetry(policy.(jitter := false), attempt, draw, mode);
      var drawn := ShouldRetry(policy, attempt, draw, mode);
      plain.RetryAfter? && drawn.RetryAfter? ==>
        drawn.delay as real <= plain.delay as real * draw < drawn.delay as real + 1.0
  {
    hide Backoff, Pow2;
    var plain := ShouldRetry(policy.(jitter := false), attempt, draw, mode);
    if plain.RetryAfter? {
      Scaled(plain.delay, draw);
    }
  }

  lemma Scaled(n: nat, draw: Jitter)
    ensures n / 2 <= (n as real * draw).Floor <= n
  {
    HalfReal(n);
    var x := n as real;
    var y := x * draw;
    ScaledReal(x, draw, (n / 2) as real, y);
    FloorBetween(n / 2, y, x, n);
  }

  lemma HalfReal(n: nat)
    ensures (n / 2) as real <= n as real * 0.5
  {
    assert n == 2 * (n / 2) + n % 2;
  }

  lemma ScaledReal(x: real, draw: real, half: real, y: real)
    requires x >= 0.0 && 0.5 <= draw < 1.0 && half <= x * 0.5 && y == x * draw
    ensures half <= y && y <= x
  {
    NoSignChange(x, draw - 0.5);
    NoSignChange(x, 1.0 - draw);
    assert x * (draw - 0.5) == y - x * 0.5 && x * (1.0 - draw) == x - y;
  }

  lemma NoSignChange(x: real, y: real)
    requires x >= 0.0 && y >= 0.0
    ensures x * y >= 0.0
  {
  }

  lemma FloorBetween(low: int, x: real, top: real, high: int)
    requires low as real <= x && x <= top && top == high as real
    ensures low <= x.Floor && x.Floor <= high
  {
  }

  /** No policy retries from its last attempt on, and a fixed delay retries before it, after that delay. */
  lemma AttemptsLimited(policy: Policy, attempt: U32, draw: Jitter, mode: Overflow)
    ensures policy.NoRetry? ==> ShouldRetry(policy, attempt, draw, mode) == GiveUp
    ensures !policy.NoRetry? && attempt >= policy.maxAttempts ==> ShouldRetry(policy, attempt, draw, mode) == GiveUp
    ensures policy.FixedDelay? && attempt < policy.maxAttempts ==>
      ShouldRetry(policy, attempt, draw, mode) == RetryAfter(policy.delay)
    ensures policy.ExponentialBackoff? && attempt < policy.maxAttempts ==>
      ShouldRetry(policy, attempt, draw, mode) != GiveUp
  {
  }

  /** The longest `Duration` is that of u64::MAX seconds and 999_999_999 nanoseconds, and a product one
      nanosecond longer panics. */
  lemma LongestDelay(mode: Overflow)
    ensures Backoff(18_446_744_073_709_551_615_999_999_999, 0, mode) == Some(18_446_744_073_709_551_615_999_999_999)
    ensures Backoff(18_446_744_073_709_551_616_000_000_000, 0, mode) == None
  {
    BackoffCases(18_446_744_073_709_551_615_999_999_999, 0, mode);
    BackoffCases(18_446_744_073_709_551_616_000_000_000, 0, mode);
  }

  /** From the 33rd attempt on the doubling is lost: a checked build panics and a wrapping build
      retries at once. */
  lemma DelaysCollapse(policy: Policy, attempt: U32, draw: Jitter, mode: Overflow)
    requires policy.ExponentialBackoff? && 33 <= attempt < policy.maxAttempts
    ensures ShouldRetry(policy, attempt, draw, mode) == if mode.Checked? then Panics else RetryAfter(0)
  {
    BackoffCases(policy.baseDelay, attempt - 1, mode);
  }
}
