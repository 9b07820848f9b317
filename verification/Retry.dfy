/** Back-off between attempts on the payment provider. Instants are milliseconds. */
module Retry {
  import opened Wrappers

  const MAX_PAYMENT_OPERATION_ATTEMPTS := 8
  const BASE_DELAY_MS := 30_000
  const MAX_DELAY_MS := 6 * 60 * 60_000

  datatype RetryDisposition = RetryAt(at: int) | GiveUp

  function Pow2(n: nat): (r: nat)
    ensures r >= 1
  {
    if n == 0 then 1 else 2 * Pow2(n - 1)
  }

  function Max(a: int, b: int): int { if a < b then b else a }

  function Min(a: int, b: int): int { if a < b then a else b }

  /** The exponential part: 30 s doubled per attempt, at most six hours. */
  function BaseDelay(attempt: int): int {
    Min(BASE_DELAY_MS * Pow2(Max(1, attempt) - 1), MAX_DELAY_MS)
  }

  /** `None` stands for a jitter that is not a finite number. */
  function ClampJitter(jitter: Option<real>): real {
    if jitter.None? || jitter.value < 0.0 then 0.0
    else if jitter.value > 0.25 then 0.25
    else jitter.value
  }

  /** `retryAfter` is the provider's advice in seconds, when it is a finite number. */
  function RetryAfterMs(retryAfter: Option<int>): int {
    if retryAfter.None? then 0 else Min(MAX_DELAY_MS, Max(0, retryAfter.value) * 1000)
  }

  /** The delay with its random share on top. */
  function Jittered(base: int, jitter: real): int {
    base + (base as real * jitter).Floor
  }

  function NextAttemptAt(now: int, attempt: int, jitter: Option<real>, retryAfter: Option<int>): int {
    now + Max(Jittered(BaseDelay(attempt), ClampJitter(jitter)), RetryAfterMs(retryAfter))
  }

  function Dispose(now: int, attempts: int, jitter: Option<real>, retryAfter: Option<int>): RetryDisposition {
    if attempts >= MAX_PAYMENT_OPERATION_ATTEMPTS then GiveUp
    else RetryAt(NextAttemptAt(now, attempts, jitter, retryAfter))
  }

  lemma {:induction false} Pow2Monotone(a: nat, b: nat)
    requires a <= b
    ensures Pow2(a) <= Pow2(b)
  {
    if a < b {
      Pow2Monotone(a, b - 1);
    }
  }

  /** Each further attempt doubles the wait, up to the cap. */
  lemma DelayDoubles(attempt: int)
    requires attempt >= 1
    ensures BaseDelay(1) == BASE_DELAY_MS
    ensures BaseDelay(attempt + 1) == Min(2 * BaseDelay(attempt), MAX_DELAY_MS)
  {
    assert Pow2(attempt) == 2 * Pow2(attempt - 1);
  }

  lemma BaseDelayMonotone(a: int, b: int)
    requires a <= b
    ensures 0 < BaseDelay(a) <= BaseDelay(b)
  {
    Pow2Monotone(Max(1, a) - 1, Max(1, b) - 1);
  }

  lemma ProductIsMonotone(a: real, b: real, c: real)
    requires a <= b && c >= 0.0
    ensures a * c <= b * c
  {
  }

  lemma JitterAdds(base: int, jitter: real)
    requires 0 <= base && 0.0 <= jitter
    ensures base <= Jittered(base, jitter)
  {
    ProductIsMonotone(0.0, base as real, jitter);
  }

  lemma JitterKeepsOrder(low: int, high: int, jitter: real)
    requires 0 <= low <= high && 0.0 <= jitter
    ensures Jittered(low, jitter) <= Jittered(high, jitter)
  {
    ProductIsMonotone(low as real, high as real, jitter);
  }

  lemma JitterAddsAQuarter(base: int, jitter: real)
    requires 0 <= base && 0.0 <= jitter <= 0.25
    ensures Jittered(base, jitter) <= base + base / 4
  {
    var b := base as real;
    ProductIsMonotone(jitter, 0.25, b);
    assert base <= 4 * (base / 4) + 3;
    assert b * 0.25 <= (base / 4) as real + 0.75;
  }

  /** Whatever the attempt, jitter and advice: between 30 seconds and 7.5 hours, never before the advice. */
  lemma DelayBounds(now: int, attempt: int, jitter: Option<real>, retryAfter: Option<int>)
    ensures now + BASE_DELAY_MS <= NextAttemptAt(now, attempt, jitter, retryAfter)
    ensures NextAttemptAt(now, attempt, jitter, retryAfter) <= now + MAX_DELAY_MS + MAX_DELAY_MS / 4
    ensures retryAfter.Some? && retryAfter.value * 1000 <= MAX_DELAY_MS
            ==> now + retryAfter.value * 1000 <= NextAttemptAt(now, attempt, jitter, retryAfter)
  {
    var base := BaseDelay(attempt);
    JitterAdds(base, ClampJitter(jitter));
    JitterAddsAQuarter(base, ClampJitter(jitter));
  }

  /** With the same jitter and advice a later attempt never waits less. */
  lemma DelayMonotone(now: int, a: int, b: int, jitter: Option<real>, retryAfter: Option<int>)
    requires a <= b
    ensures NextAttemptAt(now, a, jitter, retryAfter) <= NextAttemptAt(now, b, jitter, retryAfter)
  {
    BaseDelayMonotone(a, b);
    JitterKeepsOrder(BaseDelay(a), BaseDelay(b), ClampJitter(jitter));
  }
}
