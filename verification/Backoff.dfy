/** Bounded exponential backoff and the delays built on it, in nanoseconds. */
module Backoff {
  import opened FairShare

  const SECOND: int := 1_000_000_000

  const MINUTE: int := 60 * SECOND

  /** RFC 3339 without a fraction: the time is cut down to the second. */
  function WholeSeconds(t: int): (r: int)
    ensures r <= t < r + SECOND
  {
    t - t % SECOND
  }

  function PowerOfTwo(n: nat): (p: int)
    ensures p >= 1
  {
    if n == 0 then 1 else 2 * PowerOfTwo(n - 1)
  }

  /** The n-th delay: base doubled n - 1 times, but never above a positive maximum. */
  function Delay(base: int, maximum: int, failures: int): int {
    if base <= 0 || failures <= 0 then 0
    else if maximum <= 0 then base
    else Min(base * PowerOfTwo(failures - 1), maximum)
  }

  lemma PowerStep(base: int, n: nat)
    ensures base * PowerOfTwo(n + 1) == 2 * (base * PowerOfTwo(n))
  {}

  lemma {:induction false} PowerMonotone(base: int, m: nat, n: nat)
    requires base >= 0 && m <= n
    ensures 0 <= base * PowerOfTwo(m) <= base * PowerOfTwo(n)
    decreases n
  {
    if m < n {
      PowerMonotone(base, m, n - 1);
      PowerStep(base, n - 1);
    }
  }

  /**
   The doubling loop. `peak` is the largest value the loop ever computes: it stays
   within the maximum, so the doubling cannot overflow a type that holds the maximum.
   */
  method BoundedExponentialBackoff(base: int, maximum: int, failures: int) returns (delay: int, ghost peak: int)
    ensures delay == Delay(base, maximum, failures)
    ensures peak <= Max(base, maximum) || peak == 0
  {
    hide PowerOfTwo;
    if base <= 0 || failures <= 0 { return 0, 0; }
    if maximum <= 0 { return base, base; }
    if base >= maximum {
      PowerMonotone(base, 0, failures - 1);
      PowerOfZero(base);
      return maximum, maximum;
    }
    PowerOfZero(base);
    delay, peak := base, base;
    var attempt := 1;
    while attempt < failures
      invariant 1 <= attempt <= failures
      invariant delay == base * PowerOfTwo(attempt - 1) && 0 < delay <= maximum && peak == delay
    {
      PowerStep(base, attempt - 1);
      if delay >= maximum || delay > maximum / 2 {
        if delay >= maximum {
          PowerMonotone(base, attempt - 1, failures - 1);
        } else {
          PowerMonotone(base, attempt, failures - 1);
        }
        return maximum, peak;
      }
      delay := delay * 2;
      peak := delay;
      attempt := attempt + 1;
    }
    if delay > maximum { return maximum, peak; }
  }

  lemma PowerOfZero(base: int)
    ensures base * PowerOfTwo(0) == base
  {}

  /** Later failures never wait less, and no delay exceeds a positive maximum. */
  lemma DelayMonotone(base: int, maximum: int, m: int, n: int)
    requires m <= n
    ensures Delay(base, maximum, m) <= Delay(base, maximum, n)
    ensures maximum > 0 ==> Delay(base, maximum, n) <= maximum
  {
    hide PowerOfTwo;
    if base > 0 && m > 0 { PowerMonotone(base, m - 1, n - 1); }
    if base > 0 && n > 0 { PowerMonotone(base, 0, n - 1); PowerOfZero(base); }
  }

  // ---------------------------------------------------------------------
  // Delays of the control plane

  const SUCCESS_INTERVAL: int := 60 * MINUTE

  const FAILURE_INTERVAL: int := 5 * MINUTE

  const RATE_LIMIT_BASE: int := 15 * MINUTE

  const RATE_LIMIT_MAXIMUM: int := 60 * MINUTE

  /** The next control-plane check; the jitter is fixed per profile. */
  function NextDelay(jitter: int, failures: int, rateLimited: bool): int {
    if failures <= 0 then SUCCESS_INTERVAL + jitter
    else if rateLimited then Delay(RATE_LIMIT_BASE, RATE_LIMIT_MAXIMUM, failures) + jitter
    else FAILURE_INTERVAL + jitter
  }

  lemma RateLimitDelayMonotone(jitter: int, m: int, n: int)
    requires 1 <= m <= n
    ensures NextDelay(jitter, m, true) <= NextDelay(jitter, n, true)
    ensures RATE_LIMIT_BASE <= NextDelay(jitter, m, true) - jitter <= RATE_LIMIT_MAXIMUM
  {
    hide Delay;
    DelayMonotone(RATE_LIMIT_BASE, RATE_LIMIT_MAXIMUM, m, n);
    DelayMonotone(RATE_LIMIT_BASE, RATE_LIMIT_MAXIMUM, 1, m);
    FirstDelay();
  }

  lemma FirstDelay()
    ensures Delay(RATE_LIMIT_BASE, RATE_LIMIT_MAXIMUM, 1) == RATE_LIMIT_BASE
  {
    PowerOfZero(RATE_LIMIT_BASE);
  }

  const EXIT_RETRY_BASE: int := MINUTE

  const EXIT_RETRY_MAXIMUM: int := 15 * MINUTE

  /** The pause after a worker exit: backoff plus jitter, within the maximum. */
  function ExitRetryDelay(jitter: int, failures: int): (delay: int) {
    var backoff := Delay(EXIT_RETRY_BASE, EXIT_RETRY_MAXIMUM, failures);
    if backoff == 0 then 0 else Min(backoff + jitter, EXIT_RETRY_MAXIMUM)
  }

  lemma ExitRetryMonotone(jitter: int, m: int, n: int)
    requires jitter >= 0 && m <= n
    ensures 0 <= ExitRetryDelay(jitter, m) <= ExitRetryDelay(jitter, n) <= EXIT_RETRY_MAXIMUM
  {
    hide Delay;
    DelayMonotone(EXIT_RETRY_BASE, EXIT_RETRY_MAXIMUM, m, n);
    DelayMonotone(EXIT_RETRY_BASE, EXIT_RETRY_MAXIMUM, Min(m, 0), m);
    NoFailureNoDelay(Min(m, 0));
  }

  lemma NoFailureNoDelay(failures: int)
    requires failures <= 0
    ensures Delay(EXIT_RETRY_BASE, EXIT_RETRY_MAXIMUM, failures) == 0
  {}
}
