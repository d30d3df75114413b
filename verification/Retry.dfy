// Retrying the bank call (internal/service/resilience.go) and reading its
// outcome (callBank and its helpers in internal/service/payment.go).

module Retrying {
  import opened Domain

  /** What one bank.Charge call returned; None is a nil error, that is, an approval. */
  type Charge = Option<BankError>

  predicate Retryable(e: BankError) {
    e == BankTimeout || e == BankUnavailable || e == DeadlineExceeded
  }

  function Attempts(maxAttempts: int): (n: nat)
    ensures n >= 1
  {
    if maxAttempts <= 0 then 1 else maxAttempts
  }

  /** Every call before the last failed with a retryable error, and the cap is respected. */
  ghost predicate AttemptLog(log: seq<Charge>, max: nat) {
    && |log| <= max
    && forall i :: 0 <= i < |log| - 1 ==> log[i].Some? && Retryable(log[i].value)
  }

  ghost predicate AllRetryable(log: seq<Charge>) {
    forall i :: 0 <= i < |log| ==> log[i].Some? && Retryable(log[i].value)
  }

  predicate Approved(log: seq<Charge>) {
    |log| > 0 && log[|log| - 1] == None
  }

  // ---- Backoff arithmetic, in exact nanoseconds ----

  const INT64_MAX := 0x7fff_ffff_ffff_ffff
  const FLOAT_EXACT := 0x20_0000_0000_0000

  function Pow2(n: nat): (p: nat)
    ensures p >= 1
  {
    if n == 0 then 1 else 2 * Pow2(n - 1)
  }

  /** The float64 product is exact and the conversion to a Duration does not overflow. */
  predicate Exact(baseDelay: int, attempt: nat)
    requires attempt >= 1
  {
    0 < baseDelay < FLOAT_EXACT && baseDelay * Pow2(attempt - 1) <= INT64_MAX
  }

  lemma {:induction false} ExactBelow(baseDelay: int, a: nat, b: nat)
    requires 1 <= a <= b && Exact(baseDelay, b)
    ensures Exact(baseDelay, a) && baseDelay * Pow2(a - 1) <= baseDelay * Pow2(b - 1)
    decreases b - a
  {
    if a < b {
      assert Pow2(b - 1) == 2 * Pow2(b - 2);
      assert baseDelay * Pow2(b - 1) == 2 * (baseDelay * Pow2(b - 2));
      ExactBelow(baseDelay, a, b - 1);
    }
  }

  function Backoff(baseDelay: int, maxDelay: int, attempt: nat): int
    requires attempt >= 1 && Exact(baseDelay, attempt)
  {
    if baseDelay * Pow2(attempt - 1) > maxDelay then maxDelay else baseDelay * Pow2(attempt - 1)
  }

  function RetryDelay(baseDelay: int, maxDelay: int, jitter: int, attempt: nat, draw: int): (d: int)
    requires attempt >= 1 && Exact(baseDelay, attempt)
    requires jitter > 0 ==> 0 <= draw < jitter
    ensures Backoff(baseDelay, maxDelay, attempt) <= d
    ensures d <= Backoff(baseDelay, maxDelay, attempt) + if jitter > 0 then jitter - 1 else 0
  {
    var delay := Backoff(baseDelay, maxDelay, attempt);
    if jitter <= 0 then delay else delay + draw
  }

  /** Jitter spreads the delays over the whole range: each of them is drawn somehow, and only one way. */
  lemma EveryDelayDrawn(baseDelay: int, maxDelay: int, jitter: int, attempt: nat, d: int, draw: int)
    requires attempt >= 1 && Exact(baseDelay, attempt) && jitter > 0 && 0 <= draw < jitter
    requires Backoff(baseDelay, maxDelay, attempt) <= d < Backoff(baseDelay, maxDelay, attempt) + jitter
    ensures RetryDelay(baseDelay, maxDelay, jitter, attempt, draw) == d
       <==> draw == d - Backoff(baseDelay, maxDelay, attempt)
  {
  }

  function JitterCap(jitter: int): int {
    if jitter > 0 then jitter - 1 else 0
  }

  /** Sum of the pre-jitter delays slept between `n` attempts. */
  function BackoffTotal(baseDelay: int, maxDelay: int, n: nat): int
    requires n >= 2 ==> Exact(baseDelay, n - 1)
  {
    if n <= 1 then 0 else
      if n > 2 then ExactBelow(baseDelay, n - 2, n - 1);
        BackoffTotal(baseDelay, maxDelay, n - 1) + Backoff(baseDelay, maxDelay, n - 1)
      else Backoff(baseDelay, maxDelay, 1)
  }

  /** How many of the `n - 1` delays stay below the cap. */
  function BelowCap(baseDelay: int, maxDelay: int, n: nat): (k: nat)
    ensures k <= if n <= 1 then 0 else n - 1
  {
    if n <= 1 then 0
    else BelowCap(baseDelay, maxDelay, n - 1) + if baseDelay * Pow2(n - 2) < maxDelay then 1 else 0
  }

  lemma {:induction false} AllBelowCap(baseDelay: int, maxDelay: int, n: nat)
    requires n >= 2 && Exact(baseDelay, n - 1) && baseDelay * Pow2(n - 2) < maxDelay
    ensures BelowCap(baseDelay, maxDelay, n) == n - 1
  {
    if n > 2 {
      ExactBelow(baseDelay, n - 2, n - 1);
      AllBelowCap(baseDelay, maxDelay, n - 1);
    }
  }

  lemma {:induction false} DelaysNonDecreasing(baseDelay: int, maxDelay: int, a: nat, b: nat)
    requires 1 <= a <= b && Exact(baseDelay, b)
    ensures Exact(baseDelay, a) && Backoff(baseDelay, maxDelay, a) <= Backoff(baseDelay, maxDelay, b)
  {
    ExactBelow(baseDelay, a, b);
  }

  lemma Doubling(base: int, p: int)
    ensures base * (2 * p - 1) == base * (p - 1) + base * p
  {
  }

  lemma OneMoreCap(rest: int, maxDelay: int)
    ensures (rest + 1) * maxDelay == rest * maxDelay + maxDelay
  {
  }

  /** One more attempt doubles what was below the cap, or adds the cap once more. */
  lemma OneMoreDelay(baseDelay: int, maxDelay: int, n: nat)
    requires n >= 2 && Exact(baseDelay, n - 1)
    ensures var k, p := BelowCap(baseDelay, maxDelay, n), Pow2(n - 2);
            if baseDelay * p < maxDelay
            then k == n - 1 && BelowCap(baseDelay, maxDelay, n - 1) == n - 2 && Pow2(k) == 2 * p
                 && Backoff(baseDelay, maxDelay, n - 1) == baseDelay * p
            else k == BelowCap(baseDelay, maxDelay, n - 1) <= n - 2 && Backoff(baseDelay, maxDelay, n - 1) == maxDelay
  {
    if baseDelay * Pow2(n - 2) < maxDelay {
      AllBelowCap(baseDelay, maxDelay, n);
    }
  }

  lemma TotalStep(baseDelay: int, maxDelay: int, n: nat)
    requires n >= 2 && Exact(baseDelay, n - 1)
    ensures n > 2 ==> Exact(baseDelay, n - 2)
    ensures BackoffTotal(baseDelay, maxDelay, n)
         == BackoffTotal(baseDelay, maxDelay, n - 1) + Backoff(baseDelay, maxDelay, n - 1)
  {
    if n > 2 {
      ExactBelow(baseDelay, n - 2, n - 1);
    }
  }

  /** The closed form for `k` doubled delays, `p` their last power of two. */
  function ClosedForm(baseDelay: int, maxDelay: int, n: nat, k: nat, p: int): int {
    baseDelay * (p - 1) + (n - 1 - k) * maxDelay
  }

  lemma ClosedFormGrows(baseDelay: int, maxDelay: int, n: nat, k: nat, p: int)
    requires n >= 2
    ensures ClosedForm(baseDelay, maxDelay, n, n - 1, 2 * p)
         == ClosedForm(baseDelay, maxDelay, n - 1, n - 2, p) + baseDelay * p
    ensures ClosedForm(baseDelay, maxDelay, n, k, p) == ClosedForm(baseDelay, maxDelay, n - 1, k, p) + maxDelay
  {
    Doubling(baseDelay, p);
    OneMoreCap(n - 2 - k, maxDelay);
  }

  /** The delays double until they hit the cap and stay there. */
  lemma {:induction false} BackoffTotalClosedForm(baseDelay: int, maxDelay: int, n: nat)
    requires n >= 2 && Exact(baseDelay, n - 1)
    ensures var k := BelowCap(baseDelay, maxDelay, n);
            BackoffTotal(baseDelay, maxDelay, n) == baseDelay * (Pow2(k) - 1) + (n - 1 - k) * maxDelay
  {
    var k, before := BelowCap(baseDelay, maxDelay, n), BelowCap(baseDelay, maxDelay, n - 1);
    TotalStep(baseDelay, maxDelay, n);
    OneMoreDelay(baseDelay, maxDelay, n);
    if n > 2 {
      BackoffTotalClosedForm(baseDelay, maxDelay, n - 1);
    } else {
      NoDelayYet(baseDelay, maxDelay);
    }
    assert ClosedForm(baseDelay, maxDelay, n - 1, before, Pow2(before)) == BackoffTotal(baseDelay, maxDelay, n - 1);
    ClosedFormGrows(baseDelay, maxDelay, n, before, Pow2(before));
    hide Exact, Backoff, BackoffTotal, BelowCap, Pow2;
    assert ClosedForm(baseDelay, maxDelay, n, k, Pow2(k)) == BackoffTotal(baseDelay, maxDelay, n);
  }

  lemma NoDelayYet(baseDelay: int, maxDelay: int)
    ensures BackoffTotal(baseDelay, maxDelay, 1) == 0 == ClosedForm(baseDelay, maxDelay, 1, 0, Pow2(0))
    ensures BelowCap(baseDelay, maxDelay, 1) == 0
  {
  }

  function Sum(ds: seq<int>): int {
    if ds == [] then 0 else Sum(ds[..|ds| - 1]) + ds[|ds| - 1]
  }

  /** The delay after attempt `n` lies between its backoff and its backoff plus the jitter cap. */
  ghost predicate SleptAfter(d: int, n: nat, baseDelay: int, maxDelay: int, jitter: int)
    requires n >= 1
  {
    && Exact(baseDelay, n)
    && Backoff(baseDelay, maxDelay, n) <= d <= Backoff(baseDelay, maxDelay, n) + JitterCap(jitter)
  }

  ghost predicate Slept(delays: seq<int>, baseDelay: int, maxDelay: int, jitter: int) {
    forall a :: 0 <= a < |delays| ==> SleptAfter(delays[a], a + 1, baseDelay, maxDelay, jitter)
  }

  lemma SleptLast(delays: seq<int>, baseDelay: int, maxDelay: int, jitter: int)
    requires delays != [] && Slept(delays, baseDelay, maxDelay, jitter)
    ensures Exact(baseDelay, |delays|)
    ensures var before, after := BackoffTotal(baseDelay, maxDelay, |delays|),
        BackoffTotal(baseDelay, maxDelay, |delays| + 1);
            after <= before + delays[|delays| - 1] <= after + JitterCap(jitter)
  {
    assert SleptAfter(delays[|delays| - 1], |delays|, baseDelay, maxDelay, jitter);
    if |delays| > 1 {
      ExactBelow(baseDelay, |delays| - 1, |delays|);
    }
  }

  /** Jitter adds at most (n - 1) * max(0, jitter - 1) to the closed form. */
  lemma {:induction false} SleptTotal(delays: seq<int>, baseDelay: int, maxDelay: int, jitter: int)
    requires Slept(delays, baseDelay, maxDelay, jitter)
    ensures delays != [] ==> Exact(baseDelay, |delays|)
    ensures var total := BackoffTotal(baseDelay, maxDelay, |delays| + 1);
            total <= Sum(delays) <= total + |delays| * if jitter > 0 then jitter - 1 else 0
    decreases |delays|
  {
    if delays != [] {
      var n, cap := |delays| - 1, JitterCap(jitter);
      SleptLast(delays, baseDelay, maxDelay, jitter);
      SleptTotal(delays[..n], baseDelay, maxDelay, jitter);
      assert (n + 1) * cap == n * cap + cap;
    }
  }

  datatype RetryConfig = RetryConfig(maxAttempts: int, baseDelay: int, maxDelay: int, jitter: int)

  function BaseDelay(cfg: RetryConfig): int {
    if cfg.baseDelay <= 0 then 50_000_000 else cfg.baseDelay
  }

  function MaxDelay(cfg: RetryConfig): int {
    if cfg.maxDelay <= 0 then 1_000_000_000 else cfg.maxDelay
  }

  /** Every delay between the attempts is computed exactly. */
  predicate DelaysExact(cfg: RetryConfig) {
    var n := Attempts(cfg.maxAttempts);
    n >= 2 ==> Exact(BaseDelay(cfg), n - 1)
  }

  /** The state of a context when the bank call's error is read. */
  datatype Ctx = Live | CtxCanceled | CtxDeadline

  /** What one bank stage meets: when the breaker reads its clock, what each call answers, before which call the context
      has ended, after which it ends during the sleep, and what the contexts say at the end. Calls count from 0. */
  datatype Visit = Visit(asked: int, reported: int, answer: nat -> Charge, ended: nat -> bool, cut: nat -> bool,
                         parent: Ctx, bank: Ctx)

  /** `log` is what the calls of one stage of at most `n` calls answer: every call but the last failed with a failure
      worth retrying and the context was live before each, and the stage ends with a call that need not or must not be
      retried, or with the context. */
  ghost predicate Charges(log: seq<Charge>, visit: Visit, n: int) {
    && |log| <= n
    && (forall i :: 0 <= i < |log| ==> log[i] == visit.answer(i) && !visit.ended(i))
    && (forall i :: 0 <= i < |log| - 1 ==>
          log[i] in {Some(BankTimeout), Some(BankUnavailable), Some(DeadlineExceeded)} && !visit.cut(i))
    && (log == [] ==> visit.ended(0))
    && (0 < |log| < n && log[|log| - 1] in {Some(BankTimeout), Some(BankUnavailable), Some(DeadlineExceeded)} ==>
          visit.cut(|log| - 1) || visit.ended(|log|))
  }

  /** No two logs fit: what a stage meets decides what it does. */
  lemma ChargesDecided(a: seq<Charge>, b: seq<Charge>, visit: Visit, n: int)
    requires Charges(a, visit, n) && Charges(b, visit, n)
    ensures a == b
  {
    var k := if |a| < |b| then |a| else |b|;
    assert k > 0 ==> a[k - 1] == b[k - 1];
  }

  lemma {:induction false} Pow2Sum(a: nat, b: nat)
    ensures Pow2(a + b) == Pow2(a) * Pow2(b)
    decreases b
  {
    if b > 0 {
      Pow2Sum(a, b - 1);
      assert Pow2(a + b) == 2 * Pow2(a + (b - 1));
      var p, q := Pow2(a), Pow2(b - 1);
      assert 2 * (p * q) == p * (2 * q);
    }
  }

  lemma Pow2Of38()
    ensures Pow2(38) == 274_877_906_944 == 2 * Pow2(37)
  {
    assert Pow2(2) == 2 * Pow2(1) == 4 * Pow2(0);
    assert Pow2(4) == 2 * Pow2(3) == 4 * Pow2(2);
    assert Pow2(5) == 2 * Pow2(4);
    Pow2Sum(5, 5);
    Pow2Sum(10, 10);
    Pow2Sum(20, 10);
    Pow2Sum(30, 4);
    Pow2Sum(34, 4);
  }

  /** With the default base delay of 50 ms every delay is computed exactly if and only if at most 39 attempts are
      allowed; the 39th backoff would leave int64. */
  lemma DefaultDelaysExact(maxAttempts: int, maxDelay: int, jitter: int)
    ensures DelaysExact(RetryConfig(maxAttempts, 0, maxDelay, jitter)) <==> maxAttempts <= 39
  {
    Pow2Of38();
    var n := Attempts(maxAttempts);
    assert Exact(50_000_000, 38) && !Exact(50_000_000, 39);
    if 2 <= n <= 39 {
      ExactBelow(50_000_000, n - 1, 38);
    } else if n > 39 && Exact(50_000_000, n - 1) {
      ExactBelow(50_000_000, 39, n - 1);
    }
  }

  lemma NothingSlept(baseDelay: int, maxDelay: int, jitter: int)
    ensures Slept([], baseDelay, maxDelay, jitter)
  {
  }

  /** One more delay, drawn where all of them are exact. */
  lemma SleptMore(cfg: RetryConfig, delays: seq<int>, delay: int)
    requires DelaysExact(cfg) && |delays| + 1 < Attempts(cfg.maxAttempts)
    requires Slept(delays, BaseDelay(cfg), MaxDelay(cfg), cfg.jitter)
    requires Exact(BaseDelay(cfg), |delays| + 1) ==>
               SleptAfter(delay, |delays| + 1, BaseDelay(cfg), MaxDelay(cfg), cfg.jitter)
    ensures Slept(delays + [delay], BaseDelay(cfg), MaxDelay(cfg), cfg.jitter)
  {
    ExactBelow(BaseDelay(cfg), |delays| + 1, Attempts(cfg.maxAttempts) - 1);
    hide SleptAfter, Exact;
  }

  /** retryDelay with a fresh random draw. */
  method DrawDelay(baseDelay: int, maxDelay: int, jitter: int, attempt: nat) returns (delay: int)
    requires attempt >= 1
    ensures Exact(baseDelay, attempt) ==> SleptAfter(delay, attempt, baseDelay, maxDelay, jitter)
  {
    delay := *;
    if Exact(baseDelay, attempt) {
      var draw: int := 0;
      if jitter > 0 {
        draw :| 0 <= draw < jitter;
      }
      delay := RetryDelay(baseDelay, maxDelay, jitter, attempt, draw);
    }
  }

  /** The retry loop, whatever the calls answer and whenever the context ends. `log` lists what fn returned, `delays`
      what was slept (the last sleep may have been cut short).
      Where the float64 product is not exact or leaves int64, the delay is left open. */
  method Retry(cfg: RetryConfig, visit: Visit) returns (err: Option<Error>, log: seq<Charge>, delays: seq<int>)
    ensures Charges(log, visit, if cfg.maxAttempts > 0 then cfg.maxAttempts else 1)
    ensures err == None <==> log != [] && log[|log| - 1] == None
    ensures err == Some(ContextDone)
       <==> || log == []
            || (&& log[|log| - 1] in {Some(BankTimeout), Some(BankUnavailable), Some(DeadlineExceeded)}
                && |log| < if cfg.maxAttempts > 0 then cfg.maxAttempts else 1)
    ensures err.Some? && err.value != ContextDone ==>
              log != [] && log[|log| - 1].Some? && err.value == Bank(log[|log| - 1].value)
    ensures |delays| <= |log| <= |delays| + 1
    ensures |delays| < if cfg.maxAttempts > 0 then cfg.maxAttempts else 1
    ensures DelaysExact(cfg) ==>
              Slept(delays, if cfg.baseDelay > 0 then cfg.baseDelay else 50_000_000,
                    if cfg.maxDelay > 0 then cfg.maxDelay else 1_000_000_000, cfg.jitter)
  {
    hide Slept, SleptAfter, DelaysExact, Exact;
    var maxAttempts := Attempts(cfg.maxAttempts);
    var baseDelay := BaseDelay(cfg);
    var maxDelay := MaxDelay(cfg);
    NothingSlept(baseDelay, maxDelay, cfg.jitter);
    log, delays := [], [];
    var attempt := 1;
    while attempt <= maxAttempts
      invariant 1 <= attempt <= maxAttempts
      invariant |log| == |delays| == attempt - 1
      invariant forall i :: 0 <= i < |log| ==>
        log[i] == visit.answer(i) && !visit.ended(i) && !visit.cut(i) && log[i].Some? && Retryable(log[i].value)
      invariant DelaysExact(cfg) ==> Slept(delays, baseDelay, maxDelay, cfg.jitter)
    {
      if visit.ended(attempt - 1) {
        return Some(ContextDone), log, delays;
      }
      var result := visit.answer(attempt - 1);
      log := log + [result];
      if result == None {
        return None, log, delays;
      }
      if attempt == maxAttempts || !Retryable(result.value) {
        return Some(Bank(result.value)), log, delays;
      }
      var delay := DrawDelay(baseDelay, maxDelay, cfg.jitter, attempt);
      if DelaysExact(cfg) {
        SleptMore(cfg, delays, delay);
      }
      delays := delays + [delay];
      if visit.cut(attempt - 1) {
        return Some(ContextDone), log, delays;
      }
      attempt := attempt + 1;
    }
    assert false;
    err := None;
  }

  function NormalizeBankError(parent: Ctx, bank: Ctx, err: BankError): BankError {
    if err == Canceled && parent == CtxCanceled then Canceled
    else if err == DeadlineExceeded && parent == CtxDeadline then DeadlineExceeded
    else if err == DeadlineExceeded && bank == CtxDeadline then BankTimeout
    else err
  }

  /** Only a deadline of the bank call alone is rewritten: when the caller's own had not passed, it reads as a timeout
      of the bank. Every other error is the bank's own. */
  lemma NormalizedError(parent: Ctx, bank: Ctx, err: BankError)
    ensures var e := NormalizeBankError(parent, bank, err);
            && (e == BankTimeout <==>
                  err == BankTimeout || (err == DeadlineExceeded && bank == CtxDeadline && parent != CtxDeadline))
            && (e == DeadlineExceeded <==> err == DeadlineExceeded && (bank == CtxDeadline ==> parent == CtxDeadline))
            && (e != BankTimeout ==> e == err)
  {
  }
}
