// The circuit breaker of internal/service/resilience.go: a clocked state machine
// whose admission (beforeRequest) and report (afterRequest) are separate critical
// sections, so a call admitted in one state may report in another.

module CircuitBreaking {

  datatype CircuitState = CircuitClosed | CircuitOpen | CircuitHalfOpen

  /** The fields of the breaker, as a value. Times are nanoseconds. */
  datatype Breaker = Breaker(
    state: CircuitState, failures: nat, threshold: int, resetTimeout: int,
    openedAt: int, halfOpenRunning: bool)

  function NewBreaker(threshold: int, resetTimeout: int): Breaker {
    Breaker(CircuitClosed, 0,
            if threshold <= 0 then 3 else threshold,
            if resetTimeout <= 0 then 30_000_000_000 else resetTimeout,
            0, false)
  }

  /** One critical section of the breaker, at the clock reading it took. */
  datatype Section = Before(now: int) | After(now: int, failed: bool) | Query(now: int)

  predicate Cooled(b: Breaker, now: int) {
    now - b.openedAt >= b.resetTimeout
  }

  predicate Admits(b: Breaker, now: int) {
    match b.state
    case CircuitClosed => true
    case CircuitOpen => Cooled(b, now)
    case CircuitHalfOpen => !b.halfOpenRunning
  }

  function AfterBefore(b: Breaker, now: int): Breaker {
    if !Admits(b, now) || b.state == CircuitClosed then b
    else b.(state := CircuitHalfOpen, halfOpenRunning := true,
            failures := if b.state == CircuitOpen then 0 else b.failures)
  }

  function AfterReport(b: Breaker, now: int, failed: bool): Breaker {
    match b.state
    case CircuitOpen => b
    case CircuitClosed =>
      if !failed then b.(failures := 0)
      else if b.failures + 1 >= b.threshold then b.(failures := b.failures + 1, state := CircuitOpen, openedAt := now)
      else b.(failures := b.failures + 1)
    case CircuitHalfOpen =>
      if failed then b.(halfOpenRunning := false, state := CircuitOpen, openedAt := now)
      else b.(halfOpenRunning := false, state := CircuitClosed, failures := 0)
  }

  function Next(b: Breaker, e: Section): Breaker {
    match e
    case Before(now) => AfterBefore(b, now)
    case After(now, failed) => AfterReport(b, now, failed)
    case Query(now) => if b.state == CircuitOpen && Cooled(b, now) then b.(state := CircuitHalfOpen) else b
  }

  class CircuitBreaker {
    var state: CircuitState
    var failures: nat
    var threshold: int
    var resetTimeout: int
    var openedAt: int
    var halfOpenRunning: bool

    ghost function View(): Breaker
      reads this
    {
      Breaker(state, failures, threshold, resetTimeout, openedAt, halfOpenRunning)
    }

    constructor (threshold: int, resetTimeout: int)
      ensures View() == NewBreaker(threshold, resetTimeout)
    {
      this.threshold := if threshold <= 0 then 3 else threshold;
      this.resetTimeout := if resetTimeout <= 0 then 30_000_000_000 else resetTimeout;
      state, failures, openedAt, halfOpenRunning := CircuitClosed, 0, 0, false;
    }

    method BeforeRequest(now: int) returns (rejected: bool)
      modifies this
      ensures rejected <==> !Admits(old(View()), now)
      ensures View() == Next(old(View()), Before(now))
    {
      rejected := false;
      match state {
        case CircuitClosed =>
        case CircuitOpen =>
          if now - openedAt < resetTimeout {
            return true;
          }
          state := CircuitHalfOpen;
          failures := 0;
          halfOpenRunning := true;
        case CircuitHalfOpen =>
          if halfOpenRunning {
            return true;
          }
          halfOpenRunning := true;
      }
    }

    method AfterRequest(failed: bool, now: int)
      modifies this
      ensures View() == Next(old(View()), After(now, failed))
    {
      match state {
        case CircuitClosed =>
          if !failed {
            failures := 0;
            return;
          }
          failures := failures + 1;
          if failures >= threshold {
            state := CircuitOpen;
            openedAt := now;
          }
        case CircuitHalfOpen =>
          halfOpenRunning := false;
          if !failed {
            state := CircuitClosed;
            failures := 0;
            return;
          }
          state := CircuitOpen;
          openedAt := now;
        case CircuitOpen =>
      }
    }

    method State(now: int) returns (s: CircuitState)
      modifies this
      ensures View() == Next(old(View()), Query(now)) && s == View().state
    {
      if state == CircuitOpen && now - openedAt >= resetTimeout {
        state := CircuitHalfOpen;
      }
      s := state;
    }
  }

  // ---- Runs: any interleaving of critical sections, reports unmatched or late ----

  ghost predicate IsTrace(states: seq<Breaker>, steps: seq<Section>) {
    && |states| == |steps| + 1
    && states[0].state == CircuitClosed && states[0].failures == 0 && !states[0].halfOpenRunning
    && states[0].threshold > 0 && states[0].resetTimeout > 0
    && (forall i :: 0 <= i < |steps| ==> states[i + 1] == Next(states[i], steps[i]))
    && (forall i, j :: 0 <= i <= j < |steps| ==> steps[i].now <= steps[j].now)
  }

  /** The `i`-th step is a beforeRequest that let its caller through. */
  ghost predicate Admitted(states: seq<Breaker>, steps: seq<Section>, i: nat)
    requires IsTrace(states, steps)
  {
    i < |steps| && steps[i].Before? && Admits(states[i], steps[i].now)
  }

  lemma {:induction false} ConfigFixed(states: seq<Breaker>, steps: seq<Section>, k: nat)
    requires IsTrace(states, steps) && k <= |steps|
    ensures states[k].threshold == states[0].threshold && states[k].resetTimeout == states[0].resetTimeout
  {
    if k > 0 {
      ConfigFixed(states, steps, k - 1);
      assert states[k] == Next(states[k - 1], steps[k - 1]);
    }
  }

  lemma {:induction false} RunningMeansHalfOpen(states: seq<Breaker>, steps: seq<Section>, k: nat)
    requires IsTrace(states, steps) && k <= |steps|
    ensures states[k].halfOpenRunning ==> states[k].state == CircuitHalfOpen
  {
    if k > 0 {
      RunningMeansHalfOpen(states, steps, k - 1);
      assert states[k] == Next(states[k - 1], steps[k - 1]);
    }
  }

  /** After the breaker opens at step `i` it is still open since then, or the cool-down has passed. */
  lemma {:induction false} OpenUntilCooled(states: seq<Breaker>, steps: seq<Section>, i: nat, k: nat)
    requires IsTrace(states, steps) && i < k <= |steps|
    requires states[i].state != CircuitOpen && states[i + 1].state == CircuitOpen
    ensures || (states[k].state == CircuitOpen && states[k].openedAt == steps[i].now)
            || steps[k - 1].now >= steps[i].now + states[0].resetTimeout
  {
    ConfigFixed(states, steps, k - 1);
    assert states[k] == Next(states[k - 1], steps[k - 1]);
    if k > i + 1 {
      OpenUntilCooled(states, steps, i, k - 1);
      assert steps[k - 2].now <= steps[k - 1].now;
    }
  }

  /** Once the breaker opens, nothing at all is admitted for a whole resetTimeout. */
  lemma NothingAdmittedWhileOpen(states: seq<Breaker>, steps: seq<Section>, i: nat, j: nat)
    requires IsTrace(states, steps) && i < j && Admitted(states, steps, j)
    requires states[i].state != CircuitOpen && states[i + 1].state == CircuitOpen
    ensures steps[j].now >= steps[i].now + states[0].resetTimeout
  {
    ConfigFixed(states, steps, j);
    OpenUntilCooled(states, steps, i, j);
  }

  /** Until CLOSED is seen again, a half-open admission is still running, or its failure re-opened the breaker. */
  lemma {:induction false} SinceAdmission(states: seq<Breaker>, steps: seq<Section>, i: nat, k: nat)
    requires IsTrace(states, steps) && i < k <= |steps|
    requires Admitted(states, steps, i) && states[i + 1].state == CircuitHalfOpen
    requires forall m :: i < m <= k ==> states[m].state != CircuitClosed
    ensures || (states[k].state == CircuitHalfOpen && states[k].halfOpenRunning)
            || (states[k].openedAt >= steps[i].now
                && (states[k].state == CircuitOpen
                    || steps[k - 1].now >= steps[i].now + states[0].resetTimeout))
  {
    ConfigFixed(states, steps, k - 1);
    assert states[k] == Next(states[k - 1], steps[k - 1]);
    if k > i + 1 {
      SinceAdmission(states, steps, i, k - 1);
      assert steps[k - 2].now <= steps[k - 1].now;
      assert steps[i].now <= steps[k - 1].now;
    }
  }

  /** Admissions of successive HALF_OPEN periods, no CLOSED between, are a resetTimeout apart. */
  lemma HalfOpenAdmissionsSpaced(states: seq<Breaker>, steps: seq<Section>, i: nat, j: nat)
    requires IsTrace(states, steps) && i < j
    requires Admitted(states, steps, i) && states[i + 1].state == CircuitHalfOpen
    requires Admitted(states, steps, j)
    requires forall m :: i < m <= j ==> states[m].state != CircuitClosed
    ensures steps[j].now >= steps[i].now + states[0].resetTimeout
  {
    ConfigFixed(states, steps, j);
    SinceAdmission(states, steps, i, j);
    assert steps[j - 1].now <= steps[j].now;
  }

  lemma {:induction false} StillRunning(states: seq<Breaker>, steps: seq<Section>, i: nat, k: nat)
    requires IsTrace(states, steps) && i < k <= |steps|
    requires Admitted(states, steps, i)
    requires forall m :: i < m <= k ==> states[m].state == CircuitHalfOpen
    ensures states[k].halfOpenRunning
  {
    assert states[k] == Next(states[k - 1], steps[k - 1]);
    if k > i + 1 {
      StillRunning(states, steps, i, k - 1);
    }
  }

  /** One HALF_OPEN period admits at most one request. */
  lemma OneAdmissionPerHalfOpenPeriod(states: seq<Breaker>, steps: seq<Section>, i: nat, j: nat)
    requires IsTrace(states, steps) && i < j <= |steps|
    requires Admitted(states, steps, i)
    requires forall m :: i < m <= j ==> states[m].state == CircuitHalfOpen
    ensures !Admitted(states, steps, j)
  {
    StillRunning(states, steps, i, j);
  }

  ghost predicate Opens(states: seq<Breaker>, i: nat)
    requires i + 1 < |states|
  {
    states[i].state != CircuitOpen && states[i + 1].state == CircuitOpen
  }

  /** Before step `k`: step `i` was admitted, and the breaker has been HALF_OPEN ever since. */
  ghost predicate ProbeUnderWay(states: seq<Breaker>, steps: seq<Section>, i: nat, k: nat)
    requires IsTrace(states, steps) && k <= |steps|
  {
    i < k && Admitted(states, steps, i) && forall m :: i < m <= k ==> states[m].state == CircuitHalfOpen
  }

  lemma {:induction false} OpenSince(states: seq<Breaker>, steps: seq<Section>, k: nat) returns (i: nat)
    requires IsTrace(states, steps) && k <= |steps| && states[k].state == CircuitOpen
    ensures i < k && Opens(states, i) && states[k].openedAt == steps[i].now
  {
    assert states[k] == Next(states[k - 1], steps[k - 1]);
    if states[k - 1].state == CircuitOpen {
      i := OpenSince(states, steps, k - 1);
    } else {
      i := k - 1;
    }
  }

  lemma {:induction false} RunningSince(states: seq<Breaker>, steps: seq<Section>, k: nat) returns (i: nat)
    requires IsTrace(states, steps) && k <= |steps| && states[k].halfOpenRunning
    ensures ProbeUnderWay(states, steps, i, k)
  {
    RunningMeansHalfOpen(states, steps, k);
    RunningMeansHalfOpen(states, steps, k - 1);
    assert states[k] == Next(states[k - 1], steps[k - 1]);
    if states[k - 1].halfOpenRunning {
      i := RunningSince(states, steps, k - 1);
    } else {
      i := k - 1;
    }
  }

  /** A request is turned away exactly when the breaker opened less than resetTimeout ago or a
      half-open probe has not been reported yet: it protects, and it recovers once the probe reports. */
  lemma RejectedIffOpenOrProbing(states: seq<Breaker>, steps: seq<Section>, j: nat)
    requires IsTrace(states, steps) && j < |steps| && steps[j].Before?
    ensures !Admitted(states, steps, j) <==>
              || (exists i: nat :: i < j && Opens(states, i) && steps[j].now < steps[i].now + states[0].resetTimeout)
              || (exists i: nat :: ProbeUnderWay(states, steps, i, j))
  {
    ConfigFixed(states, steps, j);
    if !Admitted(states, steps, j) {
      if states[j].state == CircuitOpen {
        var i := OpenSince(states, steps, j);
        assert Opens(states, i);
      } else {
        var i := RunningSince(states, steps, j);
        assert ProbeUnderWay(states, steps, i, j);
      }
    } else {
      forall i: nat | i < j && Opens(states, i) ensures steps[j].now >= steps[i].now + states[0].resetTimeout {
        NothingAdmittedWhileOpen(states, steps, i, j);
      }
      forall i: nat | ProbeUnderWay(states, steps, i, j) ensures false {
        OneAdmissionPerHalfOpenPeriod(states, steps, i, j);
      }
    }
  }

  /** Consecutive failed reports at the end of the current CLOSED period; 0 outside CLOSED. */
  ghost function Streak(states: seq<Breaker>, steps: seq<Section>, k: nat): nat
    requires IsTrace(states, steps) && k <= |steps|
  {
    if k == 0 || states[k].state != CircuitClosed || states[k - 1].state != CircuitClosed then 0
    else match steps[k - 1]
      case After(_, failed) => if failed then Streak(states, steps, k - 1) + 1 else 0
      case _ => Streak(states, steps, k - 1)
  }

  lemma {:induction false} FailuresCountStreak(states: seq<Breaker>, steps: seq<Section>, k: nat)
    requires IsTrace(states, steps) && k <= |steps| && states[k].state == CircuitClosed
    ensures states[k].failures == Streak(states, steps, k) < states[0].threshold
  {
    if k > 0 {
      ConfigFixed(states, steps, k - 1);
      assert states[k] == Next(states[k - 1], steps[k - 1]);
      if states[k - 1].state == CircuitClosed {
        FailuresCountStreak(states, steps, k - 1);
      }
    }
  }

  /** CLOSED turns OPEN exactly on the threshold-th consecutive failed report of its period. */
  lemma OpensExactlyAtThreshold(states: seq<Breaker>, steps: seq<Section>, k: nat)
    requires IsTrace(states, steps) && k < |steps| && states[k].state == CircuitClosed
    ensures states[k + 1].state == CircuitOpen
       <==> (steps[k].After? && steps[k].failed && Streak(states, steps, k) + 1 == states[0].threshold)
  {
    ConfigFixed(states, steps, k);
    FailuresCountStreak(states, steps, k);
  }

  // ---- Recovery ----

  /** A report in HALF_OPEN decides: a failed one opens the breaker again from now on, a good one closes it. */
  lemma ProbeDecides(states: seq<Breaker>, steps: seq<Section>, k: nat)
    requires IsTrace(states, steps) && k < |steps| && states[k].state == CircuitHalfOpen && steps[k].After?
    ensures steps[k].failed ==> states[k + 1].state == CircuitOpen && states[k + 1].openedAt == steps[k].now
    ensures !steps[k].failed ==> states[k + 1].state == CircuitClosed && states[k + 1].failures == 0
    ensures !states[k + 1].halfOpenRunning
  {
    assert states[k + 1] == Next(states[k], steps[k]);
  }

  /** Failed reports from step `i` up to and not including step `j`. */
  function FailedReports(steps: seq<Section>, i: nat, j: nat): nat
    requires i <= j <= |steps|
    decreases j
  {
    if i == j then 0
    else FailedReports(steps, i, j - 1) + if steps[j - 1].After? && steps[j - 1].failed then 1 else 0
  }

  lemma {:induction false} ClosedUntilThreshold(states: seq<Breaker>, steps: seq<Section>, k: nat, m: nat)
    requires IsTrace(states, steps) && k <= m <= |steps|
    requires states[k].state == CircuitClosed && states[k].failures == 0
    requires FailedReports(steps, k, m) < states[0].threshold
    ensures states[m].state == CircuitClosed && states[m].failures <= FailedReports(steps, k, m)
    decreases m
  {
    if k < m {
      ClosedUntilThreshold(states, steps, k, m - 1);
      ConfigFixed(states, steps, m - 1);
      assert states[m] == Next(states[m - 1], steps[m - 1]);
    }
  }

  /** After a good report in HALF_OPEN every request is admitted until as many reports have failed as the threshold. */
  lemma RecoversAfterGoodProbe(states: seq<Breaker>, steps: seq<Section>, k: nat, j: nat)
    requires IsTrace(states, steps) && k < j < |steps| && steps[j].Before?
    requires states[k].state == CircuitHalfOpen && steps[k].After? && !steps[k].failed
    requires FailedReports(steps, k + 1, j) < states[0].threshold
    ensures Admitted(states, steps, j)
  {
    ProbeDecides(states, steps, k);
    ClosedUntilThreshold(states, steps, k + 1, j);
  }

  /** After a failed report in HALF_OPEN nothing is admitted for a whole resetTimeout. */
  lemma HoldsOffAfterFailedProbe(states: seq<Breaker>, steps: seq<Section>, k: nat, j: nat)
    requires IsTrace(states, steps) && k < j && Admitted(states, steps, j)
    requires states[k].state == CircuitHalfOpen && steps[k].After? && steps[k].failed
    ensures steps[j].now >= steps[k].now + states[0].resetTimeout
  {
    ProbeDecides(states, steps, k);
    NothingAdmittedWhileOpen(states, steps, k, j);
  }

  /** Reading the state answers OPEN exactly while the breaker opened less than resetTimeout ago, and CLOSED exactly
      when it is; and it never changes what a request is told from then on. */
  lemma QueryIsHarmless(states: seq<Breaker>, steps: seq<Section>, k: nat)
    requires IsTrace(states, steps) && k < |steps| && steps[k].Query?
    ensures states[k + 1].state == CircuitOpen
       <==> exists i: nat :: i < k && Opens(states, i) && steps[k].now < steps[i].now + states[0].resetTimeout
    ensures states[k + 1].state == CircuitClosed <==> states[k].state == CircuitClosed
    ensures forall now :: now >= steps[k].now ==> (Admits(states[k + 1], now) <==> Admits(states[k], now))
  {
    assert states[k + 1] == Next(states[k], steps[k]);
    ConfigFixed(states, steps, k);
    RunningMeansHalfOpen(states, steps, k);
    if states[k].state == CircuitOpen {
      var i := OpenSince(states, steps, k);
      assert Opens(states, i);
    }
    forall i: nat | i < k && Opens(states, i) && steps[k].now < steps[i].now + states[0].resetTimeout
      ensures states[k].state == CircuitOpen && states[k].openedAt == steps[i].now
    {
      OpenUntilCooled(states, steps, i, k);
      assert steps[k - 1].now <= steps[k].now;
    }
  }

  /** The settings in force: a non-positive threshold means 3 failures, a non-positive timeout 30 seconds. */
  lemma SettingsInForce(states: seq<Breaker>, steps: seq<Section>, threshold: int, resetTimeout: int, k: nat, j: nat)
    requires IsTrace(states, steps) && states[0] == NewBreaker(threshold, resetTimeout)
    requires k < |steps| && states[k].state == CircuitClosed
    ensures states[k + 1].state == CircuitOpen
       <==> && steps[k].After? && steps[k].failed
            && Streak(states, steps, k) == (if threshold > 0 then threshold else 3) - 1
    ensures states[k + 1].state == CircuitOpen && k < j && Admitted(states, steps, j) ==>
              steps[j].now >= steps[k].now + if resetTimeout > 0 then resetTimeout else 30_000_000_000
  {
    OpensExactlyAtThreshold(states, steps, k);
    if states[k + 1].state == CircuitOpen && k < j && Admitted(states, steps, j) {
      NothingAdmittedWhileOpen(states, steps, k, j);
    }
  }
}
