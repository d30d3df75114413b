// The bank stage of every run (callBank in internal/service/payment.go over
// internal/service/resilience.go): the breaker decides whether the bank is called at all,
// the retry policy how often, and the outcome of each stage is what the breaker hears of.

module BankStage {
  import opened Domain
  import opened Database
  import opened CircuitBreaking
  import opened Retrying
  import opened Ledger
  import opened LedgerSafety

  // ---- The breaker in front of the bank ----

  /** The breaker turns requests away at time `now`. */
  predicate Shut(b: Breaker, now: int) {
    || (b.state == CircuitOpen && now - b.openedAt < b.resetTimeout)
    || (b.state == CircuitHalfOpen && b.halfOpenRunning)
  }

  /** Entering the bank stage while the breaker is shut fails the payment without a charge, else it is charged. */
  lemma AdmissionDecides(cfg: Config, w: World, call: Call, tx: Transaction, o: Oracle)
    ensures var (w', pc') := Advance(cfg, w, call, Admit(tx), o); var shut := Shut(w.breaker, w.now + o.elapsed);
            && pc' == (if shut then MarkFailed(tx, ErrCircuitOpen) else ChargeBank(tx, 1))
            && w'.charges == w.charges && w'.db == w.db && w'.now == w.now + o.elapsed
            && w'.rejected == (if shut then w.rejected + {tx.id} else w.rejected)
  {
  }

  /** This step is the admission of `id`, with the breaker shut, or open for it. */
  ghost predicate Admission(s: State, a: Action, id: TxId, shut: bool) {
    && a.Run? && a.r in s.reqs && s.reqs[a.r].pc.Admit? && s.reqs[a.r].pc.tx.id == id
    && Shut(s.world.breaker, s.world.now + a.o.elapsed) == shut
  }

  ghost predicate AdmittedBefore(states: seq<State>, actions: seq<Action>, i: nat, id: TxId, shut: bool) {
    exists k: nat :: k < i && k < |states| && k < |actions| && Admission(states[k], actions[k], id, shut)
  }

  lemma OthersRejectNobody(cfg: Config, w: World, call: Call, pc: Pc, o: Oracle)
    ensures !pc.Admit? ==> Advance(cfg, w, call, pc, o).0.rejected == w.rejected
  {
    hide CreateInDb, SettleInDb, Next;
  }

  lemma StepRejects(s: State, a: Action, s': State, id: TxId)
    requires Step(s, a, s')
    ensures id in s'.world.rejected <==> id in s.world.rejected || Admission(s, a, id, true)
  {
    hide Advance, Shut;
    if a.Run? {
      var Request(call, pc) := s.reqs[a.r];
      OthersRejectNobody(s.cfg, s.world, call, pc, a.o);
      if pc.Admit? {
        AdmissionDecides(s.cfg, s.world, call, pc.tx, a.o);
      }
    }
  }

  /** On every run the rejected transactions are those whose admission found the breaker shut. */
  lemma {:induction false} RejectedIffShut(states: seq<State>, actions: seq<Action>, i: nat, id: TxId)
    requires IsRun(states, actions) && i < |states|
    ensures id in states[i].world.rejected <==> AdmittedBefore(states, actions, i, id, true)
  {
    if i > 0 {
      hide Step, Admission, Init;
      RejectedIffShut(states, actions, i - 1, id);
      RunStep(states, actions, i - 1);
      hide IsRun;
      StepRejects(states[i - 1], actions[i - 1], states[i], id);
    }
  }

  /** The bank is never called for a payment that came while the breaker was shut, and it is never completed. */
  lemma NeverChargedWhenShut(states: seq<State>, actions: seq<Action>, i: nat, id: TxId)
    requires IsRun(states, actions) && i < |states| && AdmittedBefore(states, actions, i, id, true)
    ensures id !in states[i].world.charges || states[i].world.charges[id] == []
    ensures id in states[i].world.db.txns ==> states[i].world.db.txns[id].status !in {Completed, Refunded}
  {
    hide IsRun;
    RejectedIffShut(states, actions, i, id);
    InvOnRuns(states, actions, i);
    assert RowOk(RowOf(states[i].world, id), id, Attempts(states[i].cfg.maxAttempts));
  }

  /** A request that may call the bank, or has, was let through by the breaker. */
  ghost predicate CallersAdmitted(states: seq<State>, actions: seq<Action>, i: nat)
    requires i < |states|
  {
    && (forall r :: r in states[i].reqs && (states[i].reqs[r].pc.ChargeBank? || states[i].reqs[r].pc.Wait?) ==>
          AdmittedBefore(states, actions, i, states[i].reqs[r].pc.tx.id, false))
    && (forall id :: Log(states[i].world, id) != [] ==> AdmittedBefore(states, actions, i, id, false))
  }

  /** What leads to calling the bank, and what calls it. */
  lemma WhoCalls(cfg: Config, w: World, call: Call, pc: Pc, o: Oracle)
    ensures var (w', pc') := Advance(cfg, w, call, pc, o);
            && (pc'.ChargeBank? || pc'.Wait? ==>
                  (pc.Admit? || pc.ChargeBank? || pc.Wait?) && pc'.tx == pc.tx)
            && (w'.charges != w.charges ==> pc.ChargeBank? && forall id :: id != pc.tx.id ==> Log(w', id) == Log(w, id))
  {
    hide CreateInDb, SettleInDb, UpdateStatus, InsertEvent, InsertOutbox, Next, Validate;
  }

  lemma StepKeepsCallers(states: seq<State>, actions: seq<Action>, i: nat)
    requires IsRun(states, actions) && i < |actions| && CallersAdmitted(states, actions, i)
    ensures CallersAdmitted(states, actions, i + 1)
  {
    RunStep(states, actions, i);
    var s, a, s' := states[i], actions[i], states[i + 1];
    hide Advance, IsRun, Init;
    if a.Run? {
      RunAdmitted(states, actions, i);
    }
    hide Admission;
    forall r | r in s'.reqs && (s'.reqs[r].pc.ChargeBank? || s'.reqs[r].pc.Wait?)
      ensures AdmittedBefore(states, actions, i + 1, s'.reqs[r].pc.tx.id, false)
    {
      if !(a.Run? && r == a.r) {
        assert AdmittedBefore(states, actions, i, s.reqs[r].pc.tx.id, false);
      }
    }
    forall id | Log(s'.world, id) != [] ensures AdmittedBefore(states, actions, i + 1, id, false) {
      if Log(s.world, id) != [] {
        assert AdmittedBefore(states, actions, i, id, false);
      }
    }
  }

  /** The running request, if it is calling the bank after this step or was before it. */
  lemma RunAdmitted(states: seq<State>, actions: seq<Action>, i: nat)
    requires i < |actions| && i + 1 < |states| && CallersAdmitted(states, actions, i)
    requires Step(states[i], actions[i], states[i + 1]) && actions[i].Run?
    ensures var pc, pc' := states[i].reqs[actions[i].r].pc, states[i + 1].reqs[actions[i].r].pc;
            && (pc'.ChargeBank? || pc'.Wait? ==> AdmittedBefore(states, actions, i + 1, pc'.tx.id, false))
            && (states[i + 1].world.charges != states[i].world.charges ==>
                  && pc.ChargeBank? && AdmittedBefore(states, actions, i + 1, pc.tx.id, false)
                  && forall id :: id != pc.tx.id ==> Log(states[i + 1].world, id) == Log(states[i].world, id))
  {
    hide Advance, Admission;
    var s, a := states[i], actions[i];
    var Request(call, pc) := s.reqs[a.r];
    WhoCalls(s.cfg, s.world, call, pc, a.o);
    if pc.Admit? {
      AdmissionDecides(s.cfg, s.world, call, pc.tx, a.o);
      AdmissionFound(s, a);
      assert !Shut(s.world.breaker, s.world.now + a.o.elapsed) ==> Admission(states[i], actions[i], pc.tx.id, false);
    } else if pc.ChargeBank? || pc.Wait? {
      assert AdmittedBefore(states, actions, i, pc.tx.id, false);
    }
  }

  lemma AdmissionFound(s: State, a: Action)
    requires a.Run? && a.r in s.reqs && s.reqs[a.r].pc.Admit?
    ensures Admission(s, a, s.reqs[a.r].pc.tx.id, Shut(s.world.breaker, s.world.now + a.o.elapsed))
  {
  }

  lemma {:induction false} CallersOnRuns(states: seq<State>, actions: seq<Action>, i: nat)
    requires IsRun(states, actions) && i < |states|
    ensures CallersAdmitted(states, actions, i)
  {
    if i > 0 {
      hide CallersAdmitted, Step;
      CallersOnRuns(states, actions, i - 1);
      StepKeepsCallers(states, actions, i - 1);
    }
  }

  /** Whatever was charged was let through by a breaker that was not shut. */
  lemma ChargedOnlyIfLetThrough(states: seq<State>, actions: seq<Action>, i: nat, id: TxId)
    requires IsRun(states, actions) && i < |states|
    requires id in states[i].world.charges && states[i].world.charges[id] != []
    ensures AdmittedBefore(states, actions, i, id, false) && !AdmittedBefore(states, actions, i, id, true)
  {
    hide IsRun;
    CallersOnRuns(states, actions, i);
    if AdmittedBefore(states, actions, i, id, true) {
      NeverChargedWhenShut(states, actions, i, id);
    }
  }

  // ---- The ledger's breaker is the clocked breaker ----

  /** The critical section of the breaker that a step is, if it is one. */
  function SectionOf(s: State, a: Action): seq<Section> {
    if !a.Run? || a.r !in s.reqs then []
    else match s.reqs[a.r].pc
      case Admit(_) => [Before(s.world.now + a.o.elapsed)]
      case Report(_, outcome) => [After(s.world.now + a.o.elapsed, outcome.Some?)]
      case _ => []
  }

  ghost function Sections(states: seq<State>, actions: seq<Action>, i: nat): seq<Section>
    requires i < |states| && i <= |actions|
  {
    if i == 0 then [] else Sections(states, actions, i - 1) + SectionOf(states[i - 1], actions[i - 1])
  }

  /** The breaker at the start and after each of its critical sections. */
  ghost function Breakers(states: seq<State>, actions: seq<Action>, i: nat): seq<Breaker>
    requires i < |states| && i <= |actions|
  {
    if i == 0 then [states[0].world.breaker]
    else Breakers(states, actions, i - 1)
         + if SectionOf(states[i - 1], actions[i - 1]) == [] then [] else [states[i].world.breaker]
  }

  lemma OthersLeaveBreaker(cfg: Config, w: World, call: Call, pc: Pc, o: Oracle)
    ensures var w' := Advance(cfg, w, call, pc, o).0;
            !pc.Admit? && !pc.Report? ==> w'.breaker == w.breaker && w'.now == w.now
  {
    hide CreateInDb, SettleInDb, UpdateStatus, InsertEvent, InsertOutbox, Next, Validate;
  }

  lemma StepMovesBreaker(s: State, a: Action, s': State)
    requires Step(s, a, s')
    ensures if SectionOf(s, a) == [] then s'.world.breaker == s.world.breaker && s'.world.now == s.world.now
            else && s'.world.breaker == Next(s.world.breaker, SectionOf(s, a)[0])
                 && s'.world.now == SectionOf(s, a)[0].now >= s.world.now
  {
    hide Next;
    if a.Run? {
      var Request(call, pc) := s.reqs[a.r];
      if !pc.Admit? && !pc.Report? {
        hide Advance;
        OthersLeaveBreaker(s.cfg, s.world, call, pc, a.o);
      }
    }
  }

  lemma TraceGrows(bs: seq<Breaker>, es: seq<Section>, e: Section)
    requires IsTrace(bs, es) && forall k :: 0 <= k < |es| ==> es[k].now <= e.now
    ensures IsTrace(bs + [Next(bs[|es|], e)], es + [e])
  {
    hide Next;
    var bs', es' := bs + [Next(bs[|es|], e)], es + [e];
    forall k | 0 <= k < |es'| ensures bs'[k + 1] == Next(bs'[k], es'[k]) {
      assert k < |es| ==> es'[k] == es[k] && bs'[k] == bs[k] && bs'[k + 1] == bs[k + 1];
    }
    forall j, k | 0 <= j <= k < |es'| ensures es'[j].now <= es'[k].now {
      assert k < |es| ==> es'[j] == es[j] && es'[k] == es[k];
    }
  }

  /** The first `i` steps make a trace that ends in the ledger's breaker and no later than its clock. */
  ghost predicate Traced(states: seq<State>, actions: seq<Action>, i: nat)
    requires i < |states| && i <= |actions|
  {
    var bs, es := Breakers(states, actions, i), Sections(states, actions, i);
    && IsTrace(bs, es) && bs[0] == states[0].world.breaker && bs[|es|] == states[i].world.breaker
    && forall k :: 0 <= k < |es| ==> es[k].now <= states[i].world.now
  }

  lemma TracedAtStart(states: seq<State>, actions: seq<Action>, threshold: int, resetTimeout: int)
    requires |states| > 0 && states[0].world.breaker == NewBreaker(threshold, resetTimeout)
    ensures Traced(states, actions, 0)
  {
    assert Sections(states, actions, 0) == [];
  }

  lemma TracedOn(states: seq<State>, actions: seq<Action>, i: nat)
    requires i + 1 < |states| && i < |actions| && Traced(states, actions, i)
    requires Step(states[i], actions[i], states[i + 1])
    ensures Traced(states, actions, i + 1)
  {
    StepMovesBreaker(states[i], actions[i], states[i + 1]);
    AtMostOneSection(states[i], actions[i]);
    hide Step, Next, SectionOf;
    var bs, es, section := Breakers(states, actions, i), Sections(states, actions, i), SectionOf(states[i], actions[i]);
    if section == [] {
      assert Sections(states, actions, i + 1) == es && Breakers(states, actions, i + 1) == bs;
    } else {
      assert section == [section[0]];
      TraceGrows(bs, es, section[0]);
      hide IsTrace;
      assert Sections(states, actions, i + 1) == es + [section[0]];
      assert Breakers(states, actions, i + 1) == bs + [states[i + 1].world.breaker];
    }
  }

  /** On every run of a ledger with a new breaker, admissions and reports are a trace of the clocked breaker. */
  lemma {:induction false} BreakerFollowsTrace(states: seq<State>, actions: seq<Action>, i: nat,
                                               threshold: int, resetTimeout: int)
    requires IsRun(states, actions) && i < |states|
    requires states[0].world.breaker == NewBreaker(threshold, resetTimeout)
    ensures Traced(states, actions, i)
  {
    hide Traced, Step;
    if i == 0 {
      TracedAtStart(states, actions, threshold, resetTimeout);
    } else {
      BreakerFollowsTrace(states, actions, i - 1, threshold, resetTimeout);
      TracedOn(states, actions, i - 1);
    }
  }

  lemma AtMostOneSection(s: State, a: Action)
    ensures |SectionOf(s, a)| <= 1
  {
  }

  lemma {:induction false} TraceLengths(states: seq<State>, actions: seq<Action>, i: nat)
    requires i < |states| && i <= |actions|
    ensures |Breakers(states, actions, i)| == |Sections(states, actions, i)| + 1
    ensures Breakers(states, actions, i)[0] == states[0].world.breaker
  {
    hide SectionOf;
    if i > 0 {
      TraceLengths(states, actions, i - 1);
      AtMostOneSection(states[i - 1], actions[i - 1]);
    }
  }

  lemma {:induction false} TracePrefix(states: seq<State>, actions: seq<Action>, i: nat, j: nat)
    requires i <= j < |states| && j <= |actions|
    ensures Sections(states, actions, i) <= Sections(states, actions, j)
    ensures Breakers(states, actions, i) <= Breakers(states, actions, j)
    decreases j
  {
    hide SectionOf;
    if i < j {
      TracePrefix(states, actions, i, j - 1);
    }
  }

  /** Where the section that step `i` is stands in the trace of the first `j` steps. */
  lemma SectionInTrace(states: seq<State>, actions: seq<Action>, i: nat, j: nat, threshold: int, resetTimeout: int)
    requires IsRun(states, actions) && i < j < |states| && SectionOf(states[i], actions[i]) != []
    requires states[0].world.breaker == NewBreaker(threshold, resetTimeout)
    ensures var bs, es, n := Breakers(states, actions, j), Sections(states, actions, j), |Sections(states, actions, i)|;
            && n < |es| < |bs| && es[n] == SectionOf(states[i], actions[i])[0]
            && bs[n] == states[i].world.breaker && bs[n + 1] == states[i + 1].world.breaker
  {
    hide Init, Next, Step, SectionOf, IsTrace;
    BreakerFollowsTrace(states, actions, i, threshold, resetTimeout);
    BreakerFollowsTrace(states, actions, i + 1, threshold, resetTimeout);
    TracePrefix(states, actions, i, i + 1);
    TracePrefix(states, actions, i + 1, j);
    AtMostOneSection(states[i], actions[i]);
    TraceLengths(states, actions, i);
    TraceLengths(states, actions, i + 1);
    TraceLengths(states, actions, j);
  }

  /** Once the bank's failures have opened the breaker, at step `i`, no payment is let through to the bank for a whole
      resetTimeout, whatever requests come and whichever die. */
  lemma BankSpared(states: seq<State>, actions: seq<Action>, i: nat, j: nat, id: TxId,
                   threshold: int, resetTimeout: int)
    requires IsRun(states, actions) && i < j < |actions|
    requires states[0].world.breaker == NewBreaker(threshold, resetTimeout)
    requires states[i].world.breaker.state != CircuitOpen && states[i + 1].world.breaker.state == CircuitOpen
    requires Admission(states[j], actions[j], id, false)
    ensures states[j + 1].world.now >=
              states[i + 1].world.now + if resetTimeout > 0 then resetTimeout else 30_000_000_000
  {
    hide Step, Next, Admission, SectionOf, Sections, Breakers, IsTrace, Admits, Init;
    SectionsMoveClock(states, actions, i);
    SectionsMoveClock(states, actions, j);
    AdmissionIsSection(states[j], actions[j], id);
    SectionInTrace(states, actions, i, j + 1, threshold, resetTimeout);
    SectionInTrace(states, actions, j, j + 1, threshold, resetTimeout);
    BreakerFollowsTrace(states, actions, j + 1, threshold, resetTimeout);
    EarlierSection(states, actions, i, j);
    var bs, es := Breakers(states, actions, j + 1), Sections(states, actions, j + 1);
    OpenThenAdmitted(bs, es, |Sections(states, actions, i)|, |Sections(states, actions, j)|, threshold, resetTimeout);
  }

  lemma OpenThenAdmitted(bs: seq<Breaker>, es: seq<Section>, m: nat, n: nat, threshold: int, resetTimeout: int)
    requires IsTrace(bs, es) && bs[0] == NewBreaker(threshold, resetTimeout) && m < n < |es|
    requires bs[m].state != CircuitOpen && bs[m + 1].state == CircuitOpen
    requires es[n].Before? && Admits(bs[n], es[n].now)
    ensures es[n].now >= es[m].now + if resetTimeout > 0 then resetTimeout else 30_000_000_000
  {
    NothingAdmittedWhileOpen(bs, es, m, n);
  }

  lemma AdmissionIsSection(s: State, a: Action, id: TxId)
    requires Admission(s, a, id, false)
    ensures SectionOf(s, a) == [Before(s.world.now + a.o.elapsed)] && Admits(s.world.breaker, SectionOf(s, a)[0].now)
  {
  }

  lemma EarlierSection(states: seq<State>, actions: seq<Action>, i: nat, j: nat)
    requires i < j < |states| && j <= |actions| && SectionOf(states[i], actions[i]) != []
    ensures |Sections(states, actions, i)| < |Sections(states, actions, j)|
  {
    hide SectionOf;
    TracePrefix(states, actions, i + 1, j);
  }

  lemma SectionsMoveClock(states: seq<State>, actions: seq<Action>, i: nat)
    requires IsRun(states, actions) && i < |actions|
    ensures states[i + 1].world.breaker != states[i].world.breaker ==> SectionOf(states[i], actions[i]) != []
    ensures SectionOf(states[i], actions[i]) != [] ==>
              states[i + 1].world.now == SectionOf(states[i], actions[i])[0].now
  {
    RunStep(states, actions, i);
    StepMovesBreaker(states[i], actions[i], states[i + 1]);
  }

  /** What the breaker hears of a bank stage is true: a failure exactly when the last charge was not approved. */
  lemma ReportsAreTrue(states: seq<State>, actions: seq<Action>, i: nat)
    requires IsRun(states, actions) && i < |actions|
    requires actions[i].Run? && actions[i].r in states[i].reqs && states[i].reqs[actions[i].r].pc.Report?
    ensures var log := Log(states[i].world, states[i].reqs[actions[i].r].pc.tx.id);
            SectionOf(states[i], actions[i])
              == [After(states[i].world.now + actions[i].o.elapsed, !(log != [] && log[|log| - 1] == None))]
    ensures states[i + 1].world.breaker == Next(states[i].world.breaker, SectionOf(states[i], actions[i])[0])
  {
    hide Next, Step, Init;
    InvOnRuns(states, actions, i);
    RunStep(states, actions, i);
    hide IsRun, Inv;
    StepMovesBreaker(states[i], actions[i], states[i + 1]);
    ReportKnows(states[i], actions[i].r, states[0].world.db.merchants);
  }

  lemma ReportKnows(s: State, r: int, opening: map<MerchantId, Merchant>)
    requires Inv(s, opening) && r in s.reqs && s.reqs[r].pc.Report?
    ensures s.reqs[r].pc.outcome == None <==> Approved(Log(s.world, s.reqs[r].pc.tx.id))
  {
    hide Grounded, IndexOk, RowOk;
    assert PcOk(s.cfg, s.reqs[r].pc, RowOf(s.world, Subject(s.reqs[r].pc)));
  }

  // ---- How often the bank is called ----

  /** A charge is logged; a timeout or an unavailable bank is tried again, after a wait, until the cap is reached or
      the context ends; anything else ends the stage. */
  lemma RetriesUntilCap(cfg: Config, w: World, call: Call, tx: Transaction, attempt: nat, o: Oracle)
    ensures var (w', pc') := Advance(cfg, w, call, ChargeBank(tx, attempt), o);
            if o.ctxDone then w' == w && pc' == Report(tx, Some(ContextDone))
            else
              && w' == w.(charges := w.charges[tx.id := Log(w, tx.id) + [o.bank]])
              && match o.bank
                 case None => pc' == Report(tx, None)
                 case Some(e) =>
                   if e in {BankTimeout, BankUnavailable, DeadlineExceeded}
                      && attempt < if cfg.maxAttempts > 0 then cfg.maxAttempts else 1
                   then pc' == Wait(tx, attempt)
                   else pc' == Report(tx, Some(Bank(NormalizeBankError(o.parent, o.bankCtx, e))))
    ensures Advance(cfg, w, call, Wait(tx, attempt), o)
         == (w, if o.ctxDone then Report(tx, Some(ContextDone)) else ChargeBank(tx, attempt + 1))
  {
  }

  /** Why a payment is given up: the breaker was shut and the bank never called; or the context ended between charges
      worth retrying; or the last charge failed for good, or for the `n`-th time. */
  ghost predicate GivenUp(cause: Error, log: seq<Charge>, n: int) {
    match cause
    case ErrCircuitOpen => log == []
    case ContextDone =>
      forall i :: 0 <= i < |log| ==> log[i] in {Some(BankTimeout), Some(BankUnavailable), Some(DeadlineExceeded)}
    case Bank(e) =>
      && log != [] && (log[|log| - 1] == Some(e) || (e == BankTimeout && log[|log| - 1] == Some(DeadlineExceeded)))
      && (e in {BankTimeout, BankUnavailable, DeadlineExceeded} ==> |log| == n)
    case _ => false
  }

  /** What the request at `pc` will answer with is why its payment was given up. */
  ghost predicate CauseOk(cfg: Config, pc: Pc, log: seq<Charge>) {
    match pc
    case Report(_, outcome) => outcome.Some? ==> GivenUp(outcome.value, log, Attempts(cfg.maxAttempts))
    case MarkFailed(_, cause) => GivenUp(cause, log, Attempts(cfg.maxAttempts))
    case LogFailed(_, cause) => GivenUp(cause, log, Attempts(cfg.maxAttempts))
    case EmitFailed(_, cause) => GivenUp(cause, log, Attempts(cfg.maxAttempts))
    case _ => true
  }

  ghost predicate CausesOk(s: State) {
    forall r :: r in s.reqs ==> CauseOk(s.cfg, s.reqs[r].pc, Log(s.world, Subject(s.reqs[r].pc)))
  }

  lemma ChargeGivesCause(cfg: Config, w: World, call: Call, tx: Transaction, attempt: nat, o: Oracle)
    requires Ready(cfg, w, ChargeBank(tx, attempt))
    ensures var (w', pc') := Advance(cfg, w, call, ChargeBank(tx, attempt), o); CauseOk(cfg, pc', Log(w', tx.id))
  {
    RetriesUntilCap(cfg, w, call, tx, attempt, o);
  }

  lemma WaitGivesCause(cfg: Config, w: World, call: Call, tx: Transaction, attempt: nat, o: Oracle)
    requires Ready(cfg, w, Wait(tx, attempt))
    ensures var (w', pc') := Advance(cfg, w, call, Wait(tx, attempt), o);
            w' == w && CauseOk(cfg, pc', Log(w, tx.id))
  {
    RetriesUntilCap(cfg, w, call, tx, attempt, o);
  }

  lemma AdmitGivesCause(cfg: Config, w: World, call: Call, tx: Transaction, o: Oracle)
    requires Ready(cfg, w, Admit(tx))
    ensures var (w', pc') := Advance(cfg, w, call, Admit(tx), o);
            CauseOk(cfg, pc', Log(w', tx.id)) && (pc'.MarkFailed? || pc'.ChargeBank?)
  {
    hide Shut, Advance;
    AdmissionDecides(cfg, w, call, tx, o);
  }

  /** On the way from the bank's answer to the reply the cause and the charges stay as they are. */
  lemma CausePassedOn(cfg: Config, w: World, call: Call, pc: Pc, o: Oracle)
    ensures var (w', pc') := Advance(cfg, w, call, pc, o);
            && (!pc.ChargeBank? ==> w'.charges == w.charges)
            && (pc'.Report? ==> pc.ChargeBank? || pc.Wait?)
            && (pc'.MarkFailed? ==> pc.Admit? || pc == Report(pc'.tx, Some(pc'.cause)))
            && (pc'.LogFailed? ==> pc == MarkFailed(pc'.tx, pc'.cause))
            && (pc'.EmitFailed? ==> pc == LogFailed(pc'.tx, pc'.cause))
  {
    hide Next, CreateInDb, SettleInDb, UpdateStatus, InsertEvent, InsertOutbox, Validate, NormalizeBankError;
  }

  lemma RunnerGivesCause(cfg: Config, w: World, call: Call, pc: Pc, o: Oracle)
    requires Ready(cfg, w, pc) && CauseOk(cfg, pc, Log(w, Subject(pc)))
    ensures var (w', pc') := Advance(cfg, w, call, pc, o); CauseOk(cfg, pc', Log(w', Subject(pc')))
  {
    hide Advance, GivenUp, Ready;
    if pc.ChargeBank? {
      SameSubject(cfg, w, call, pc, o);
      ChargeGivesCause(cfg, w, call, pc.tx, pc.attempt, o);
    } else if pc.Wait? {
      SameSubject(cfg, w, call, pc, o);
      WaitGivesCause(cfg, w, call, pc.tx, pc.attempt, o);
    } else if pc.Admit? {
      SameSubject(cfg, w, call, pc, o);
      AdmitGivesCause(cfg, w, call, pc.tx, o);
    } else {
      CausePassedOn(cfg, w, call, pc, o);
    }
  }

  lemma SameSubject(cfg: Config, w: World, call: Call, pc: Pc, o: Oracle)
    requires pc.ChargeBank? || pc.Wait? || pc.Admit?
    ensures Subject(Advance(cfg, w, call, pc, o).1) == pc.tx.id
  {
  }

  lemma StepKeepsCauses(s: State, a: Action, s': State, opening: map<MerchantId, Merchant>)
    requires Inv(s, opening) && CausesOk(s) && Step(s, a, s')
    ensures CausesOk(s')
  {
    hide Advance, CauseOk, RowOk, PcOk, Grounded, IndexOk;
    if a.Run? {
      RunHasEffect(s, a, s', opening);
      RunnerGivesCause(s.cfg, s.world, s.reqs[a.r].call, s.reqs[a.r].pc, a.o);
      forall q | q in s'.reqs && q != a.r
        ensures CauseOk(s'.cfg, s'.reqs[q].pc, Log(s'.world, Subject(s'.reqs[q].pc)))
      {
        BystanderKeepsCause(s, a.r, s', opening, q);
      }
    } else {
      IdleHasNoCause(s, a, s');
    }
  }

  lemma IdleHasNoCause(s: State, a: Action, s': State)
    requires Step(s, a, s') && !a.Run? && CausesOk(s)
    ensures CausesOk(s')
  {
    hide Advance;
  }

  lemma BystanderKeepsCause(s: State, r: int, s': State, opening: map<MerchantId, Merchant>, q: int)
    requires Inv(s, opening) && Effect(s, r, s') && q in s.reqs && q != r
    requires CauseOk(s.cfg, s.reqs[q].pc, Log(s.world, Subject(s.reqs[q].pc)))
    ensures CauseOk(s.cfg, s.reqs[q].pc, Log(s'.world, Subject(s.reqs[q].pc)))
  {
    hide RowOk, PcOk, Grounded, IndexOk, Kept, GivenUp;
    var pc, other := s.reqs[q].pc, s.reqs[r].pc;
    assert MayCoexist(pc, other) && PcOk(s.cfg, pc, RowOf(s.world, Subject(pc)));
    if Owned(pc).Some? && !pc.RefundCommit? {
      OwnedRowExists(s.cfg, pc, RowOf(s.world, Subject(pc)));
      assert RowOf(s'.world, Subject(pc)) == RowOf(s.world, Subject(pc));
    }
  }

  lemma {:induction false} CausesOnRuns(states: seq<State>, actions: seq<Action>, i: nat)
    requires IsRun(states, actions) && i < |states|
    ensures CausesOk(states[i])
  {
    if i > 0 {
      hide Inv, Step, CausesOk, Init;
      CausesOnRuns(states, actions, i - 1);
      InvOnRuns(states, actions, i - 1);
      StepKeepsCauses(states[i - 1], actions[i - 1], states[i], states[0].world.db.merchants);
    }
  }

  /** The step that answers a failed payment. */
  lemma FailureAnswered(cfg: Config, w: World, call: Call, pc: Pc, o: Oracle)
    requires Ready(cfg, w, pc) && CauseOk(cfg, pc, Log(w, Subject(pc)))
    ensures var (w', pc') := Advance(cfg, w, call, pc, o);
            pc'.Replied? && !pc.Replied? && pc'.reply.tx.Some? && pc'.reply.err.Some?
            && pc'.reply.tx.value.status == Failed ==>
              && pc == EmitFailed(pc'.reply.tx.value.(status := Processing), pc'.reply.err.value)
              && w'.charges == w.charges
  {
    hide Next, CreateInDb, SettleInDb, Validate, NormalizeBankError, RowOk, GivenUp;
  }

  /** A payment answered FAILED was given up for the reason the answer names, and no sooner: a timeout or an unavailable
      bank only after all the charges the settings allow. */
  lemma FailedForAReason(states: seq<State>, actions: seq<Action>, i: nat, r: int)
    requires IsRun(states, actions) && i < |actions|
    requires r in states[i].reqs && !states[i].reqs[r].pc.Replied?
    requires r in states[i + 1].reqs && states[i + 1].reqs[r].pc.Replied?
    ensures var Reply(tx, err) := states[i + 1].reqs[r].pc.reply;
            tx.Some? && err.Some? && tx.value.status == Failed ==>
              GivenUp(err.value, Log(states[i + 1].world, tx.value.id),
                      if states[0].cfg.maxAttempts > 0 then states[0].cfg.maxAttempts else 1)
  {
    hide Advance, GivenUp, Ready, Init;
    CausesOnRuns(states, actions, i);
    InvOnRuns(states, actions, i);
    RunStep(states, actions, i);
    hide IsRun;
    var Request(call, pc) := states[i].reqs[r];
    assert Ready(states[i].cfg, states[i].world, pc) by { RequestReady(states[i], r, states[0].world.db.merchants); }
    FailureAnswered(states[i].cfg, states[i].world, call, pc, actions[i].o);
  }

  lemma RequestReady(s: State, r: int, opening: map<MerchantId, Merchant>)
    requires Inv(s, opening) && r in s.reqs
    ensures Ready(s.cfg, s.world, s.reqs[r].pc)
  {
    hide RowOk, PcOk, Grounded, IndexOk;
  }
}
