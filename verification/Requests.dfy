// What each request is told, and what an answer says about the tables: a repeated request
// gets its stored transaction, a refusal has written nothing, a failed payment is answered
// with what is stored, and every request that goes on running is answered
// (internal/service/payment.go).

module Requests {
  import opened Domain
  import opened Database
  import opened CircuitBreaking
  import opened Retrying
  import opened Ledger
  import opened LedgerSafety
  import opened Answers
  import opened BankStage

  /** Request `r` takes this step, at `pc`, and its context is live. */
  ghost predicate TakesStep(s: State, a: Action, r: int, pc: Pc) {
    a.Run? && a.r == r && r in s.reqs && s.reqs[r].pc == pc && !a.o.ctxDone
  }

  // ---- The idempotency check ----

  /** What the check finds is a matter of the rows, not of the index: with a key, and nothing failing, the request is
      answered with the stored row of its key when the four fields match, refused when one of them does not, and goes on
      exactly when no row has the key. Nothing is written. */
  lemma CheckKeyDecides(states: seq<State>, actions: seq<Action>, i: nat, r: int)
    requires IsRun(states, actions) && i < |actions| && TakesStep(states[i], actions[i], r, CheckKey)
    requires states[i].reqs[r].call.Create? && states[i].reqs[r].call.input.key != "" && !actions[i].o.fault
    ensures r in states[i + 1].reqs && states[i + 1].world == states[i].world
    ensures var txns, input, pc' := states[i].world.db.txns, states[i].reqs[r].call.input, states[i + 1].reqs[r].pc;
            && (forall id :: id in txns && txns[id].idempotencyKey == input.key ==>
                  pc' == if && txns[id].merchantId == input.merchantId && txns[id].amountCents == input.amountCents
                            && txns[id].currency == input.currency && txns[id].description == input.description
                         then Replied(Reply(Some(txns[id]), None))
                         else Replied(Reply(None, Some(DuplicateTransaction))))
            && (pc' == Lookup <==> forall id :: id in txns ==> txns[id].idempotencyKey != input.key)
  {
    hide Grounded, RowOk, PcOk;
    InvOnRuns(states, actions, i);
    RunStep(states, actions, i);
    hide IsRun;
    assert IndexOk(states[i].world.db);
    KeyFound(states[i].world.db, states[i].reqs[r].call.input.key);
  }

  lemma KeyFound(db: Db, key: string)
    requires IndexOk(db) && key != ""
    ensures forall id :: id in db.txns && db.txns[id].idempotencyKey == key ==> FindByKey(db, key) == Some(db.txns[id])
    ensures FindByKey(db, key) == None <==> forall id :: id in db.txns ==> db.txns[id].idempotencyKey != key
  {
  }

  /** A request that was answered with a transaction and is sent again with its key is answered with that transaction,
      as it is stored by then, and changes nothing. */
  lemma RepeatedRequestReplays(states: seq<State>, actions: seq<Action>, i: nat, q: int, r: int)
    requires IsRun(states, actions) && i < |actions| && TakesStep(states[i], actions[i], r, CheckKey)
    requires states[i].reqs[r].call.Create? && states[i].reqs[r].call.input.key != "" && !actions[i].o.fault
    requires q in states[i].reqs && states[i].reqs[q].call == states[i].reqs[r].call
    requires states[i].reqs[q].pc.Replied? && states[i].reqs[q].pc.reply.err == None
    ensures states[i].reqs[q].pc.reply.tx.Some? && r in states[i + 1].reqs && states[i + 1].world == states[i].world
    ensures var id := states[i].reqs[q].pc.reply.tx.value.id;
            && id in states[i].world.db.txns
            && states[i + 1].reqs[r].pc == Replied(Reply(Some(states[i].world.db.txns[id]), None))
  {
    SuccessIsTrue(states, actions, i, q);
    CheckKeyDecides(states, actions, i, r);
  }

  // ---- Validation ----

  /** A creation goes on to be stored exactly when the merchant exists and is active, the amount is positive and within
      the limit, and the currency is known; else it is refused by name, and nothing is written either way. */
  lemma LookupDecides(cfg: Config, w: World, input: Input, o: Oracle)
    requires !o.fault
    ensures var (w', pc') := Advance(cfg, w, Create(input), Lookup, o);
            && w' == w
            && pc' == if input.merchantId !in w.db.merchants then Replied(Reply(None, Some(MerchantNotFound)))
                      else if !w.db.merchants[input.merchantId].active then Replied(Reply(None, Some(MerchantInactive)))
                      else if input.amountCents < 1 then Replied(Reply(None, Some(InvalidAmount)))
                      else if input.amountCents > cfg.maxTransactionCents
                      then Replied(Reply(None, Some(AmountExceedsLimit)))
                      else if input.currency !in {"CAD", "USD"} then Replied(Reply(None, Some(InvalidCurrency)))
                      else Persist(Transaction(o.freshId, input.merchantId, input.amountCents, input.currency, Pending,
                                               input.key, input.description))
  {
  }

  ghost predicate Admissible(cfg: Config, db: Db, tx: Transaction) {
    && 1 <= tx.amountCents <= cfg.maxTransactionCents && tx.currency in {"CAD", "USD"}
    && tx.merchantId in db.merchants && db.merchants[tx.merchantId].active
  }

  /** Every stored row, and every row about to be stored. */
  ghost predicate AllAdmissible(s: State) {
    && (forall id :: id in s.world.db.txns ==> Admissible(s.cfg, s.world.db, s.world.db.txns[id]))
    && (forall r :: r in s.reqs && s.reqs[r].pc.Persist? ==> Admissible(s.cfg, s.world.db, s.reqs[r].pc.tx))
  }

  /** A row that a step leaves is an old one with a new status, or the one it was about to store; no merchant is
      activated or deactivated. */
  lemma StepKeepsTerms(cfg: Config, w: World, call: Call, pc: Pc, o: Oracle)
    ensures var (w', pc') := Advance(cfg, w, call, pc, o);
            SameTerms(w.db, pc, w'.db) && (pc'.Persist? ==> pc.Lookup? && Admissible(cfg, w.db, pc'.tx))
  {
    hide DoPersist, DoComplete, DoRefundCommit, Next, NormalizeBankError, SameTerms, Log;
    if pc.Persist? || pc.Complete? || pc.RefundCommit? {
      BlockKeepsTerms(w, pc, o);
    } else {
      StatementKeepsTerms(cfg, w, call, pc, o);
    }
  }

  ghost predicate SameTerms(db: Db, pc: Pc, db': Db) {
    && db'.merchants.Keys == db.merchants.Keys
    && (forall m :: m in db.merchants ==> db'.merchants[m].active == db.merchants[m].active)
    && (forall id :: id in db'.txns ==>
          || (id in db.txns && db'.txns[id] == db.txns[id].(status := db'.txns[id].status))
          || (pc.Persist? && db'.txns[id] == pc.tx))
  }

  lemma BlockKeepsTerms(w: World, pc: Pc, o: Oracle)
    requires pc.Persist? || pc.Complete? || pc.RefundCommit?
    ensures SameTerms(w.db, pc, BlockStep(w, pc, o).0.db) && !BlockStep(w, pc, o).1.Persist?
  {
    hide CreateInDb, SettleInDb;
    if pc.Persist? && CreateInDb(w.db, pc.tx, o.failAt).Ok? {
      CreateShape(w.db, pc.tx, o.failAt);
    } else if pc.Complete? && CompleteInDb(w.db, pc.tx, o.failAt).Ok? {
      SettleShape(w.db, pc.tx, pc.tx.status, Completed, pc.tx.amountCents, CompletedEvent, o.failAt);
    } else if pc.RefundCommit? && RefundInDb(w.db, pc.tx, o.failAt).Ok? {
      SettleShape(w.db, pc.tx, Completed, Refunded, -pc.tx.amountCents, RefundedEvent, o.failAt);
    }
  }

  lemma StatementKeepsTerms(cfg: Config, w: World, call: Call, pc: Pc, o: Oracle)
    requires !pc.Persist? && !pc.Complete? && !pc.RefundCommit?
    ensures var (w', pc') := Advance(cfg, w, call, pc, o);
            SameTerms(w.db, pc, w'.db) && (pc'.Persist? ==> pc.Lookup? && Admissible(cfg, w.db, pc'.tx))
  {
    hide Next, NormalizeBankError, Log, DoMark, DoUndo, SameTerms, Admissible;
    if pc.MarkProcessing? {
      StatusKeepsTerms(w, pc.tx, Processing, LogProcessing(pc.tx), o, pc);
    } else if pc.MarkFailed? {
      StatusKeepsTerms(w, pc.tx, Failed, LogFailed(pc.tx, pc.cause), o, pc);
    } else if pc.UndoProcessing? || pc.UndoFailed? {
      StatusKeepsTerms(w, pc.tx, Failed, pc, o, pc);
    } else {
      RowsKeepTerms(w.db, Advance(cfg, w, call, pc, o).0.db, pc);
      if pc.Lookup? {
        LookupAdmits(cfg, w, call, o);
      }
    }
    RowsKeepTerms(w.db, w.db, pc);
  }

  lemma StatusKeepsTerms(w: World, tx: Transaction, to: Status, next: Pc, o: Oracle, pc: Pc)
    ensures var (w', pc') := DoMark(w, tx, to, next, o); SameTerms(w.db, pc, w'.db) && (pc' == next || pc'.Replied?)
    ensures var (w', pc') := DoUndo(w, tx, o); SameTerms(w.db, pc, w'.db) && pc'.Replied?
  {
  }

  lemma RowsKeepTerms(db: Db, db': Db, pc: Pc)
    requires db' == db.(events := db'.events, outbox := db'.outbox)
    ensures SameTerms(db, pc, db')
  {
  }

  lemma LookupAdmits(cfg: Config, w: World, call: Call, o: Oracle)
    ensures var pc' := Advance(cfg, w, call, Lookup, o).1; pc'.Persist? ==> Admissible(cfg, w.db, pc'.tx)
  {
  }

  lemma StepKeepsAdmissible(s: State, a: Action, s': State)
    requires AllAdmissible(s) && Step(s, a, s')
    ensures AllAdmissible(s')
  {
    hide Advance;
    if a.Run? {
      StepKeepsTerms(s.cfg, s.world, s.reqs[a.r].call, s.reqs[a.r].pc, a.o);
    }
  }

  /** On every run each stored transaction is within the limit, in a known currency, and of an active merchant. */
  lemma {:induction false} RowsWithinLimits(states: seq<State>, actions: seq<Action>, i: nat)
    requires IsRun(states, actions) && i < |states|
    ensures states[i].cfg == states[0].cfg && AllAdmissible(states[i])
  {
    if i > 0 {
      hide AllAdmissible;
      RowsWithinLimits(states, actions, i - 1);
      StepKeepsAdmissible(states[i - 1], actions[i - 1], states[i]);
      InvOnRuns(states, actions, i);
    }
  }

  // ---- The check of a refund ----

  /** A refund goes on exactly when the transaction exists, is the caller's and is COMPLETED. A foreign one is answered
      as if it did not exist. Nothing is written. */
  lemma RefundLoadDecides(cfg: Config, w: World, merchantId: MerchantId, txId: TxId, o: Oracle)
    requires !o.fault && !o.ctxDone
    ensures var (w', pc') := Advance(cfg, w, Refund(merchantId, txId), RefundLoad, o);
            && w' == w
            && (pc'.RefundCommit? <==>
                  txId in w.db.txns && w.db.txns[txId].merchantId == merchantId && w.db.txns[txId].status == Completed)
            && (pc'.RefundCommit? ==> pc'.tx == w.db.txns[txId])
            && (pc' == Replied(Reply(None, Some(TransactionNotFound))) <==>
                  txId !in w.db.txns || w.db.txns[txId].merchantId != merchantId)
            && (pc'.RefundCommit? || pc'.Replied?) && (pc'.Replied? ==> pc'.reply.tx == None && pc'.reply.err.Some?)
  {
  }

  /** A context that has ended stops a request at every one of its checks, with whatever it holds by then, and a read
      that fails refuses it; a creation without a key is not checked. Nothing is written. */
  lemma ChecksThatFail(cfg: Config, w: World, call: Call, tx: Transaction, o: Oracle)
    ensures o.ctxDone && call.Create? ==>
              Advance(cfg, w, call, CheckKey, o) == (w, Replied(Reply(None, Some(ContextDone))))
    ensures o.ctxDone && call.Refund? ==>
              Advance(cfg, w, call, RefundLoad, o) == (w, Replied(Reply(None, Some(ContextDone))))
    ensures o.ctxDone ==>
              Advance(cfg, w, call, MarkProcessing(tx), o) == (w, Replied(Reply(Some(tx), Some(ContextDone))))
    ensures !o.ctxDone && call.Create? && call.input.key == "" ==> Advance(cfg, w, call, CheckKey, o) == (w, Lookup)
    ensures !o.ctxDone && o.fault && call.Create? && call.input.key != "" ==>
              Advance(cfg, w, call, CheckKey, o) == (w, Replied(Reply(None, Some(WriteFailed))))
    ensures o.fault && call.Create? ==>
              Advance(cfg, w, call, Lookup, o) == (w, Replied(Reply(None, Some(WriteFailed))))
    ensures !o.ctxDone && o.fault && call.Refund? ==>
              Advance(cfg, w, call, RefundLoad, o) == (w, Replied(Reply(None, Some(WriteFailed))))
  {
  }

  /** A database block that rolls back leaves everything as it was and is answered with its error, with the transaction
      once the request holds a stored one. */
  lemma RollbackAnswers(cfg: Config, w: World, call: Call, tx: Transaction, o: Oracle)
    ensures var r := CreateInDb(w.db, tx, o.failAt);
            r.Err? ==> Advance(cfg, w, call, Persist(tx), o) == (w, Replied(Reply(None, Some(r.error))))
    ensures var r := CompleteInDb(w.db, tx, o.failAt);
            r.Err? && tx.status == Processing ==>
              Advance(cfg, w, call, Complete(tx), o) == (w, Replied(Reply(Some(tx), Some(r.error))))
    ensures var r := RefundInDb(w.db, tx, o.failAt);
            r.Err? ==> Advance(cfg, w, call, RefundCommit(tx), o) == (w, Replied(Reply(None, Some(r.error))))
  {
    hide CreateInDb, SettleInDb;
  }

  // ---- A refusal has written nothing ----

  /** A request here has written nothing so far. */
  predicate Early(pc: Pc) {
    pc.CheckKey? || pc.Lookup? || pc.Persist? || pc.RefundLoad? || pc.RefundCommit?
    || (pc.Replied? && pc.reply.tx == None)
  }

  lemma StaysEarly(cfg: Config, w: World, call: Call, pc: Pc, o: Oracle)
    ensures var (w', pc') := Advance(cfg, w, call, pc, o); Early(pc') ==> Early(pc) && w' == w
  {
    hide CreateInDb, SettleInDb, UpdateStatus, InsertEvent, InsertOutbox, Next, Validate, NormalizeBankError;
  }

  /** No step of a request that is answered without a transaction, or is not that far yet, changed anything at all. */
  lemma {:induction false} RefusalWritesNothing(states: seq<State>, actions: seq<Action>, i: nat, r: int, k: nat)
    requires IsRun(states, actions) && i < |states| && r in states[i].reqs && Early(states[i].reqs[r].pc)
    requires k < i && actions[k].Run? && actions[k].r == r
    ensures states[k + 1].world == states[k].world
    decreases i
  {
    hide Advance, Init;
    RunStep(states, actions, i - 1);
    var s, a := states[i - 1], actions[i - 1];
    if a.Run? && a.r == r {
      StaysEarly(s.cfg, s.world, s.reqs[r].call, s.reqs[r].pc, a.o);
    } else if k < i - 1 {
      StillThere(states, actions, k, i - 1, r);
    }
    if k < i - 1 {
      RefusalWritesNothing(states, actions, i - 1, r, k);
    }
  }

  /** A request that has taken a step stays known. */
  lemma {:induction false} StillThere(states: seq<State>, actions: seq<Action>, k: nat, i: nat, r: int)
    requires IsRun(states, actions) && k <= i < |states| && k < |actions| && actions[k].Run? && actions[k].r == r
    ensures r in states[i].reqs
    decreases i
  {
    hide Advance, Init;
    RunStep(states, actions, k);
    if k < i {
      StillThere(states, actions, k, i - 1, r);
      RunStep(states, actions, i - 1);
    }
  }

  // ---- A failed payment is answered with what is stored ----

  /** The answer at `pc'` says what is stored, or that it could not be restored. */
  ghost predicate Told(w: World, pc: Pc) {
    pc.Replied? && pc.reply.tx.Some? && pc.reply.err.Some? ==>
      var t, e, stored := pc.reply.tx.value, pc.reply.err.value, w.db.txns;
      && t.id in stored && stored[t.id] == t.(status := stored[t.id].status)
      && t.status in {Pending, Processing, Failed}
      && (stored[t.id].status == t.status <==> !e.RollbackStatus?)
      && (e.RollbackStatus? ==> e.to == t.status)
  }

  lemma MarkTells(cfg: Config, w: World, pc: Pc, to: Status, next: Pc, o: Oracle)
    requires Ready(cfg, w, pc) && (pc.MarkProcessing? || pc.MarkFailed?) && !next.Replied?
    ensures var (w', pc') := DoMark(w, pc.tx, to, next, o); Told(w', pc')
    ensures Told(w, FailWith(pc.tx, ContextDone))
  {
    hide AttemptLog, AllRetryable, Approved;
  }

  lemma CompleteTells(cfg: Config, w: World, tx: Transaction, o: Oracle)
    requires Ready(cfg, w, Complete(tx))
    ensures var (w', pc') := DoComplete(w, tx, o); Told(w', pc')
  {
    hide AttemptLog, AllRetryable, Approved, SettleInDb;
    SettleCommitsIff(w.db, tx, tx.status, Completed, tx.amountCents, CompletedEvent, o.failAt);
  }

  lemma UndoTells(cfg: Config, w: World, pc: Pc, o: Oracle)
    requires Ready(cfg, w, pc) && (pc.UndoProcessing? || pc.UndoFailed?)
    ensures var (w', pc') := DoUndo(w, pc.tx, o); Told(w', pc')
  {
    hide AttemptLog, AllRetryable, Approved;
  }

  lemma EmitTells(cfg: Config, w: World, tx: Transaction, cause: Error, o: Oracle)
    requires Ready(cfg, w, EmitFailed(tx, cause)) && !cause.RollbackStatus?
    ensures var (w', pc') := DoEmitFailed(w, tx, cause, o); Told(w', pc')
  {
    hide AttemptLog, AllRetryable, Approved;
  }

  lemma OthersTellNothing(cfg: Config, w: World, call: Call, pc: Pc, o: Oracle)
    requires !pc.MarkProcessing? && !pc.MarkFailed? && !pc.Complete? && !pc.UndoProcessing? && !pc.UndoFailed?
    requires !pc.EmitFailed? && !pc.Replied?
    ensures var (w', pc') := Advance(cfg, w, call, pc, o); Told(w', pc')
  {
    hide CreateInDb, SettleInDb, Next, Validate, NormalizeBankError, UpdateStatus;
  }

  /** The step that answers a request with its transaction and an error. */
  lemma FailureStep(cfg: Config, w: World, call: Call, pc: Pc, o: Oracle)
    requires Ready(cfg, w, pc) && CauseOk(cfg, pc, Log(w, Subject(pc))) && !pc.Replied?
    ensures var (w', pc') := Advance(cfg, w, call, pc, o); Told(w', pc')
  {
    hide Ready, Told, DoComplete, DoUndo, DoEmitFailed, DoMark, DoPersist, DoLog, DoLogProcessing, DoAdmit, DoCharge,
         DoReport, DoRefundCommit, DoCheckKey, DoLookup, DoRefundLoad, DoWait;
    match pc
    case MarkProcessing(tx) => MarkTells(cfg, w, pc, Processing, LogProcessing(tx), o);
    case MarkFailed(tx, cause) => MarkTells(cfg, w, pc, Failed, LogFailed(tx, cause), o);
    case Complete(tx) => CompleteTells(cfg, w, tx, o);
    case UndoProcessing(_) => UndoTells(cfg, w, pc, o);
    case UndoFailed(_) => UndoTells(cfg, w, pc, o);
    case EmitFailed(tx, cause) => EmitTells(cfg, w, tx, cause, o);
    case _ => OthersTellNothing(cfg, w, call, pc, o);
  }

  /** On every run a request answered with its transaction and an error was told the stored status, unless the error
      says that the write restoring it failed; then, and only then, the two differ. */
  lemma FailureIsTold(states: seq<State>, actions: seq<Action>, i: nat, r: int)
    requires IsRun(states, actions) && i < |actions|
    requires r in states[i].reqs && !states[i].reqs[r].pc.Replied?
    requires r in states[i + 1].reqs && states[i + 1].reqs[r].pc.Replied?
    requires states[i + 1].reqs[r].pc.reply.tx.Some? && states[i + 1].reqs[r].pc.reply.err.Some?
    ensures var Reply(tx, err) := states[i + 1].reqs[r].pc.reply; var stored := states[i + 1].world.db.txns;
            && tx.value.id in stored && stored[tx.value.id] == tx.value.(status := stored[tx.value.id].status)
            && tx.value.status in {Pending, Processing, Failed}
            && (stored[tx.value.id].status == tx.value.status <==> !err.value.RollbackStatus?)
            && (err.value.RollbackStatus? ==> err.value.to == tx.value.status)
  {
    hide Advance, Ready, Init;
    InvOnRuns(states, actions, i);
    RunStep(states, actions, i);
    RunnerFacts(states[i], r, states[0].world.db.merchants);
    CausesOnRuns(states, actions, i);
    hide IsRun, CauseOk;
    FailureStep(states[i].cfg, states[i].world, states[i].reqs[r].call, states[i].reqs[r].pc, actions[i].o);
  }

  // ---- Every request that goes on running is answered ----

  /** How many steps of its own a request can still take. */
  function StepsLeft(pc: Pc, n: nat): int {
    match pc
    case CheckKey => 10 + 2 * n
    case Lookup => 9 + 2 * n
    case Persist(_) => 8 + 2 * n
    case MarkProcessing(_) => 7 + 2 * n
    case LogProcessing(_) => 6 + 2 * n
    case Admit(_) => 5 + 2 * n
    case ChargeBank(_, attempt) => 6 + 2 * (n - attempt)
    case Wait(_, attempt) => 5 + 2 * (n - attempt)
    case Report(_, _) => 5
    case MarkFailed(_, _) => 4
    case LogFailed(_, _) => 3
    case EmitFailed(_, _) => 2
    case RefundLoad => 2
    case UndoProcessing(_) => 1
    case UndoFailed(_) => 1
    case Complete(_) => 1
    case RefundCommit(_) => 1
    case Replied(_) => 0
    case Stopped => 0
  }

  lemma BankUsesOne(cfg: Config, w: World, call: Call, pc: Pc, o: Oracle)
    requires Ready(cfg, w, pc) && (pc.Admit? || pc.ChargeBank? || pc.Wait? || pc.Report?)
    ensures var pc' := Advance(cfg, w, call, pc, o).1; var n := Attempts(cfg.maxAttempts);
            !pc'.Stopped? && 0 < StepsLeft(pc', n) < StepsLeft(pc, n)
  {
    hide Next, Admits, NormalizeBankError, RowOk;
  }

  lemma OthersUseOne(cfg: Config, w: World, call: Call, pc: Pc, o: Oracle)
    requires (pc.CheckKey? || pc.Lookup? ==> call.Create?) && (pc.RefundLoad? ==> call.Refund?)
    requires !pc.Admit? && !pc.ChargeBank? && !pc.Wait? && !pc.Report? && !pc.Replied? && !pc.Stopped?
    ensures var pc' := Advance(cfg, w, call, pc, o).1; var n := Attempts(cfg.maxAttempts);
            !pc'.Stopped? && 0 <= StepsLeft(pc', n) < StepsLeft(pc, n) && (StepsLeft(pc', n) == 0 ==> pc'.Replied?)
  {
    hide CreateInDb, SettleInDb, UpdateStatus, InsertEvent, InsertOutbox, Validate;
  }

  lemma StepUsesOne(cfg: Config, w: World, call: Call, pc: Pc, o: Oracle)
    requires Ready(cfg, w, pc) && (pc.CheckKey? || pc.Lookup? ==> call.Create?) && (pc.RefundLoad? ==> call.Refund?)
    requires !pc.Replied? && !pc.Stopped?
    ensures var pc' := Advance(cfg, w, call, pc, o).1; var n := Attempts(cfg.maxAttempts);
            !pc'.Stopped? && 0 <= StepsLeft(pc', n) < StepsLeft(pc, n) && (StepsLeft(pc', n) == 0 ==> pc'.Replied?)
  {
    hide Advance, Ready;
    if pc.Admit? || pc.ChargeBank? || pc.Wait? || pc.Report? {
      BankUsesOne(cfg, w, call, pc, o);
    } else {
      OthersUseOne(cfg, w, call, pc, o);
    }
  }

  /** How often request `r` has run in the first `i` steps. */
  ghost function RunsOf(actions: seq<Action>, i: nat, r: int): nat
    requires i <= |actions|
  {
    if i == 0 then 0 else RunsOf(actions, i - 1, r) + if actions[i - 1].Run? && actions[i - 1].r == r then 1 else 0
  }

  /** A request that has run `k` times and is neither answered nor stopped has that many steps fewer left. */
  ghost predicate Bounded(cfg: Config, req: Request, k: nat) {
    var n := Attempts(cfg.maxAttempts);
    || req.pc.Replied? || req.pc.Stopped?
    || (0 < StepsLeft(req.pc, n) && StepsLeft(req.pc, n) + k <= if req.call.Create? then 10 + 2 * n else 2)
  }

  lemma StepKeepsBounded(cfg: Config, w: World, req: Request, o: Oracle, k: nat)
    requires Ready(cfg, w, req.pc) && KeyOk(w.db, req) && Bounded(cfg, req, k)
    ensures var pc' := Advance(cfg, w, req.call, req.pc, o).1;
            Bounded(cfg, req.(pc := pc'), k + 1) && (pc'.Stopped? ==> req.pc.Stopped?)
  {
    if req.pc.Replied? || req.pc.Stopped? {
      assert Advance(cfg, w, req.call, req.pc, o).1 == req.pc;
    } else {
      hide Advance, Ready;
      OwnEntry(w.db, req);
      StepUsesOne(cfg, w, req.call, req.pc, o);
    }
  }

  ghost predicate RunnerBounded(s: State, actions: seq<Action>, i: nat, r: int)
    requires i <= |actions|
  {
    && (r !in s.reqs ==> RunsOf(actions, i, r) == 0)
    && (r in s.reqs ==> Bounded(s.cfg, s.reqs[r], RunsOf(actions, i, r)))
    && (r in s.reqs && s.reqs[r].pc.Stopped? ==> exists k :: 0 <= k < i && actions[k] == Stop(r))
  }

  lemma RunnerStaysBounded(s: State, s': State, actions: seq<Action>, i: nat, r: int,
                           opening: map<MerchantId, Merchant>)
    requires i < |actions| && Step(s, actions[i], s') && Inv(s, opening) && AnswersOk(s)
    requires RunnerBounded(s, actions, i, r)
    ensures RunnerBounded(s', actions, i + 1, r)
  {
    hide Advance, Inv, KeyOk, Ready;
    var a := actions[i];
    if r in s.reqs && a.Run? && a.r == r {
      RunnerFacts(s, r, opening);
      hide Bounded;
      StepKeepsBounded(s.cfg, s.world, s.reqs[r], a.o, RunsOf(actions, i, r));
    }
  }

  lemma NobodyRan(s: State, actions: seq<Action>, r: int)
    requires Init(s)
    ensures RunnerBounded(s, actions, 0, r)
  {
  }

  lemma {:induction false} RunsBounded(states: seq<State>, actions: seq<Action>, i: nat, r: int)
    requires IsRun(states, actions) && i < |states|
    ensures RunnerBounded(states[i], actions, i, r)
  {
    hide Step, Inv, Init, AnswersOk, RunnerBounded;
    if i == 0 {
      NobodyRan(states[0], actions, r);
    } else {
      RunsBounded(states, actions, i - 1, r);
      RunStep(states, actions, i - 1);
      InvOnRuns(states, actions, i - 1);
      AnswersOnRuns(states, actions, i - 1);
      hide IsRun;
      RunnerStaysBounded(states[i - 1], states[i], actions, i - 1, r, states[0].world.db.merchants);
    }
  }

  lemma OwnEntry(db: Db, req: Request)
    requires KeyOk(db, req)
    ensures req.pc.CheckKey? || req.pc.Lookup? ==> req.call.Create?
    ensures req.pc.RefundLoad? ==> req.call.Refund?
  {
  }

  /** A request that is not stopped is answered after at most 10 + 2n steps of its own when it pays, n the most charges
      allowed, and after at most 2 when it refunds, whatever fails and whatever else runs. */
  lemma AnsweredInTime(states: seq<State>, actions: seq<Action>, i: nat, r: int)
    requires IsRun(states, actions) && i < |states| && r in states[i].reqs
    requires forall k :: 0 <= k < i ==> actions[k] != Stop(r)
    requires var n := if states[0].cfg.maxAttempts > 0 then states[0].cfg.maxAttempts else 1;
             RunsOf(actions, i, r) >= if states[i].reqs[r].call.Create? then 10 + 2 * n else 2
    ensures states[i].reqs[r].pc.Replied?
  {
    hide IsRun;
    RunsBounded(states, actions, i, r);
    InvOnRuns(states, actions, i);
  }
}
