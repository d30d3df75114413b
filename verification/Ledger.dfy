// PaymentService on the database path (internal/service/payment.go): every
// request is a goroutine that advances one database statement, bank call or
// critical section at a time, and the goroutines interleave freely. A request may
// fail at any statement, see its context end, or stop for good after any step.

module Ledger {
  import opened Domain
  import opened Database
  import opened CircuitBreaking
  import opened Retrying

  datatype Config = Config(maxTransactionCents: int, maxAttempts: int)

  datatype Input = Input(merchantId: MerchantId, amountCents: int, currency: string, key: string, description: string)

  datatype Call = Create(input: Input) | Refund(merchantId: MerchantId, txId: TxId)

  datatype Reply = Reply(tx: Option<Transaction>, err: Option<Error>)

  /** Where a request stands: the next step it will take, and its in-memory transaction. */
  datatype Pc =
    | CheckKey | Lookup | Persist(tx: Transaction)
    | MarkProcessing(tx: Transaction) | LogProcessing(tx: Transaction) | UndoProcessing(tx: Transaction)
    | Admit(tx: Transaction) | ChargeBank(tx: Transaction, attempt: nat) | Wait(tx: Transaction, attempt: nat)
    | Report(tx: Transaction, outcome: Option<Error>)
    | Complete(tx: Transaction)
    | MarkFailed(tx: Transaction, cause: Error) | LogFailed(tx: Transaction, cause: Error)
    | EmitFailed(tx: Transaction, cause: Error) | UndoFailed(tx: Transaction)
    | RefundLoad | RefundCommit(tx: Transaction)
    | Replied(reply: Reply)
    | Stopped

  /** The tables, the breaker, and what the outside world has seen of each transaction. */
  datatype World = World(
    db: Db, breaker: Breaker, now: int,
    charges: map<TxId, seq<Charge>>,   // results of bank.Charge, in order
    stages: multiset<TxId>,            // entries into callBank
    credits: multiset<TxId>,           // committed balance credits
    rejected: set<TxId>)               // turned away by the breaker

  /** Everything a step leaves to chance: statement errors, the context, the clock, the bank, a fresh ID. */
  datatype Oracle = Oracle(fault: bool, failAt: nat, ctxDone: bool, elapsed: nat, bank: Charge, freshId: TxId,
                           parent: Ctx, bankCtx: Ctx)

  function Log(w: World, id: TxId): seq<Charge> {
    if id in w.charges then w.charges[id] else []
  }

  predicate MatchesIdempotentRequest(t: Transaction, input: Input) {
    && t.merchantId == input.merchantId && t.amountCents == input.amountCents
    && t.currency == input.currency && t.description == input.description
  }

  function Validate(cfg: Config, m: Merchant, input: Input): Option<Error> {
    if !m.active then Some(MerchantInactive)
    else if input.amountCents <= 0 then Some(InvalidAmount)
    else if input.amountCents > cfg.maxTransactionCents then Some(AmountExceedsLimit)
    else if input.currency != "CAD" && input.currency != "USD" then Some(InvalidCurrency)
    else None
  }

  function Refuse(e: Error): Pc {
    Replied(Reply(None, Some(e)))
  }

  function FailWith(tx: Transaction, e: Error): Pc {
    Replied(Reply(Some(tx), Some(e)))
  }

  // ---- One step of each kind ----

  function DoCheckKey(w: World, input: Input, o: Oracle): Pc {
    if o.ctxDone then Refuse(ContextDone)
    else if input.key == "" then Lookup
    else if o.fault then Refuse(WriteFailed)
    else match FindByKey(w.db, input.key)
      case None => Lookup
      case Some(existing) =>
        if MatchesIdempotentRequest(existing, input) then Replied(Reply(Some(existing), None))
        else Refuse(DuplicateTransaction)
  }

  function DoLookup(cfg: Config, w: World, input: Input, o: Oracle): Pc {
    if o.fault then Refuse(WriteFailed)
    else if input.merchantId !in w.db.merchants then Refuse(MerchantNotFound)
    else match Validate(cfg, w.db.merchants[input.merchantId], input)
      case Some(e) => Refuse(e)
      case None =>
        Persist(Transaction(o.freshId, input.merchantId, input.amountCents, input.currency, Pending, input.key,
                            input.description))
  }

  function DoPersist(w: World, tx: Transaction, o: Oracle): (World, Pc) {
    match CreateInDb(w.db, tx, o.failAt)
    case Ok(db) => (w.(db := db), MarkProcessing(tx))
    case Err(e) => (w, Refuse(e))
  }

  /** The UpdateStatus of transition(); a failure leaves the request with nothing to undo. */
  function DoMark(w: World, tx: Transaction, to: Status, next: Pc, o: Oracle): (World, Pc) {
    if !CanTransition(tx.status, to) then (w, FailWith(tx, InvalidTransition))
    else match UpdateStatus(w.db, tx.id, to, o.fault)
      case Ok(db) => (w.(db := db), next)
      case Err(e) => (w, FailWith(tx, e))
  }

  /** The audit row of transition(); a failure sends the request to rollbackTransition. */
  function DoLog(w: World, tx: Transaction, to: Status, next: Pc, undo: Pc, o: Oracle): (World, Pc) {
    match InsertEvent(w.db, AuditEvent(tx.id, Some(tx.status), to), o.fault)
    case Ok(db) => (w.(db := db), next)
    case Err(_) => (w, undo)
  }

  function DoUndo(w: World, tx: Transaction, o: Oracle): (World, Pc) {
    match UpdateStatus(w.db, tx.id, tx.status, o.fault)
    case Ok(db) => (w.(db := db), FailWith(tx, WriteFailed))
    case Err(_) => (w, FailWith(tx, RollbackStatus(tx.status)))
  }

  function DoLogProcessing(w: World, tx: Transaction, o: Oracle): (World, Pc) {
    var (w', pc) := DoLog(w, tx, Processing, Admit(tx.(status := Processing)), UndoProcessing(tx), o);
    if pc.Admit? then (w'.(stages := w'.stages + multiset{tx.id}), pc) else (w', pc)
  }

  function DoEmitFailed(w: World, tx: Transaction, cause: Error, o: Oracle): (World, Pc) {
    match InsertOutbox(w.db, OutboxEvent(FailedEvent, tx.id, Failed), o.fault)
    case Ok(db) => (w.(db := db), FailWith(tx.(status := Failed), cause))
    case Err(_) => (w, UndoFailed(tx))
  }

  function DoAdmit(w: World, tx: Transaction, o: Oracle): (World, Pc) {
    var now := w.now + o.elapsed;
    var w' := w.(now := now, breaker := Next(w.breaker, Before(now)));
    if Admits(w.breaker, now) then (w', ChargeBank(tx, 1))
    else (w'.(rejected := w'.rejected + {tx.id}), MarkFailed(tx, ErrCircuitOpen))
  }

  function DoCharge(cfg: Config, w: World, tx: Transaction, attempt: nat, o: Oracle): (World, Pc) {
    if o.ctxDone then (w, Report(tx, Some(ContextDone))) else
    var w' := w.(charges := w.charges[tx.id := Log(w, tx.id) + [o.bank]]);
    match o.bank
    case None => (w', Report(tx, None))
    case Some(e) =>
      if attempt >= Attempts(cfg.maxAttempts) || !Retryable(e)
      then (w', Report(tx, Some(Bank(NormalizeBankError(o.parent, o.bankCtx, e)))))
      else (w', Wait(tx, attempt))
  }

  function DoWait(tx: Transaction, attempt: nat, o: Oracle): Pc {
    if o.ctxDone then Report(tx, Some(ContextDone)) else ChargeBank(tx, attempt + 1)
  }

  function DoReport(w: World, tx: Transaction, outcome: Option<Error>, o: Oracle): (World, Pc) {
    var now := w.now + o.elapsed;
    var w' := w.(now := now, breaker := Next(w.breaker, After(now, outcome.Some?)));
    (w', if outcome == None then Complete(tx) else MarkFailed(tx, outcome.value))
  }

  function DoComplete(w: World, tx: Transaction, o: Oracle): (World, Pc) {
    if !CanTransition(tx.status, Completed) then (w, FailWith(tx, InvalidTransition))
    else match CompleteInDb(w.db, tx, o.failAt)
      case Ok(db) => (w.(db := db, credits := w.credits + multiset{tx.id}),
                      Replied(Reply(Some(tx.(status := Completed)), None)))
      case Err(e) => (w, FailWith(tx, e))
  }

  function DoRefundLoad(w: World, merchantId: MerchantId, txId: TxId, o: Oracle): Pc {
    if o.ctxDone then Refuse(ContextDone)
    else if o.fault then Refuse(WriteFailed)
    else if txId !in w.db.txns || w.db.txns[txId].merchantId != merchantId then Refuse(TransactionNotFound)
    else if !CanTransition(w.db.txns[txId].status, Refunded) then Refuse(CannotRefund)
    else RefundCommit(w.db.txns[txId])
  }

  function DoRefundCommit(w: World, tx: Transaction, o: Oracle): (World, Pc) {
    match RefundInDb(w.db, tx, o.failAt)
    case Ok(db) => (w.(db := db), Replied(Reply(Some(tx.(status := Refunded)), None)))
    case Err(e) => (w, Refuse(e))
  }

  function DoMarkProcessing(w: World, tx: Transaction, o: Oracle): (World, Pc) {
    if o.ctxDone then (w, FailWith(tx, ContextDone))
    else DoMark(w, tx, Processing, LogProcessing(tx), o)
  }

  function Advance(cfg: Config, w: World, call: Call, pc: Pc, o: Oracle): (World, Pc) {
    match pc
    case CheckKey => if call.Create? then (w, DoCheckKey(w, call.input, o)) else (w, pc)
    case Lookup => if call.Create? then (w, DoLookup(cfg, w, call.input, o)) else (w, pc)
    case Persist(tx) => DoPersist(w, tx, o)
    case MarkProcessing(tx) => DoMarkProcessing(w, tx, o)
    case LogProcessing(tx) => DoLogProcessing(w, tx, o)
    case UndoProcessing(tx) => DoUndo(w, tx, o)
    case Admit(tx) => DoAdmit(w, tx, o)
    case ChargeBank(tx, attempt) => DoCharge(cfg, w, tx, attempt, o)
    case Wait(tx, attempt) => (w, DoWait(tx, attempt, o))
    case Report(tx, outcome) => DoReport(w, tx, outcome, o)
    case Complete(tx) => DoComplete(w, tx, o)
    case MarkFailed(tx, cause) => DoMark(w, tx, Failed, LogFailed(tx, cause), o)
    case LogFailed(tx, cause) => DoLog(w, tx, Failed, EmitFailed(tx, cause), UndoFailed(tx), o)
    case EmitFailed(tx, cause) => DoEmitFailed(w, tx, cause, o)
    case UndoFailed(tx) => DoUndo(w, tx, o)
    case RefundLoad => if call.Refund? then (w, DoRefundLoad(w, call.merchantId, call.txId, o)) else (w, pc)
    case RefundCommit(tx) => DoRefundCommit(w, tx, o)
    case Replied(_) => (w, pc)
    case Stopped => (w, pc)
  }

  // ---- The interleaved system ----

  datatype Request = Request(call: Call, pc: Pc)

  datatype State = State(cfg: Config, world: World, reqs: map<int, Request>)

  datatype Action = Arrive(r: int, call: Call) | Run(r: int, o: Oracle) | Stop(r: int)

  function Entry(call: Call): Pc {
    if call.Create? then CheckKey else RefundLoad
  }

  ghost predicate Step(s: State, a: Action, s': State) {
    match a
    case Arrive(r, call) => r !in s.reqs && s' == s.(reqs := s.reqs[r := Request(call, Entry(call))])
    case Run(r, o) =>
      && r in s.reqs
      && var (w, pc) := Advance(s.cfg, s.world, s.reqs[r].call, s.reqs[r].pc, o);
         s' == s.(world := w, reqs := s.reqs[r := s.reqs[r].(pc := pc)])
    case Stop(r) => r in s.reqs && !s.reqs[r].pc.Replied? && s' == s.(reqs := s.reqs[r := s.reqs[r].(pc := Stopped)])
  }

  /** Empty books: no transactions, no rows, no requests, non-negative balances. */
  ghost predicate Init(s: State) {
    && s.reqs == map[]
    && s.world.db.txns == map[] && s.world.db.keyIndex == map[] && s.world.db.events == [] && s.world.db.outbox == []
    && s.world.charges == map[] && s.world.stages == multiset{} && s.world.credits == multiset{} &&
         s.world.rejected == {}
    && forall m :: m in s.world.db.merchants ==> s.world.db.merchants[m].balanceCents >= 0
  }

  /** No two refunds of one transaction are between their status check and their commit. */
  ghost predicate RefundsSerial(s: State) {
    forall r1, r2 :: r1 in s.reqs && r2 in s.reqs && r1 != r2 && s.reqs[r1].pc.RefundCommit? &&
        s.reqs[r2].pc.RefundCommit?
      ==> s.reqs[r1].pc.tx.id != s.reqs[r2].pc.tx.id
  }

  ghost predicate IsRun(states: seq<State>, actions: seq<Action>) {
    && |states| == |actions| + 1 && Init(states[0])
    && forall i :: 0 <= i < |actions| ==> Step(states[i], actions[i], states[i + 1])
  }
}
