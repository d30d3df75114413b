// What every reachable state of the ledger keeps: each transaction has one request
// driving it or any number refunding it, the bank's answers and the stored status
// agree, the index is right, and no balance is negative.

module LedgerSafety {
  import opened Domain
  import opened Database
  import opened CircuitBreaking
  import opened Retrying
  import opened Ledger

  /** Everything the system holds about one transaction ID. */
  datatype Row = Row(tx: Option<Transaction>, log: seq<Charge>, stages: nat, credits: nat, rejected: bool)

  ghost function RowOf(w: World, id: TxId): Row {
    Row(if id in w.db.txns then Some(w.db.txns[id]) else None,
        Log(w, id), w.stages[id], w.credits[id], id in w.rejected)
  }

  predicate Settled(s: Status) {
    s == Completed || s == Refunded
  }

  /** Holds of every ID in every reachable state. */
  ghost predicate RowOk(row: Row, id: TxId, max: nat) {
    && (row.tx == None ==> row.log == [] && row.stages == 0 && row.credits == 0 && !row.rejected)
    && row.stages <= 1
    && (row.stages == 0 ==> row.log == [] && !row.rejected)
    && (row.rejected ==> row.log == [])
    && AttemptLog(row.log, max)
    && (row.tx.Some? ==>
          && row.tx.value.id == id && Acceptable(row.tx.value.amountCents, row.tx.value.currency)
          && row.credits == (if Settled(row.tx.value.status) then 1 else 0)
          && (Settled(row.tx.value.status) ==> Approved(row.log))
          && (row.tx.value.status == Failed ==> !Approved(row.log)))
  }

  /** The transaction a request is driving. Only refunds of one transaction may drive it together. */
  function Owned(pc: Pc): Option<TxId> {
    match pc
    case MarkProcessing(tx) => Some(tx.id)
    case LogProcessing(tx) => Some(tx.id)
    case UndoProcessing(tx) => Some(tx.id)
    case Admit(tx) => Some(tx.id)
    case ChargeBank(tx, _) => Some(tx.id)
    case Wait(tx, _) => Some(tx.id)
    case Report(tx, _) => Some(tx.id)
    case Complete(tx) => Some(tx.id)
    case MarkFailed(tx, _) => Some(tx.id)
    case LogFailed(tx, _) => Some(tx.id)
    case EmitFailed(tx, _) => Some(tx.id)
    case UndoFailed(tx) => Some(tx.id)
    case RefundCommit(tx) => Some(tx.id)
    case _ => None
  }

  /** The stored row while a request is at `pc` holding `tx`: the in-memory copy, with this status. */
  ghost predicate Holds(row: Row, tx: Transaction, inMemory: Status, stored: Status) {
    tx.status == inMemory && row.tx == Some(tx.(status := stored))
  }

  ghost predicate Unsent(row: Row) {
    row.stages == 0
  }

  ghost predicate PcOk(cfg: Config, pc: Pc, row: Row) {
    var max := Attempts(cfg.maxAttempts);
    match pc
    case Persist(tx) => tx.status == Pending
    case MarkProcessing(tx) => Holds(row, tx, Pending, Pending) && Unsent(row)
    case LogProcessing(tx) => Holds(row, tx, Pending, Processing) && Unsent(row)
    case UndoProcessing(tx) => Holds(row, tx, Pending, Processing) && Unsent(row)
    case Admit(tx) => Holds(row, tx, Processing, Processing) && row.log == [] && !row.rejected && row.stages == 1
    case ChargeBank(tx, n) => Holds(row, tx, Processing, Processing) && !row.rejected && row.stages == 1
                              && AllRetryable(row.log) && 1 <= n <= max && |row.log| == n - 1
    case Wait(tx, n) => Holds(row, tx, Processing, Processing) && !row.rejected && row.stages == 1
                        && AllRetryable(row.log) && 1 <= n < max && |row.log| == n
    case Report(tx, outcome) => Holds(row, tx, Processing, Processing) && !row.rejected && row.stages == 1
                                && (outcome == None <==> Approved(row.log))
    case Complete(tx) => Holds(row, tx, Processing, Processing) && Approved(row.log) && row.stages == 1
    case MarkFailed(tx, _) => Holds(row, tx, Processing, Processing) && !Approved(row.log) && row.stages == 1
    case LogFailed(tx, _) => Holds(row, tx, Processing, Failed) && row.stages == 1
    case EmitFailed(tx, _) => Holds(row, tx, Processing, Failed) && row.stages == 1
    case UndoFailed(tx) => Holds(row, tx, Processing, Failed) && row.stages == 1
    case RefundCommit(tx) => Holds(row, tx, Completed, Completed) || Holds(row, tx, Completed, Refunded)
    case _ => true
  }

  function Subject(pc: Pc): TxId {
    if pc.Persist? then pc.tx.id else Owned(pc).GetOr("")
  }

  ghost predicate IndexOk(db: Db) {
    && (forall k :: k in db.keyIndex ==> db.keyIndex[k] in db.txns && db.txns[db.keyIndex[k]].idempotencyKey == k)
    && (forall id :: id in db.txns && db.txns[id].idempotencyKey != "" ==>
          db.txns[id].idempotencyKey in db.keyIndex && db.keyIndex[db.txns[id].idempotencyKey] == id)
  }

  /** The merchants are those of the start, every row has one, and no balance is negative. */
  ghost predicate Grounded(db: Db, opening: map<MerchantId, Merchant>) {
    && db.merchants.Keys == opening.Keys
    && (forall id :: id in db.txns ==> db.txns[id].merchantId in db.merchants)
    && (forall m :: m in db.merchants ==> db.merchants[m].balanceCents >= 0)
  }

  ghost predicate Inv(s: State, opening: map<MerchantId, Merchant>) {
    && (forall id :: RowOk(RowOf(s.world, id), id, Attempts(s.cfg.maxAttempts)))
    && (forall r :: r in s.reqs ==> PcOk(s.cfg, s.reqs[r].pc, RowOf(s.world, Subject(s.reqs[r].pc))))
    && (forall r1, r2 :: r1 in s.reqs && r2 in s.reqs && r1 != r2 ==> MayCoexist(s.reqs[r1].pc, s.reqs[r2].pc))
    && IndexOk(s.world.db)
    && Grounded(s.world.db, opening)
  }

  predicate MayCoexist(a: Pc, b: Pc) {
    Owned(a).Some? && Owned(a) == Owned(b) ==> a.RefundCommit? && b.RefundCommit?
  }

  /** Some request is driving `id`, as its creator or as a refund. */
  ghost predicate Driven(reqs: map<int, Request>, id: TxId) {
    exists r :: r in reqs && Owned(reqs[r].pc) == Some(id)
  }

  /** A refund of `id` commits on a row that is no longer COMPLETED: another refund came first. */
  ghost predicate LateCommit(s: State, a: Action, id: TxId) {
    && a.Run? && a.r in s.reqs && s.reqs[a.r].pc.RefundCommit? && s.reqs[a.r].pc.tx.id == id
    && RefundInDb(s.world.db, s.reqs[a.r].pc.tx, a.o.failAt).Ok?
    && id in s.world.db.txns && s.world.db.txns[id].status != Completed
  }

  // ---- What a database block amounts to ----

  /** What a committed creation block amounts to. */
  lemma CreateShape(db: Db, tx: Transaction, failAt: nat)
    requires CreateInDb(db, tx, failAt).Ok?
    ensures var db' := CreateInDb(db, tx, failAt).value;
            && tx.id !in db.txns && tx.merchantId in db.merchants && Acceptable(tx.amountCents, tx.currency)
            && (tx.idempotencyKey != "" ==> tx.idempotencyKey !in db.keyIndex)
            && db' == Db(db.merchants, db.txns[tx.id := tx],
                         if tx.idempotencyKey == "" then db.keyIndex else db.keyIndex[tx.idempotencyKey := tx.id],
                         db.events + [AuditEvent(tx.id, None, Pending)],
                         db.outbox + [OutboxEvent(CreatedEvent, tx.id, tx.status)])
  {
  }

  /** The creation block commits unless one of its statements or its commit fails, the merchant is unknown, the
      amount or the currency is not acceptable, or the ID or the key is taken. */
  lemma CreateCommitsIff(db: Db, tx: Transaction, failAt: nat)
    ensures CreateInDb(db, tx, failAt).Ok?
       <==> && failAt > 4 && tx.merchantId in db.merchants && tx.id !in db.txns
            && tx.amountCents > 0 && tx.currency in {"CAD", "USD"}
            && (tx.idempotencyKey == "" || tx.idempotencyKey !in db.keyIndex)
    ensures CreateInDb(db, tx, failAt) == Err(UniqueViolation)
       <==> && failAt > 1 && tx.merchantId in db.merchants && tx.amountCents > 0 && tx.currency in {"CAD", "USD"}
            && (tx.id in db.txns || (tx.idempotencyKey != "" && tx.idempotencyKey in db.keyIndex))
    ensures CreateInDb(db, tx, failAt).Err? ==> CreateInDb(db, tx, failAt).error in {WriteFailed, UniqueViolation}
  {
  }

  /** The completion or refund block commits unless one of its statements or its commit fails, the row or the merchant
      is unknown, or the balance would go negative. */
  lemma SettleCommitsIff(db: Db, tx: Transaction, from: Status, to: Status, delta: int, event: EventType, failAt: nat)
    ensures SettleInDb(db, tx, from, to, delta, event, failAt).Ok?
       <==> && failAt > 5 && tx.id in db.txns && tx.merchantId in db.merchants
            && db.merchants[tx.merchantId].balanceCents + delta >= 0
    ensures SettleInDb(db, tx, from, to, delta, event, failAt) == Err(InsufficientFunds)
       <==> && failAt > 2 && tx.id in db.txns && tx.merchantId in db.merchants
            && db.merchants[tx.merchantId].balanceCents + delta < 0
    ensures var r := SettleInDb(db, tx, from, to, delta, event, failAt);
            r.Err? ==> r.error in {WriteFailed, TransactionNotFound, MerchantNotFound, InsufficientFunds}
  {
  }

  /** What a committed completion or refund block amounts to. */
  lemma SettleShape(db: Db, tx: Transaction, from: Status, to: Status, delta: int, event: EventType, failAt: nat)
    requires SettleInDb(db, tx, from, to, delta, event, failAt).Ok?
    ensures var db' := SettleInDb(db, tx, from, to, delta, event, failAt).value;
            && tx.id in db.txns && tx.merchantId in db.merchants
            && db.merchants[tx.merchantId].balanceCents + delta >= 0
            && db' == Db(db.merchants[tx.merchantId :=
                           db.merchants[tx.merchantId].(
                             balanceCents := db.merchants[tx.merchantId].balanceCents + delta)],
                         db.txns[tx.id := db.txns[tx.id].(status := to)], db.keyIndex,
                         db.events + [AuditEvent(tx.id, Some(from), to)],
                         db.outbox + [OutboxEvent(event, tx.id, to)])
  {
  }

  // ---- One step of one request ----

  lemma StatementFrames(w: World, tx: Transaction, to: Status, next: Pc, cause: Error, o: Oracle, id: TxId)
    requires id != tx.id
    ensures RowOf(DoMark(w, tx, to, next, o).0, id) == RowOf(w, id)
    ensures RowOf(DoLogProcessing(w, tx, o).0, id) == RowOf(w, id)
    ensures RowOf(DoUndo(w, tx, o).0, id) == RowOf(w, id)
    ensures RowOf(DoEmitFailed(w, tx, cause, o).0, id) == RowOf(w, id)
  {
  }

  lemma LogFrames(w: World, tx: Transaction, next: Pc, undo: Pc, o: Oracle, id: TxId)
    ensures RowOf(DoLog(w, tx, Failed, next, undo, o).0, id) == RowOf(w, id)
  {
  }

  lemma BankFrames(cfg: Config, w: World, tx: Transaction, attempt: nat, outcome: Option<Error>, o: Oracle, id: TxId)
    requires id != tx.id
    ensures RowOf(DoAdmit(w, tx, o).0, id) == RowOf(w, id)
    ensures RowOf(DoCharge(cfg, w, tx, attempt, o).0, id) == RowOf(w, id)
    ensures RowOf(DoReport(w, tx, outcome, o).0, id) == RowOf(w, id)
  {
  }

  lemma BlockFrames(w: World, tx: Transaction, o: Oracle, id: TxId)
    requires id != tx.id
    ensures RowOf(DoPersist(w, tx, o).0, id) == RowOf(w, id)
    ensures RowOf(DoComplete(w, tx, o).0, id) == RowOf(w, id)
    ensures RowOf(DoRefundCommit(w, tx, o).0, id) == RowOf(w, id)
  {
    hide CreateInDb, SettleInDb;
    if CreateInDb(w.db, tx, o.failAt).Ok? {
      CreateShape(w.db, tx, o.failAt);
    }
    if CompleteInDb(w.db, tx, o.failAt).Ok? {
      SettleShape(w.db, tx, tx.status, Completed, tx.amountCents, CompletedEvent, o.failAt);
    }
    if RefundInDb(w.db, tx, o.failAt).Ok? {
      SettleShape(w.db, tx, Completed, Refunded, -tx.amountCents, RefundedEvent, o.failAt);
    }
  }

  lemma RowsUntouched(cfg: Config, w: World, call: Call, pc: Pc, o: Oracle)
    requires !pc.Persist? && !pc.Complete? && !pc.RefundCommit?
    requires !pc.MarkProcessing? && !pc.MarkFailed? && !pc.UndoProcessing? && !pc.UndoFailed?
    ensures Advance(cfg, w, call, pc, o).0.db.txns == w.db.txns
  {
  }

  /** A step touches only the row its request drives. */
  lemma StepFrames(cfg: Config, w: World, call: Call, pc: Pc, o: Oracle, id: TxId)
    requires id != Subject(pc)
    ensures RowOf(Advance(cfg, w, call, pc, o).0, id) == RowOf(w, id)
  {
    hide RowOf, DoMark, DoLog, DoLogProcessing, DoUndo, DoEmitFailed, DoAdmit, DoCharge, DoReport,
         DoPersist, DoComplete, DoRefundCommit, DoCheckKey, DoLookup, DoRefundLoad, DoWait;
    if pc.Persist? || pc.Complete? || pc.RefundCommit? {
      BlockFrames(w, pc.tx, o, id);
    } else if pc.MarkProcessing? {
      StatementFrames(w, pc.tx, Processing, LogProcessing(pc.tx), WriteFailed, o, id);
    } else if pc.MarkFailed? {
      StatementFrames(w, pc.tx, Failed, LogFailed(pc.tx, pc.cause), pc.cause, o, id);
    } else if pc.LogFailed? {
      LogFrames(w, pc.tx, EmitFailed(pc.tx, pc.cause), UndoFailed(pc.tx), o, id);
    } else if pc.EmitFailed? {
      StatementFrames(w, pc.tx, Failed, pc, pc.cause, o, id);
    } else if pc.LogProcessing? || pc.UndoProcessing? || pc.UndoFailed? {
      StatementFrames(w, pc.tx, Failed, pc, WriteFailed, o, id);
    } else if pc.Admit? {
      BankFrames(cfg, w, pc.tx, 0, None, o, id);
    } else if pc.ChargeBank? {
      BankFrames(cfg, w, pc.tx, pc.attempt, None, o, id);
    } else if pc.Report? {
      BankFrames(cfg, w, pc.tx, 0, pc.outcome, o, id);
    }
  }

  /** Row and request are consistent after a step that drove `id`. */
  ghost predicate Kept(cfg: Config, id: TxId, w': World, pc': Pc) {
    && RowOk(RowOf(w', id), id, Attempts(cfg.maxAttempts))
    && (Owned(pc') == Some(id) || Owned(pc') == None)
    && PcOk(cfg, pc', RowOf(w', id))
    && !pc'.Persist? && !pc'.RefundCommit?
  }

  ghost predicate Ready(cfg: Config, w: World, pc: Pc) {
    && RowOk(RowOf(w, Subject(pc)), Subject(pc), Attempts(cfg.maxAttempts))
    && PcOk(cfg, pc, RowOf(w, Subject(pc)))
  }

  lemma KeptByPersist(cfg: Config, w: World, tx: Transaction, o: Oracle)
    requires Ready(cfg, w, Persist(tx))
    ensures var (w', pc') := DoPersist(w, tx, o); Kept(cfg, tx.id, w', pc')
  {
    hide CreateInDb;
    if CreateInDb(w.db, tx, o.failAt).Ok? {
      CreateShape(w.db, tx, o.failAt);
    }
  }

  lemma KeptByMarkProcessing(cfg: Config, w: World, tx: Transaction, o: Oracle)
    requires Ready(cfg, w, MarkProcessing(tx))
    ensures var (w', pc') := DoMarkProcessing(w, tx, o); Kept(cfg, tx.id, w', pc')
  {
  }

  lemma KeptByMarkFailed(cfg: Config, w: World, tx: Transaction, cause: Error, o: Oracle)
    requires Ready(cfg, w, MarkFailed(tx, cause))
    ensures var (w', pc') := DoMark(w, tx, Failed, LogFailed(tx, cause), o); Kept(cfg, tx.id, w', pc')
  {
  }

  lemma KeptByLogProcessing(cfg: Config, w: World, tx: Transaction, o: Oracle)
    requires Ready(cfg, w, LogProcessing(tx))
    ensures var (w', pc') := DoLogProcessing(w, tx, o); Kept(cfg, tx.id, w', pc')
  {
  }

  lemma KeptByLogFailed(cfg: Config, w: World, tx: Transaction, cause: Error, o: Oracle)
    requires Ready(cfg, w, LogFailed(tx, cause))
    ensures var (w', pc') := DoLog(w, tx, Failed, EmitFailed(tx, cause), UndoFailed(tx), o); Kept(cfg, tx.id, w', pc')
  {
  }

  lemma KeptByEmitFailed(cfg: Config, w: World, tx: Transaction, cause: Error, o: Oracle)
    requires Ready(cfg, w, EmitFailed(tx, cause))
    ensures var (w', pc') := DoEmitFailed(w, tx, cause, o); Kept(cfg, tx.id, w', pc')
  {
  }

  lemma KeptByUndo(cfg: Config, w: World, pc: Pc, o: Oracle)
    requires (pc.UndoProcessing? || pc.UndoFailed?) && Ready(cfg, w, pc)
    ensures var (w', pc') := DoUndo(w, pc.tx, o); Kept(cfg, pc.tx.id, w', pc')
  {
  }

  lemma KeptByAdmit(cfg: Config, w: World, tx: Transaction, o: Oracle)
    requires Ready(cfg, w, Admit(tx))
    ensures var (w', pc') := DoAdmit(w, tx, o); Kept(cfg, tx.id, w', pc')
  {
    hide Next, Admits;
  }

  lemma KeptByWait(cfg: Config, w: World, tx: Transaction, attempt: nat, o: Oracle)
    requires Ready(cfg, w, Wait(tx, attempt))
    ensures Kept(cfg, tx.id, w, DoWait(tx, attempt, o))
  {
  }

  lemma KeptByReport(cfg: Config, w: World, tx: Transaction, outcome: Option<Error>, o: Oracle)
    requires Ready(cfg, w, Report(tx, outcome))
    ensures var (w', pc') := DoReport(w, tx, outcome, o); Kept(cfg, tx.id, w', pc')
  {
    hide Next;
  }

  lemma KeptByCharge(cfg: Config, w: World, tx: Transaction, attempt: nat, o: Oracle)
    requires Ready(cfg, w, ChargeBank(tx, attempt))
    ensures var (w', pc') := DoCharge(cfg, w, tx, attempt, o); Kept(cfg, tx.id, w', pc')
  {
    var log := Log(w, tx.id) + [o.bank];
    assert forall i :: 0 <= i < |log| - 1 ==> log[i] == Log(w, tx.id)[i];
  }

  lemma KeptByComplete(cfg: Config, w: World, tx: Transaction, o: Oracle)
    requires Ready(cfg, w, Complete(tx))
    ensures var (w', pc') := DoComplete(w, tx, o); Kept(cfg, tx.id, w', pc')
  {
    hide SettleInDb;
    if CompleteInDb(w.db, tx, o.failAt).Ok? {
      SettleShape(w.db, tx, tx.status, Completed, tx.amountCents, CompletedEvent, o.failAt);
    }
  }

  lemma KeptByRefund(cfg: Config, w: World, tx: Transaction, o: Oracle)
    requires Ready(cfg, w, RefundCommit(tx))
    ensures var (w', pc') := DoRefundCommit(w, tx, o); Kept(cfg, tx.id, w', pc')
  {
    hide SettleInDb;
    if RefundInDb(w.db, tx, o.failAt).Ok? {
      SettleShape(w.db, tx, Completed, Refunded, -tx.amountCents, RefundedEvent, o.failAt);
    }
  }

  lemma RefundRow(cfg: Config, w: World, tx: Transaction, o: Oracle)
    requires Ready(cfg, w, RefundCommit(tx))
    ensures RowOf(DoRefundCommit(w, tx, o).0, tx.id).tx in {RowOf(w, tx.id).tx, Some(tx.(status := Refunded))}
  {
    hide SettleInDb, RowOk;
    if RefundInDb(w.db, tx, o.failAt).Ok? {
      SettleShape(w.db, tx, Completed, Refunded, -tx.amountCents, RefundedEvent, o.failAt);
    }
  }

  lemma KeptByStep(cfg: Config, w: World, call: Call, pc: Pc, o: Oracle)
    requires Ready(cfg, w, pc) && (Owned(pc).Some? || pc.Persist?)
    ensures var (w', pc') := Advance(cfg, w, call, pc, o); Kept(cfg, pc.tx.id, w', pc')
  {
    hide Kept, Ready, DoMark, DoMarkProcessing, DoLog, DoLogProcessing, DoUndo, DoEmitFailed, DoAdmit, DoCharge,
         DoReport, DoPersist, DoComplete, DoRefundCommit, DoCheckKey, DoLookup, DoRefundLoad, DoWait;
    match pc
    case Persist(tx) => KeptByPersist(cfg, w, tx, o);
    case MarkProcessing(tx) => KeptByMarkProcessing(cfg, w, tx, o);
    case LogProcessing(tx) => KeptByLogProcessing(cfg, w, tx, o);
    case UndoProcessing(_) => KeptByUndo(cfg, w, pc, o);
    case Admit(tx) => KeptByAdmit(cfg, w, tx, o);
    case ChargeBank(tx, attempt) => KeptByCharge(cfg, w, tx, attempt, o);
    case Wait(tx, attempt) => KeptByWait(cfg, w, tx, attempt, o);
    case Report(tx, outcome) => KeptByReport(cfg, w, tx, outcome, o);
    case Complete(tx) => KeptByComplete(cfg, w, tx, o);
    case MarkFailed(tx, cause) => KeptByMarkFailed(cfg, w, tx, cause, o);
    case LogFailed(tx, cause) => KeptByLogFailed(cfg, w, tx, cause, o);
    case EmitFailed(tx, cause) => KeptByEmitFailed(cfg, w, tx, cause, o);
    case UndoFailed(_) => KeptByUndo(cfg, w, pc, o);
    case RefundCommit(tx) => KeptByRefund(cfg, w, tx, o);
  }

  // ---- The tables across one step ----

  ghost predicate TablesKept(db: Db, db': Db, opening: map<MerchantId, Merchant>) {
    Grounded(db, opening) && IndexOk(db) ==> Grounded(db', opening) && IndexOk(db')
  }

  lemma StatusKeepsTables(db: Db, id: TxId, status: Status, opening: map<MerchantId, Merchant>)
    requires id in db.txns
    ensures TablesKept(db, db.(txns := db.txns[id := db.txns[id].(status := status)]), opening)
  {
  }

  lemma CreateKeepsTables(db: Db, tx: Transaction, failAt: nat, opening: map<MerchantId, Merchant>)
    requires CreateInDb(db, tx, failAt).Ok?
    ensures TablesKept(db, CreateInDb(db, tx, failAt).value, opening)
  {
    hide CreateInDb;
    CreateShape(db, tx, failAt);
  }

  lemma SettleKeepsTables(db: Db, tx: Transaction, from: Status, to: Status, delta: int, event: EventType, failAt: nat,
                          opening: map<MerchantId, Merchant>)
    requires SettleInDb(db, tx, from, to, delta, event, failAt).Ok?
    ensures TablesKept(db, SettleInDb(db, tx, from, to, delta, event, failAt).value, opening)
  {
    hide SettleInDb;
    SettleShape(db, tx, from, to, delta, event, failAt);
  }

  lemma SameTables(db: Db, db': Db, opening: map<MerchantId, Merchant>)
    requires db' == db.(events := db'.events, outbox := db'.outbox)
    ensures TablesKept(db, db', opening)
  {
  }

  lemma BlockKeepsTables(w: World, pc: Pc, o: Oracle, opening: map<MerchantId, Merchant>)
    requires pc.Persist? || pc.Complete? || pc.RefundCommit?
    ensures TablesKept(w.db, BlockStep(w, pc, o).0.db, opening)
  {
    hide CreateInDb, SettleInDb, TablesKept;
    SameTables(w.db, w.db, opening);
    if pc.Persist? && CreateInDb(w.db, pc.tx, o.failAt).Ok? {
      CreateKeepsTables(w.db, pc.tx, o.failAt, opening);
    } else if pc.Complete? && CompleteInDb(w.db, pc.tx, o.failAt).Ok? {
      SettleKeepsTables(w.db, pc.tx, pc.tx.status, Completed, pc.tx.amountCents, CompletedEvent, o.failAt, opening);
    } else if pc.RefundCommit? && RefundInDb(w.db, pc.tx, o.failAt).Ok? {
      SettleKeepsTables(w.db, pc.tx, Completed, Refunded, -pc.tx.amountCents, RefundedEvent, o.failAt, opening);
    }
  }

  /** The step of a request that runs a database block. */
  function BlockStep(w: World, pc: Pc, o: Oracle): (World, Pc)
    requires pc.Persist? || pc.Complete? || pc.RefundCommit?
  {
    if pc.Persist? then DoPersist(w, pc.tx, o)
    else if pc.Complete? then DoComplete(w, pc.tx, o)
    else DoRefundCommit(w, pc.tx, o)
  }

  lemma StatementKeepsTables(w: World, tx: Transaction, to: Status, next: Pc, o: Oracle,
                             opening: map<MerchantId, Merchant>)
    ensures TablesKept(w.db, DoMark(w, tx, to, next, o).0.db, opening)
    ensures TablesKept(w.db, DoUndo(w, tx, o).0.db, opening)
  {
    hide TablesKept;
    SameTables(w.db, w.db, opening);
    if tx.id in w.db.txns {
      StatusKeepsTables(w.db, tx.id, to, opening);
      StatusKeepsTables(w.db, tx.id, tx.status, opening);
    }
  }

  lemma StepKeepsTables(cfg: Config, w: World, call: Call, pc: Pc, o: Oracle, opening: map<MerchantId, Merchant>)
    ensures TablesKept(w.db, Advance(cfg, w, call, pc, o).0.db, opening)
  {
    hide TablesKept, DoPersist, DoComplete, DoRefundCommit, DoMark, DoUndo;
    if pc.Persist? || pc.Complete? || pc.RefundCommit? {
      BlockKeepsTables(w, pc, o, opening);
    } else if pc.MarkProcessing? {
      SameTables(w.db, w.db, opening);
      StatementKeepsTables(w, pc.tx, Processing, LogProcessing(pc.tx), o, opening);
    } else if pc.MarkFailed? {
      StatementKeepsTables(w, pc.tx, Failed, LogFailed(pc.tx, pc.cause), o, opening);
    } else if pc.UndoProcessing? || pc.UndoFailed? {
      StatementKeepsTables(w, pc.tx, Failed, pc, o, opening);
    } else {
      SameTables(w.db, Advance(cfg, w, call, pc, o).0.db, opening);
    }
  }

  // ---- The invariant over every step of every interleaving ----

  /** What one step of request `r` did to the rows, without saying which step it was. */
  ghost predicate Effect(s: State, r: int, s': State) {
    && r in s.reqs && s'.reqs.Keys == s.reqs.Keys && s'.cfg == s.cfg
    && (forall q :: q in s.reqs && q != r ==> s'.reqs[q] == s.reqs[q])
    && var pc, pc' := s.reqs[r].pc, s'.reqs[r].pc;
       && (forall id :: id != Subject(pc) ==> RowOf(s'.world, id) == RowOf(s.world, id))
       && if Owned(pc).Some? || pc.Persist? then
            && Kept(s.cfg, Subject(pc), s'.world, pc')
            && (pc.Persist? && RowOf(s.world, Subject(pc)).tx.Some? ==> s'.world == s.world && Owned(pc') == None)
            && (pc.RefundCommit? ==>
                  && Owned(pc') == None
                  && RowOf(s'.world, pc.tx.id).tx in {RowOf(s.world, pc.tx.id).tx, Some(pc.tx.(status := Refunded))})
          else
            && s'.world == s.world && PcOk(s.cfg, pc', RowOf(s.world, Subject(pc')))
            && (Owned(pc') == None || FreshRefund(s.world, pc'))
  }

  /** A refund that has just read its row. */
  ghost predicate FreshRefund(w: World, pc: Pc) {
    pc.RefundCommit? && pc.tx.status == Completed && RowOf(w, pc.tx.id).tx == Some(pc.tx)
  }

  lemma IdleRefundLoad(cfg: Config, w: World, m: MerchantId, id: TxId, o: Oracle)
    requires RowOk(RowOf(w, id), id, Attempts(cfg.maxAttempts))
    ensures var pc' := DoRefundLoad(w, m, id, o);
            PcOk(cfg, pc', RowOf(w, Subject(pc'))) && (Owned(pc') == None || FreshRefund(w, pc'))
  {
  }

  lemma IdleStep(cfg: Config, w: World, call: Call, pc: Pc, o: Oracle)
    requires Owned(pc) == None && !pc.Persist? && PcOk(cfg, pc, RowOf(w, Subject(pc)))
    requires call.Refund? ==> RowOk(RowOf(w, call.txId), call.txId, Attempts(cfg.maxAttempts))
    ensures var (w', pc') := Advance(cfg, w, call, pc, o);
            && w' == w && PcOk(cfg, pc', RowOf(w, Subject(pc')))
            && (Owned(pc') == None || FreshRefund(w, pc'))
  {
    hide DoRefundLoad, RowOk, RowOf;
    if pc.RefundLoad? && call.Refund? {
      IdleRefundLoad(cfg, w, call.merchantId, call.txId, o);
    }
  }

  /** The primary key: creating an ID that exists fails and changes nothing. */
  lemma TakenIdRefused(cfg: Config, w: World, call: Call, tx: Transaction, o: Oracle)
    requires tx.id in w.db.txns
    ensures var (w', pc') := Advance(cfg, w, call, Persist(tx), o); w' == w && Owned(pc') == None
  {
    assert Advance(cfg, w, call, Persist(tx), o) == DoPersist(w, tx, o);
  }

  lemma RefundAnswers(cfg: Config, w: World, call: Call, tx: Transaction, o: Oracle)
    requires Ready(cfg, w, RefundCommit(tx))
    ensures var (w', pc') := Advance(cfg, w, call, RefundCommit(tx), o);
            && Owned(pc') == None
            && RowOf(w', tx.id).tx in {RowOf(w, tx.id).tx, Some(tx.(status := Refunded))}
  {
    hide Ready, RowOf, RefundInDb;
    RefundRow(cfg, w, tx, o);
    assert Advance(cfg, w, call, RefundCommit(tx), o) == DoRefundCommit(w, tx, o);
  }

  lemma RunHasEffect(s: State, a: Action, s': State, opening: map<MerchantId, Merchant>)
    requires Inv(s, opening) && Step(s, a, s') && a.Run?
    ensures Effect(s, a.r, s')
  {
    hide Advance;
    var Request(call, pc) := s.reqs[a.r];
    var (w', pc') := Advance(s.cfg, s.world, call, pc, a.o);
    assert s'.world == w' && s'.reqs[a.r].pc == pc';
    forall id | id != Subject(pc) ensures RowOf(w', id) == RowOf(s.world, id) {
      StepFrames(s.cfg, s.world, call, pc, a.o, id);
    }
    if Owned(pc).Some? || pc.Persist? {
      KeptByStep(s.cfg, s.world, call, pc, a.o);
      if pc.Persist? && pc.tx.id in s.world.db.txns {
        TakenIdRefused(s.cfg, s.world, call, pc.tx, a.o);
      }
      if pc.RefundCommit? {
        RefundAnswers(s.cfg, s.world, call, pc.tx, a.o);
      }
    } else {
      IdleStep(s.cfg, s.world, call, pc, a.o);
    }
  }

  lemma RowsKept(s: State, r: int, s': State, opening: map<MerchantId, Merchant>)
    requires Inv(s, opening) && Effect(s, r, s')
    ensures forall id :: RowOk(RowOf(s'.world, id), id, Attempts(s.cfg.maxAttempts))
  {
    forall id ensures RowOk(RowOf(s'.world, id), id, Attempts(s.cfg.maxAttempts)) {
      if id != Subject(s.reqs[r].pc) {
        assert RowOf(s'.world, id) == RowOf(s.world, id);
      }
    }
  }

  lemma UnownedPcOk(cfg: Config, pc: Pc, row: Row, row': Row)
    requires Owned(pc) == None && PcOk(cfg, pc, row)
    ensures PcOk(cfg, pc, row')
  {
    hide Holds;
  }

  /** Two refunds hold the same copy of the row, and either may find it refunded by the other. */
  lemma RefundPcKept(cfg: Config, mine: Transaction, other: Transaction, row: Row, row': Row)
    requires PcOk(cfg, RefundCommit(mine), row) && PcOk(cfg, RefundCommit(other), row)
    requires row'.tx in {row.tx, Some(other.(status := Refunded))}
    ensures PcOk(cfg, RefundCommit(mine), row')
  {
  }

  lemma OwnedRowExists(cfg: Config, pc: Pc, row: Row)
    requires PcOk(cfg, pc, row) && Owned(pc).Some?
    ensures row.tx.Some?
  {
    hide AttemptLog, AllRetryable, Approved;
  }

  lemma PcsKept(s: State, r: int, s': State, opening: map<MerchantId, Merchant>, q: int)
    requires Inv(s, opening) && Effect(s, r, s') && q in s'.reqs
    ensures PcOk(s.cfg, s'.reqs[q].pc, RowOf(s'.world, Subject(s'.reqs[q].pc)))
  {
    if q == r {
      RunnerPcKept(s, r, s');
    } else {
      BystanderPcKept(s, r, s', opening, q);
    }
  }

  lemma RunnerPcKept(s: State, r: int, s': State)
    requires Effect(s, r, s')
    ensures PcOk(s.cfg, s'.reqs[r].pc, RowOf(s'.world, Subject(s'.reqs[r].pc)))
  {
    hide RowOk, PcOk;
    var pc, pc' := s.reqs[r].pc, s'.reqs[r].pc;
    if (Owned(pc).Some? || pc.Persist?) && Owned(pc') == None {
      UnownedPcOk(s.cfg, pc', RowOf(s'.world, Subject(pc)), RowOf(s'.world, Subject(pc')));
    }
  }

  lemma BystanderPcKept(s: State, r: int, s': State, opening: map<MerchantId, Merchant>, q: int)
    requires Inv(s, opening) && Effect(s, r, s') && q in s'.reqs && q != r
    ensures PcOk(s.cfg, s'.reqs[q].pc, RowOf(s'.world, Subject(s'.reqs[q].pc)))
  {
    hide Grounded, IndexOk, RowOk, PcOk, Kept;
    var pc, other := s.reqs[q].pc, s.reqs[r].pc;
    var row, row' := RowOf(s.world, Subject(pc)), RowOf(s'.world, Subject(pc));
    assert PcOk(s.cfg, pc, row) && PcOk(s.cfg, other, RowOf(s.world, Subject(other))) && MayCoexist(pc, other);
    if Owned(pc) == None {
      if pc.Persist? { PersistPcOk(s.cfg, pc, row, row'); } else { UnownedPcOk(s.cfg, pc, row, row'); }
    } else {
      OwnedRowExists(s.cfg, pc, row);
      if Subject(other) != Subject(pc) {
        assert row' == row;
      } else if other.RefundCommit? {
        RefundPcKept(s.cfg, pc.tx, other.tx, row, row');
      }
    }
  }

  lemma PersistPcOk(cfg: Config, pc: Pc, row: Row, row': Row)
    requires pc.Persist? && PcOk(cfg, pc, row)
    ensures PcOk(cfg, pc, row')
  {
  }

  lemma OwnershipKept(s: State, r: int, s': State, opening: map<MerchantId, Merchant>, q: int)
    requires Inv(s, opening) && Effect(s, r, s') && q in s'.reqs && q != r
    ensures MayCoexist(s'.reqs[q].pc, s'.reqs[r].pc) && MayCoexist(s'.reqs[r].pc, s'.reqs[q].pc)
  {
    hide Grounded, IndexOk, RowOk, PcOk;
    var pc := s.reqs[q].pc;
    assert MayCoexist(pc, s.reqs[r].pc) && PcOk(s.cfg, pc, RowOf(s.world, Subject(pc)));
    if Owned(pc).Some? {
      OwnedRowExists(s.cfg, pc, RowOf(s.world, Subject(pc)));
      if Owned(s'.reqs[r].pc) == Owned(pc) && s'.reqs[r].pc.RefundCommit? {
        RefundableRow(s.cfg, pc, RowOf(s.world, Subject(pc)));
      }
    }
  }

  /** Only a refund drives a COMPLETED row. */
  lemma RefundableRow(cfg: Config, pc: Pc, row: Row)
    requires PcOk(cfg, pc, row) && Owned(pc).Some? && row.tx.Some?
    ensures row.tx.value.status == Completed ==> pc.RefundCommit?
  {
    hide AttemptLog, AllRetryable, Approved;
  }

  lemma StepKeepsInv(s: State, a: Action, s': State, opening: map<MerchantId, Merchant>)
    requires Inv(s, opening) && Step(s, a, s')
    ensures Inv(s', opening) && s'.cfg == s.cfg
  {
    hide Advance, RowOk, PcOk, Grounded, IndexOk;
    if a.Run? {
      RunHasEffect(s, a, s', opening);
      StepKeepsTables(s.cfg, s.world, s.reqs[a.r].call, s.reqs[a.r].pc, a.o, opening);
      EffectKeepsInv(s, a.r, s', opening);
    } else {
      IdleKeepsInv(s, a, s', opening);
    }
  }

  /** Arriving and stopping leave every row, and every other request, as it was. */
  lemma IdleKeepsInv(s: State, a: Action, s': State, opening: map<MerchantId, Merchant>)
    requires Inv(s, opening) && Step(s, a, s') && !a.Run?
    ensures Inv(s', opening)
  {
    hide Advance, RowOk, Grounded, IndexOk, RowOf, PcOk, Init;
    assert s'.world == s.world && s'.cfg == s.cfg;
    assert forall q :: q in s'.reqs && q != a.r ==> q in s.reqs && s'.reqs[q] == s.reqs[q];
    assert Owned(s'.reqs[a.r].pc) == None;
    IdlePcOk(s, a, s');
  }

  lemma IdlePcOk(s: State, a: Action, s': State)
    requires Step(s, a, s') && !a.Run?
    ensures PcOk(s'.cfg, s'.reqs[a.r].pc, RowOf(s'.world, Subject(s'.reqs[a.r].pc)))
  {
    hide Advance, RowOf;
  }

  lemma EffectKeepsInv(s: State, r: int, s': State, opening: map<MerchantId, Merchant>)
    requires Inv(s, opening) && Effect(s, r, s') && TablesKept(s.world.db, s'.world.db, opening)
    ensures Inv(s', opening)
  {
    hide Grounded, IndexOk, RowOk, PcOk;
    RowsKept(s, r, s', opening);
    forall q | q in s'.reqs ensures PcOk(s.cfg, s'.reqs[q].pc, RowOf(s'.world, Subject(s'.reqs[q].pc))) {
      PcsKept(s, r, s', opening, q);
    }
    forall q | q in s'.reqs && q != r
      ensures MayCoexist(s'.reqs[q].pc, s'.reqs[r].pc) && MayCoexist(s'.reqs[r].pc, s'.reqs[q].pc)
    {
      OwnershipKept(s, r, s', opening, q);
    }
  }

  lemma InvAtStart(s: State)
    requires Init(s)
    ensures Inv(s, s.world.db.merchants)
  {
  }

  lemma RunStep(states: seq<State>, actions: seq<Action>, k: nat)
    requires IsRun(states, actions) && k < |actions|
    ensures |states| == |actions| + 1 && Init(states[0]) && Step(states[k], actions[k], states[k + 1])
  {
    hide Step, Init;
  }

  lemma {:induction false} InvOnRuns(states: seq<State>, actions: seq<Action>, i: nat)
    requires IsRun(states, actions) && i < |states|
    ensures Inv(states[i], states[0].world.db.merchants) && states[i].cfg == states[0].cfg
  {
    hide Inv, Step, Init;
    if i == 0 {
      InvAtStart(states[0]);
    } else {
      InvOnRuns(states, actions, i - 1);
      StepKeepsInv(states[i - 1], actions[i - 1], states[i], states[0].world.db.merchants);
    }
  }

  // ---- Main results ----

  lemma AmountsPositive(s: State, opening: map<MerchantId, Merchant>)
    requires Inv(s, opening)
    ensures forall id :: id in s.world.db.txns ==> s.world.db.txns[id].amountCents > 0
  {
    forall id | id in s.world.db.txns ensures s.world.db.txns[id].amountCents > 0 {
      assert RowOk(RowOf(s.world, id), id, Attempts(s.cfg.maxAttempts));
    }
  }

  /** Whatever refunds overlap: the guard in the balance update keeps every balance from going negative. */
  lemma NoNegativeBalance(states: seq<State>, actions: seq<Action>, i: nat, m: MerchantId)
    requires IsRun(states, actions) && i < |states| && m in states[i].world.db.merchants
    ensures states[i].world.db.merchants[m].balanceCents >= 0
  {
    InvOnRuns(states, actions, i);
  }

  /** Credit follows approval: COMPLETED or REFUNDED only after an approving last charge,
      an approved transaction is never FAILED, the charge log obeys the retry policy,
      and the breaker's refusal means that the bank was never called. */
  lemma CreditFollowsApproval(states: seq<State>, actions: seq<Action>, i: nat, id: TxId)
    requires IsRun(states, actions) && i < |states| && id in states[i].world.db.txns
    ensures var w := states[i].world; var log, status := Log(w, id), w.db.txns[id].status;
            && (status == Completed || status == Refunded ==> log != [] && log[|log| - 1] == None)
            && (log != [] && log[|log| - 1] == None ==> status != Failed)
            && |log| <= (if states[0].cfg.maxAttempts > 0 then states[0].cfg.maxAttempts else 1)
            && (forall k :: 0 <= k < |log| - 1 ==>
                  log[k] in {Some(BankTimeout), Some(BankUnavailable), Some(DeadlineExceeded)})
            && (id in w.rejected ==> log == [])
            && w.stages[id] <= 1
            && w.credits[id] == (if status == Completed || status == Refunded then 1 else 0)
  {
    InvOnRuns(states, actions, i);
    assert RowOk(RowOf(states[i].world, id), id, Attempts(states[i].cfg.maxAttempts));
  }
}
