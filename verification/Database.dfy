// The PostgreSQL tables and the statements the repositories issue on them. Each
// statement is one atomic step; `fault` is its nondeterministic error, which
// leaves the tables as they were. The multi-statement blocks run by
// withTransaction (internal/service/payment.go) either commit whole or roll back.

module Database {
  import opened Domain

  datatype Db = Db(
    merchants: map<MerchantId, Merchant>,
    txns: map<TxId, Transaction>,
    keyIndex: map<string, TxId>,     // the unique index on idempotency_key
    events: seq<AuditEvent>,
    outbox: seq<OutboxEvent>)        // a row's id is its position

  function InsertTransaction(db: Db, t: Transaction, fault: bool): Result<Db, Error> {
    if fault || t.merchantId !in db.merchants || !Acceptable(t.amountCents, t.currency) then Err(WriteFailed)
    else if t.id in db.txns || (t.idempotencyKey != "" && t.idempotencyKey in db.keyIndex) then Err(UniqueViolation)
    else Ok(db.(txns := db.txns[t.id := t],
                keyIndex := if t.idempotencyKey == "" then db.keyIndex else db.keyIndex[t.idempotencyKey := t.id]))
  }

  function FindByKey(db: Db, key: string): Option<Transaction> {
    if key in db.keyIndex && db.keyIndex[key] in db.txns then Some(db.txns[db.keyIndex[key]]) else None
  }

  function UpdateStatus(db: Db, id: TxId, status: Status, fault: bool): Result<Db, Error> {
    if fault then Err(WriteFailed)
    else if id !in db.txns then Err(TransactionNotFound)
    else Ok(db.(txns := db.txns[id := db.txns[id].(status := status)]))
  }

  /** The update is guarded in SQL: it changes no row that would go negative. */
  function UpdateBalance(db: Db, m: MerchantId, delta: int, fault: bool): Result<Db, Error> {
    if fault then Err(WriteFailed)
    else if m !in db.merchants then Err(MerchantNotFound)
    else if db.merchants[m].balanceCents + delta < 0 then Err(InsufficientFunds)
    else Ok(db.(merchants := db.merchants[m := db.merchants[m].(balanceCents := db.merchants[m].balanceCents + delta)]))
  }

  function InsertEvent(db: Db, e: AuditEvent, fault: bool): Result<Db, Error> {
    if fault || e.txId !in db.txns then Err(WriteFailed) else Ok(db.(events := db.events + [e]))
  }

  function InsertOutbox(db: Db, e: OutboxEvent, fault: bool): Result<Db, Error> {
    if fault then Err(WriteFailed) else Ok(db.(outbox := db.outbox + [e]))
  }

  function Commit(db: Db, fault: bool): Result<Db, Error> {
    if fault then Err(WriteFailed) else Ok(db)
  }

  // In the blocks below `failAt` numbers the statement that fails: 0 is BEGIN, the
  // last one COMMIT; any larger number means that none does.
  const NO_FAULT := 6

  function CreateInDb(db: Db, tx: Transaction, failAt: nat): Result<Db, Error> {
    if failAt == 0 then Err(WriteFailed) else
    var db1 :- InsertTransaction(db, tx, failAt == 1);
    var db2 :- InsertEvent(db1, AuditEvent(tx.id, None, Pending), failAt == 2);
    var db3 :- InsertOutbox(db2, OutboxEvent(CreatedEvent, tx.id, tx.status), failAt == 3);
    Commit(db3, failAt == 4)
  }

  /** The steps completion and refund share: status, balance, audit row, outbox row. */
  function SettleInDb(db: Db, tx: Transaction, from: Status, to: Status, delta: int, event: EventType,
                      failAt: nat): Result<Db, Error>
  {
    if failAt == 0 then Err(WriteFailed) else
    var db1 :- UpdateStatus(db, tx.id, to, failAt == 1);
    var db2 :- UpdateBalance(db1, tx.merchantId, delta, failAt == 2);
    var db3 :- InsertEvent(db2, AuditEvent(tx.id, Some(from), to), failAt == 3);
    var db4 :- InsertOutbox(db3, OutboxEvent(event, tx.id, to), failAt == 4);
    Commit(db4, failAt == 5)
  }

  function CompleteInDb(db: Db, tx: Transaction, failAt: nat): Result<Db, Error> {
    SettleInDb(db, tx, tx.status, Completed, tx.amountCents, CompletedEvent, failAt)
  }

  function RefundInDb(db: Db, tx: Transaction, failAt: nat): Result<Db, Error> {
    SettleInDb(db, tx, Completed, Refunded, -tx.amountCents, RefundedEvent, failAt)
  }
}
