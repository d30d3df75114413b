// PaymentService without a database (internal/service/payment.go over
// internal/repository/mock/repos.go): no transaction wraps the writes, so a failed
// completion is compensated by undo writes. Every repository call may fail: a plan says
// which ones do, and what is left behind is stated for every plan.

module Compensation {
  import opened Domain
  import opened Money
  import opened Database
  import opened CircuitBreaking
  import opened Retrying
  import opened Ledger
  import opened LedgerSafety
  import opened LedgerBooks
  import opened BankStage

  // ---- Which calls fail ----

  datatype Moment = AtStart | AtProcess | AtTransition

  /** The calls one request makes. `to` is the status a write records, PENDING on creation. */
  datatype Site =
    | Cancel(at: Moment)
    | ReadKey | ReadMerchant | ReadRow
    | InsertRow | WriteStatus(to: Status) | WriteAudit(to: Status) | Announce(to: Status)
    | WriteCredit | WriteDebit
    | UndoStatus(to: Status) | UndoCredit

  /** The calls that fail; Cancel stands for a context that has ended. */
  type Plan = set<Site>

  predicate NoUndoFails(plan: Plan) {
    UndoCredit !in plan && forall to: Status :: UndoStatus(to) !in plan
  }

  // ---- The in-memory repositories ----

  class MerchantRepo {
    var merchants: map<MerchantId, Merchant>

    constructor (merchants: map<MerchantId, Merchant>)
      ensures this.merchants == merchants
    {
      this.merchants := merchants;
    }

    method GetByID(id: MerchantId, fault: bool) returns (r: Result<Merchant, Error>)
      ensures r.Ok? <==> !fault && id in merchants
      ensures r.Ok? ==> r.value == merchants[id]
      ensures r.Err? ==> r.error == if fault then WriteFailed else MerchantNotFound
    {
      if fault {
        return Err(WriteFailed);
      }
      if id !in merchants {
        return Err(MerchantNotFound);
      }
      return Ok(merchants[id]);
    }

    method UpdateBalance(id: MerchantId, delta: int, fault: bool) returns (err: Option<Error>)
      modifies this
      ensures err == None <==> !fault && id in old(merchants) && old(merchants)[id].balanceCents + delta >= 0
      ensures merchants == if err == None then Credited(old(merchants), id, delta) else old(merchants)
      ensures err.Some? ==> err.value == if fault then BalanceWriteFailed
                                         else if id !in old(merchants) then MerchantNotFound else InsufficientFunds
    {
      if fault {
        return Some(BalanceWriteFailed);
      }
      if id !in merchants {
        return Some(MerchantNotFound);
      }
      var m := merchants[id];
      if m.balanceCents + delta < 0 {
        return Some(InsufficientFunds);
      }
      merchants := merchants[id := m.(balanceCents := m.balanceCents + delta)];
      return None;
    }
  }

  function Credited(merchants: map<MerchantId, Merchant>, id: MerchantId, delta: int): map<MerchantId, Merchant> {
    if id in merchants
    then merchants[id := merchants[id].(balanceCents := merchants[id].balanceCents + delta)]
    else merchants
  }

  function WithStatus(rows: map<TxId, Transaction>, id: TxId, status: Status): map<TxId, Transaction> {
    if id in rows then rows[id := rows[id].(status := status)] else rows
  }

  class TransactionRepo {
    var rows: map<TxId, Transaction>
    var order: seq<TxId>

    constructor ()
      ensures rows == map[] && order == []
    {
      rows, order := map[], [];
    }

    /** No unique index here: an existing ID would be overwritten. */
    method Create(t: Transaction, fault: bool) returns (err: Option<Error>)
      modifies this
      ensures err == if fault then Some(WriteFailed) else None
      ensures err == None ==> rows == old(rows)[t.id := t] && order == old(order) + [t.id]
      ensures err.Some? ==> rows == old(rows) && order == old(order)
    {
      if fault {
        return Some(WriteFailed);
      }
      rows := rows[t.id := t];
      order := order + [t.id];
      return None;
    }

    method GetByID(id: TxId, fault: bool) returns (r: Result<Transaction, Error>)
      ensures r.Ok? <==> !fault && id in rows
      ensures r.Ok? ==> r.value == rows[id]
      ensures r.Err? ==> r.error == if fault then WriteFailed else TransactionNotFound
    {
      if fault {
        return Err(WriteFailed);
      }
      if id !in rows {
        return Err(TransactionNotFound);
      }
      return Ok(rows[id]);
    }

    /** Scans the map in no particular order. */
    method GetByIdempotencyKey(key: string, fault: bool) returns (r: Result<Option<Transaction>, Error>)
      ensures r.Err? <==> fault
      ensures r.Ok? && r.value.Some? ==>
                exists id :: id in rows && rows[id] == r.value.value && rows[id].idempotencyKey == key
      ensures r.Ok? && r.value == None ==> forall id :: id in rows ==> rows[id].idempotencyKey != key
      ensures r.Err? ==> r.error == WriteFailed
    {
      if fault {
        return Err(WriteFailed);
      }
      var todo := rows.Keys;
      while todo != {}
        invariant todo <= rows.Keys
        invariant forall id :: id in rows && id !in todo ==> rows[id].idempotencyKey != key
        decreases |todo|
      {
        var id :| id in todo;
        if rows[id].idempotencyKey == key {
          return Ok(Some(rows[id]));
        }
        todo := todo - {id};
      }
      return Ok(None);
    }

    method UpdateStatus(id: TxId, status: Status, fault: bool) returns (err: Option<Error>)
      modifies this`rows
      ensures err == None <==> !fault && id in old(rows)
      ensures rows == if err == None then WithStatus(old(rows), id, status) else old(rows)
      ensures err.Some? ==> err.value == if fault then WriteFailed else TransactionNotFound
    {
      if fault {
        return Some(WriteFailed);
      }
      if id !in rows {
        return Some(TransactionNotFound);
      }
      rows := rows[id := rows[id].(status := status)];
      return None;
    }
  }

  class EventRepo {
    var events: seq<AuditEvent>

    constructor ()
      ensures events == []
    {
      events := [];
    }

    method Create(e: AuditEvent, fault: bool) returns (err: Option<Error>)
      modifies this
      ensures err == if fault then Some(WriteFailed) else None
      ensures events == if err == None then old(events) + [e] else old(events)
    {
      if fault {
        return Some(WriteFailed);
      }
      events := events + [e];
      return None;
    }
  }

  class OutboxRepo {
    var events: seq<OutboxEvent>

    constructor ()
      ensures events == []
    {
      events := [];
    }

    method Create(e: OutboxEvent, fault: bool) returns (err: Option<Error>)
      modifies this
      ensures err == if fault then Some(WriteFailed) else None
      ensures events == if err == None then old(events) + [e] else old(events)
    {
      if fault {
        return Some(WriteFailed);
      }
      events := events + [e];
      return None;
    }
  }

  // ---- The service ----

  /** No row but that of `id` is added, changed or removed. */
  ghost predicate OnlyAdds(rows: map<TxId, Transaction>, rows': map<TxId, Transaction>, id: TxId) {
    rows'.Keys <= rows.Keys + {id} && forall t :: t in rows ==> t in rows' && rows'[t] == rows[t]
  }

  lemma NothingAdded(rows: map<TxId, Transaction>, id: TxId)
    ensures OnlyAdds(rows, rows, id)
  {
  }

  lemma OneAdded(rows: map<TxId, Transaction>, rows': map<TxId, Transaction>, id: TxId)
    requires id !in rows && (rows' == rows || (id in rows' && rows' == rows[id := rows'[id]]))
    ensures OnlyAdds(rows, rows', id)
  {
  }

  ghost predicate KeyTaken(rows: map<TxId, Transaction>, key: string) {
    exists id :: id in rows && rows[id].idempotencyKey == key
  }

  /** Every stored row with the request's key is a copy of it, and none is. */
  ghost predicate AllMatch(rows: map<TxId, Transaction>, input: Input) {
    forall id :: id in rows && rows[id].idempotencyKey == input.key ==> MatchesIdempotentRequest(rows[id], input)
  }

  ghost predicate NoneMatch(rows: map<TxId, Transaction>, input: Input) {
    forall id :: id in rows && rows[id].idempotencyKey == input.key ==> !MatchesIdempotentRequest(rows[id], input)
  }

  function Only<T>(b: bool, rows: seq<T>): seq<T> {
    if b then rows else []
  }

  class PaymentService {
    const merchants: MerchantRepo
    const txns: TransactionRepo
    const events: EventRepo
    const outbox: OutboxRepo?
    const breaker: CircuitBreaker
    const retry: RetryConfig
    const cfg: Config

    constructor (merchants: MerchantRepo, txns: TransactionRepo, events: EventRepo, outbox: OutboxRepo?,
                 breaker: CircuitBreaker, retry: RetryConfig, cfg: Config)
      ensures this.merchants == merchants && this.txns == txns && this.events == events && this.outbox == outbox
      ensures this.breaker == breaker && this.retry == retry && this.cfg == cfg
    {
      this.merchants, this.txns, this.events, this.outbox := merchants, txns, events, outbox;
      this.breaker, this.retry, this.cfg := breaker, retry, cfg;
    }

    /** The tables the books are kept in. */
    ghost function Books(): Db
      reads merchants, txns
    {
      Db(merchants.merchants, txns.rows, map[], [], [])
    }

    ghost function Announcements(): seq<OutboxEvent>
      reads outbox
    {
      if outbox == null then [] else outbox.events
    }

    /** What an announcement adds: nothing without an outbox. */
    ghost function Announcing(rows: seq<OutboxEvent>): seq<OutboxEvent> {
      if outbox == null then [] else rows
    }

    /** What the bank was asked for on this visit, the breaker being `b`: nothing when it is shut, else a charge and as
        many more as the answers and the settings call for. */
    ghost predicate Charged(log: seq<Charge>, b: Breaker, visit: Visit) {
      if Shut(b, visit.asked) then log == []
      else Charges(log, visit, if retry.maxAttempts > 0 then retry.maxAttempts else 1)
    }

    // ---- What a plan leaves behind ----

    /** transition() gets as far as writing the new status. */
    ghost predicate Writes(plan: Plan, from: Status, to: Status, cancellable: bool) {
      !(cancellable && Cancel(AtTransition) in plan) && CanTransition(from, to) && WriteStatus(to) !in plan
    }

    /** The audit row and the announcement of a transition, if it has one, work. */
    ghost predicate Lands(plan: Plan, to: Status) {
      WriteAudit(to) !in plan && !(outbox != null && to in {Completed, Failed} && Announce(to) in plan)
    }

    /** A completion that succeeds, one that leaves the row COMPLETED, and one that leaves the credit. */
    ghost predicate Completes(plan: Plan) {
      WriteCredit !in plan && WriteStatus(Completed) !in plan && Lands(plan, Completed)
    }

    ghost predicate LeavesCompleted(plan: Plan) {
      WriteCredit !in plan && WriteStatus(Completed) !in plan &&
          (Lands(plan, Completed) || UndoStatus(Completed) in plan)
    }

    ghost predicate LeavesCredit(plan: Plan) {
      WriteCredit !in plan && (Completes(plan) || UndoCredit in plan)
    }

    /** The credit was made, the completion failed after it, and exactly one of the undo writes it needed failed:
        the debit when the status had not been written, else either the debit or the status write. */
    ghost predicate BooksLost(plan: Plan) {
      && WriteCredit !in plan && !Completes(plan)
      && if WriteStatus(Completed) in plan then UndoCredit in plan
         else (UndoCredit in plan) != (UndoStatus(Completed) in plan)
    }

    /** The insertion, its audit row and its announcement work. */
    ghost predicate Creates(plan: Plan) {
      plan !! {InsertRow, WriteAudit(Pending)} && !(outbox != null && Announce(Pending) in plan)
    }

    /** A new and valid request that every read lets through. */
    ghost predicate Accepts(rows: map<TxId, Transaction>, merchants: map<MerchantId, Merchant>, input: Input,
                            plan: Plan)
    {
      && plan !! {Cancel(AtStart), ReadMerchant}
      && (input.key == "" || (ReadKey !in plan && !KeyTaken(rows, input.key)))
      && input.merchantId in merchants && Validate(cfg, merchants[input.merchantId], input) == None
    }

    ghost predicate ReachesBank(plan: Plan) {
      Cancel(AtProcess) !in plan && Writes(plan, Pending, Processing, true) && Lands(plan, Processing)
    }

    /** A transition failed after its status write, and the write that should have taken the status back failed too. */
    ghost predicate StatusLost(plan: Plan, approved: bool) {
      && Cancel(AtProcess) !in plan && Writes(plan, Pending, Processing, true)
      && if !Lands(plan, Processing) then UndoStatus(Processing) in plan
         else if approved then LeavesCompleted(plan) && !Completes(plan)
         else FailedStays(plan)
    }

    ghost predicate FailedStays(plan: Plan) {
      WriteStatus(Failed) !in plan && !Lands(plan, Failed) && UndoStatus(Failed) in plan
    }

    /** The status a processed payment is stored with, and the one it is returned with. */
    ghost function StoredStatus(plan: Plan, approved: bool): Status {
      if !ReachesBank(plan) then if StatusLost(plan, approved) then Processing else Pending
      else if approved then if LeavesCompleted(plan) then Completed else Processing
      else if WriteStatus(Failed) !in plan && (Lands(plan, Failed) || UndoStatus(Failed) in plan) then Failed
          else Processing
    }

    ghost function ReturnedStatus(plan: Plan, approved: bool): Status {
      if !ReachesBank(plan) then Pending
      else if approved then if Completes(plan) then Completed else Processing
      else if WriteStatus(Failed) !in plan && Lands(plan, Failed) then Failed else Processing
    }

    /** Without an outbox nothing is emitted and nothing fails. */
    method EmitOutboxEvent(e: OutboxEvent, fault: bool) returns (err: Option<Error>)
      modifies outbox
      ensures err == if outbox != null && fault then Some(WriteFailed) else None
      ensures Announcements() == old(Announcements()) + Only(err == None, Announcing([e]))
    {
      if outbox == null {
        return None;
      }
      err := outbox.Create(e, fault);
    }

    method RollbackTransition(tx: Transaction, cause: Error, fault: bool) returns (errs: seq<Error>)
      requires tx.id in txns.rows
      modifies txns`rows
      ensures errs == [cause] + Only(fault, [RollbackStatus(tx.status)])
      ensures txns.rows == if fault then old(txns.rows) else WithStatus(old(txns.rows), tx.id, tx.status)
    {
      var rollbackErr := txns.UpdateStatus(tx.id, tx.status, fault);
      if rollbackErr != None {
        return [cause, RollbackStatus(tx.status)];
      }
      return [cause];
    }

    /** Every status change: check, persist, audit, announce; undo the status when a later write fails. */
    method Transition(tx: Transaction, to: Status, cancellable: bool, plan: Plan)
        returns (tx': Transaction, errs: seq<Error>)
      requires tx.id in txns.rows && txns.rows[tx.id] == tx
      modifies txns`rows, events, outbox
      ensures var writes := Writes(plan, tx.status, to, cancellable);
              && (errs == [] <==> writes && Lands(plan, to))
              && tx' == (if errs == [] then tx.(status := to) else tx)
              && txns.rows == (if writes && (Lands(plan, to) || UndoStatus(to) in plan)
                               then WithStatus(old(txns.rows), tx.id, to)
                               else old(txns.rows))
              && events.events == old(events.events) +
                   Only(writes && WriteAudit(to) !in plan, [AuditEvent(tx.id, Some(tx.status), to)])
              && Announcements() == old(Announcements())
                   + Only(errs == [] && to == Completed, Announcing([OutboxEvent(CompletedEvent, tx.id, Completed)]))
                   + Only(errs == [] && to == Failed, Announcing([OutboxEvent(FailedEvent, tx.id, Failed)]))
              && (RollbackStatus(tx.status) in errs <==> writes && !Lands(plan, to) && UndoStatus(to) in plan)
      ensures forall e :: e in errs ==> e in {ContextDone, InvalidTransition, WriteFailed, RollbackStatus(tx.status)}
    {
      tx', errs := tx, [];
      StatusSet(txns.rows, tx.id, to);
      hide WithStatus;
      if cancellable && Cancel(AtTransition) in plan {
        return tx, [ContextDone];
      }
      if !CanTransition(tx.status, to) {
        return tx, [InvalidTransition];
      }
      var err := txns.UpdateStatus(tx.id, to, WriteStatus(to) in plan);
      if err != None {
        return tx, [err.value];
      }
      err := events.Create(AuditEvent(tx.id, Some(tx.status), to), WriteAudit(to) in plan);
      if err != None {
        errs := RollbackTransition(tx, err.value, UndoStatus(to) in plan);
        return tx, errs;
      }
      if to == Completed || to == Failed {
        err := EmitOutboxEvent(OutboxEvent(if to == Completed then CompletedEvent else FailedEvent, tx.id, to),
                               Announce(to) in plan);
        if err != None {
          errs := RollbackTransition(tx, err.value, UndoStatus(to) in plan);
          return tx, errs;
        }
      }
      return tx.(status := to), [];
    }

    /** Credit first, then the transition; on failure take the credit back. The compensating debit fails only
        where the plan makes it, never for lack of funds. */
    method CompleteWithMocks(tx: Transaction, plan: Plan) returns (tx': Transaction, errs: seq<Error>)
      requires tx.id in txns.rows && txns.rows[tx.id] == tx && tx.status == Processing && tx.amountCents > 0
      requires tx.merchantId in merchants.merchants && merchants.merchants[tx.merchantId].balanceCents >= 0
      modifies merchants, txns`rows, events, outbox
      ensures errs == [] <==> Completes(plan)
      ensures tx' == if errs == [] then tx.(status := Completed) else tx
      ensures txns.rows == WithStatus(old(txns.rows), tx.id, if LeavesCompleted(plan) then Completed else Processing)
      ensures merchants.merchants
           == Credited(old(merchants.merchants), tx.merchantId, if LeavesCredit(plan) then tx.amountCents else 0)
      ensures RollbackCredit in errs <==> WriteCredit !in plan && !Completes(plan) && UndoCredit in plan
      ensures InsufficientFunds !in errs
      ensures errs == [] ==>
                && events.events == old(events.events) + [AuditEvent(tx.id, Some(Processing), Completed)]
                && Announcements() == old(Announcements()) + Announcing([OutboxEvent(CompletedEvent, tx.id, Completed)])
    {
      ghost var rows0, merchants0 := txns.rows, merchants.merchants;
      assert WithStatus(rows0, tx.id, Processing) == rows0;
      CreditedBack(merchants0, tx.merchantId, tx.amountCents);
      hide WithStatus, Credited, Announcing;
      var err := merchants.UpdateBalance(tx.merchantId, tx.amountCents, WriteCredit in plan);
      if err != None {
        return tx, [err.value];
      }
      tx', errs := Transition(tx, Completed, false, plan);
      if errs != [] {
        var rollbackErr := merchants.UpdateBalance(tx.merchantId, -tx.amountCents, UndoCredit in plan);
        if rollbackErr != None {
          errs := errs + [RollbackCredit, rollbackErr.value];
          return;
        }
        assert merchants.merchants == merchants0;
      }
    }

    /** The bank behind breaker and retries: when the breaker is shut the bank is not called and the breaker stays as it
        is; else it hears whether the last charge was approved. */
    method CallBank(visit: Visit) returns (err: Option<Error>, log: seq<Charge>)
      modifies breaker
      ensures Charged(log, old(breaker.View()), visit)
      ensures err == None <==> log != [] && log[|log| - 1] == None
      ensures err == Some(ErrCircuitOpen) <==> Shut(old(breaker.View()), visit.asked)
      ensures err.Some? ==> GivenUp(err.value, log, if retry.maxAttempts > 0 then retry.maxAttempts else 1)
      ensures err.Some? && err.value.Bank? ==>
                log != [] && log[|log| - 1].Some?
                && err.value.bank == NormalizeBankError(visit.parent, visit.bank, log[|log| - 1].value)
      ensures breaker.View() == if Shut(old(breaker.View()), visit.asked) then old(breaker.View())
                                else Next(Next(old(breaker.View()), Before(visit.asked)),
                                          After(visit.reported, err != None))
    {
      var rejected := breaker.BeforeRequest(visit.asked);
      if rejected {
        return Some(ErrCircuitOpen), [];
      }
      var delays;
      err, log, delays := Retry(retry, visit);
      breaker.AfterRequest(err != None, visit.reported);
      if err.Some? && err.value.Bank? {
        NormalizedError(visit.parent, visit.bank, err.value.bank);
        err := Some(Bank(NormalizeBankError(visit.parent, visit.bank, err.value.bank)));
      }
    }

    /** The second half of processPayment: the bank, then FAILED or COMPLETED. */
    method SettleWithBank(tx: Transaction, plan: Plan, visit: Visit)
        returns (tx': Transaction, errs: seq<Error>, log: seq<Charge>)
      requires tx.id in txns.rows && txns.rows[tx.id] == tx && tx.status == Processing && tx.amountCents > 0
      requires tx.merchantId in merchants.merchants && merchants.merchants[tx.merchantId].balanceCents >= 0
      requires ReachesBank(plan)
      modifies merchants, txns`rows, events, outbox, breaker
      ensures var approved := Approved(log);
              && (errs == [] <==> approved && Completes(plan))
              && tx' == tx.(status := ReturnedStatus(plan, approved))
              && txns.rows == WithStatus(old(txns.rows), tx.id, StoredStatus(plan, approved))
              && merchants.merchants == Credited(old(merchants.merchants), tx.merchantId,
                                                 if approved && LeavesCredit(plan) then tx.amountCents else 0)
      ensures InsufficientFunds !in errs && Charged(log, old(breaker.View()), visit)
      ensures tx'.status == Failed ==>
                && |errs| == 1 && GivenUp(errs[0], log, if retry.maxAttempts > 0 then retry.maxAttempts else 1)
                && events.events == old(events.events) + [AuditEvent(tx.id, Some(Processing), Failed)]
                && Announcements() == old(Announcements()) + Announcing([OutboxEvent(FailedEvent, tx.id, Failed)])
      ensures errs == [] ==>
                && events.events == old(events.events) + [AuditEvent(tx.id, Some(Processing), Completed)]
                && Announcements() == old(Announcements()) + Announcing([OutboxEvent(CompletedEvent, tx.id, Completed)])
    {
      assert Credited(merchants.merchants, tx.merchantId, 0) == merchants.merchants;
      assert WithStatus(txns.rows, tx.id, Processing) == txns.rows;
      hide Charged, Approved, ReachesBank;
      var bankErr;
      bankErr, log := CallBank(visit);
      if bankErr != None {
        tx', errs := Transition(tx, Failed, false, plan);
        errs := if errs == [] then [bankErr.value] else [bankErr.value, SetFailedStatus] + errs;
        return;
      }
      tx', errs := CompleteWithMocks(tx, plan);
    }

    method ProcessPayment(tx: Transaction, plan: Plan, visit: Visit)
        returns (tx': Transaction, errs: seq<Error>, log: seq<Charge>)
      requires tx.id in txns.rows && txns.rows[tx.id] == tx && tx.status == Pending && tx.amountCents > 0
      requires tx.merchantId in merchants.merchants && merchants.merchants[tx.merchantId].balanceCents >= 0
      modifies merchants, txns`rows, events, outbox, breaker
      ensures var approved := Approved(log);
              && (approved ==> ReachesBank(plan))
              && (errs == [] <==> approved && Completes(plan))
              && tx' == tx.(status := ReturnedStatus(plan, approved))
              && txns.rows == WithStatus(old(txns.rows), tx.id, StoredStatus(plan, approved))
              && merchants.merchants == Credited(old(merchants.merchants), tx.merchantId,
                                                 if approved && LeavesCredit(plan) then tx.amountCents else 0)
      ensures InsufficientFunds !in errs
      ensures if ReachesBank(plan) then Charged(log, old(breaker.View()), visit) else log == []
      ensures errs == [] ==>
                && events.events == old(events.events) + [AuditEvent(tx.id, Some(Pending), Processing)]
                                                       + [AuditEvent(tx.id, Some(Processing), Completed)]
                && Announcements() == old(Announcements()) + Announcing([OutboxEvent(CompletedEvent, tx.id, Completed)])
    {
      log := [];
      assert !Approved(log);
      hide Charged, Approved, LeavesCompleted, LeavesCredit, Completes;
      assert WithStatus(txns.rows, tx.id, Pending) == txns.rows;
      assert Credited(merchants.merchants, tx.merchantId, 0) == merchants.merchants;
      if Cancel(AtProcess) in plan {
        return tx, [ContextDone], [];
      }
      tx', errs := Transition(tx, Processing, true, plan);
      if errs != [] {
        return;
      }
      assert Announcements() == old(Announcements());
      tx', errs, log := SettleWithBank(tx', plan, visit);
    }

    method CreateWithMocks(tx: Transaction, plan: Plan) returns (err: Option<Error>)
      modifies txns, events, outbox
      ensures err == None <==>
                InsertRow !in plan && WriteAudit(Pending) !in plan && !(outbox != null && Announce(Pending) in plan)
      ensures txns.rows == if InsertRow in plan then old(txns.rows) else old(txns.rows)[tx.id := tx]
      ensures events.events == old(events.events) +
          Only(InsertRow !in plan && WriteAudit(Pending) !in plan, [AuditEvent(tx.id, None, Pending)])
      ensures Announcements() == old(Announcements()) +
          Only(err == None, Announcing([OutboxEvent(CreatedEvent, tx.id, tx.status)]))
      ensures err.Some? ==> err.value == WriteFailed
    {
      err := txns.Create(tx, InsertRow in plan);
      if err != None {
        return;
      }
      err := events.Create(AuditEvent(tx.id, None, Pending), WriteAudit(Pending) in plan);
      if err != None {
        return;
      }
      err := EmitOutboxEvent(OutboxEvent(CreatedEvent, tx.id, tx.status), Announce(Pending) in plan);
    }

    /** The first half of CreateTransaction: replay by key, merchant lookup, validation. */
    method Screen(input: Input, plan: Plan) returns (existing: Option<Transaction>, errs: seq<Error>)
      ensures existing.Some? ==>
                && errs == [] && input.key != "" && existing.value.idempotencyKey == input.key
                && MatchesIdempotentRequest(existing.value, input)
                && exists id :: id in txns.rows && txns.rows[id] == existing.value
      ensures InsufficientFunds !in errs
      ensures plan !! {Cancel(AtStart), ReadKey} && input.key != "" && KeyTaken(txns.rows, input.key) ==>
                && (AllMatch(txns.rows, input) ==> errs == [] && existing.Some?)
                && (NoneMatch(txns.rows, input) ==> errs == [DuplicateTransaction])
      ensures plan !! {Cancel(AtStart), ReadKey, ReadMerchant} ==>
              input.key == "" || !KeyTaken(txns.rows, input.key) ==>
                if input.merchantId !in merchants.merchants then errs == [MerchantNotFound]
                else
                  var invalid := Validate(cfg, merchants.merchants[input.merchantId], input);
                  errs == if invalid == None then [] else [invalid.value]
      ensures errs == [] && existing == None <==> Accepts(txns.rows, merchants.merchants, input, plan)
    {
      existing := None;
      if Cancel(AtStart) in plan {
        return None, [ContextDone];
      }
      if input.key != "" {
        var found := txns.GetByIdempotencyKey(input.key, ReadKey in plan);
        if found.Err? {
          return None, [found.error];
        }
        if found.value.Some? {
          if !MatchesIdempotentRequest(found.value.value, input) {
            return None, [DuplicateTransaction];
          }
          return found.value, [];
        }
      }
      var merchant := merchants.GetByID(input.merchantId, ReadMerchant in plan);
      if merchant.Err? {
        return None, [merchant.error];
      }
      var invalid := Validate(cfg, merchant.value, input);
      errs := if invalid.Some? then [invalid.value] else [];
    }

    /** The second half of CreateTransaction: insert the new row, then process the payment. */
    method PayFresh(fresh': Transaction, plan: Plan, visit: Visit, ghost opening: map<MerchantId, Merchant>)
      returns (tx: Option<Transaction>, errs: seq<Error>, log: seq<Charge>)
      requires Balanced(Books(), opening) && fresh'.id !in txns.rows && fresh'.status == Pending &&
          fresh'.amountCents > 0
      requires fresh'.merchantId in merchants.merchants && merchants.merchants[fresh'.merchantId].balanceCents >= 0
      modifies merchants, txns, events, outbox, breaker
      ensures Balanced(Books(), opening) <==> !(Approved(log) && BooksLost(plan))
      ensures tx == None ==>
                errs != [] && !Approved(log)
                && (txns.rows == old(txns.rows) || txns.rows == old(txns.rows)[fresh'.id := fresh'])
      ensures Approved(log) ==> ReachesBank(plan)
      ensures tx.Some? ==>
                && tx.value == fresh'.(status := ReturnedStatus(plan, Approved(log)))
                && txns.rows == old(txns.rows)[fresh'.id := fresh'.(status := StoredStatus(plan, Approved(log)))]
                && (errs == [] <==> Approved(log) && Completes(plan))
      ensures InsufficientFunds !in errs
      ensures if Creates(plan) && ReachesBank(plan) then Charged(log, old(breaker.View()), visit) else log == []
      ensures tx.Some? <==> Creates(plan)
      ensures fresh'.id in txns.rows <==> InsertRow !in plan
      ensures errs == [] ==>
                && merchants.merchants == Credited(old(merchants.merchants), fresh'.merchantId, fresh'.amountCents)
                && events.events == old(events.events) + [AuditEvent(fresh'.id, None, Pending)]
                                                       + [AuditEvent(fresh'.id, Some(Pending), Processing)]
                                                       + [AuditEvent(fresh'.id, Some(Processing), Completed)]
                && Announcements() == old(Announcements()) + Announcing([OutboxEvent(CreatedEvent, fresh'.id, Pending)])
                     + Announcing([OutboxEvent(CompletedEvent, fresh'.id, Completed)])
    {
      log := [];
      assert !Approved(log);
      hide Balanced, Charged, Approved, WithStatus, Credited, Announcing,
           Lands, BooksLost, ReachesBank, StatusLost, StoredStatus, ReturnedStatus, NoUndoFails;
      ghost var before := Books();
      var err := CreateWithMocks(fresh', plan);
      InsertKeepsBooks(before, Books(), fresh', opening);
      if err.Some? {
        return None, [err.value], [];
      }
      ghost var created := Books();
      var done';
      done', errs, log := ProcessPayment(fresh', plan, visit);
      ghost var approved := Approved(log);
      RestatedRow(old(txns.rows), fresh', StoredStatus(plan, approved));
      SettledBooks(created, Books(), fresh', if approved && LeavesCredit(plan) then fresh'.amountCents else 0, opening);
      WhatIsLost(plan, approved);
      tx := Some(done');
    }

    /** One CreateTransaction that nothing interleaves with, for every plan of failing calls. The books balance
        unless the bank approved and exactly one of the undo writes the failed completion needed failed; a
        returned transaction has the stored status unless a status rollback failed. Without a failing undo
        write both always hold. `freshId` is the generated ID. */
    method CreateTransaction(input: Input, freshId: TxId, plan: Plan, visit: Visit,
                             ghost opening: map<MerchantId, Merchant>)
      returns (tx: Option<Transaction>, errs: seq<Error>, log: seq<Charge>)
      requires Balanced(Books(), opening) && freshId !in txns.rows
      requires forall m :: m in merchants.merchants ==> merchants.merchants[m].balanceCents >= 0
      modifies merchants, txns, events, outbox, breaker
      ensures Balanced(Books(), opening) <==> !(Approved(log) && BooksLost(plan))
      ensures tx.Some? && freshId in txns.rows ==>
                && txns.rows[freshId] == tx.value.(status := txns.rows[freshId].status)
                && (txns.rows[freshId].status == tx.value.status <==> !StatusLost(plan, Approved(log)))
      ensures tx.Some? && freshId !in txns.rows ==> exists id :: id in txns.rows && txns.rows[id] == tx.value
      ensures NoUndoFails(plan) ==>
                && Balanced(Books(), opening)
                && (tx.Some? ==> exists id :: id in txns.rows && txns.rows[id] == tx.value)
      ensures InsufficientFunds !in errs
      ensures var accepted := Accepts(old(txns.rows), old(merchants.merchants), input, plan);
              && (freshId in txns.rows <==> accepted && InsertRow !in plan)
              && (tx.Some? && freshId in txns.rows <==> accepted && Creates(plan))
              && if accepted && Creates(plan) && ReachesBank(plan) then Charged(log, old(breaker.View()), visit)
                 else log == []
      ensures freshId in txns.rows ==>
                && (txns.rows[freshId].status == Completed ==> Approved(log))
                && (Approved(log) ==> txns.rows[freshId].status != Failed)
      ensures OnlyAdds(old(txns.rows), txns.rows, freshId)
      ensures errs == [] ==> tx.Some? && MatchesIdempotentRequest(tx.value, input)
      ensures Approved(log) && Completes(plan) ==> errs == []
      ensures plan !! {Cancel(AtStart), ReadKey} && input.key != "" && KeyTaken(old(txns.rows), input.key) ==>
                && log == [] && freshId !in txns.rows
                && (AllMatch(old(txns.rows), input) ==> errs == [])
                && (NoneMatch(old(txns.rows), input) ==> errs == [DuplicateTransaction])
      ensures errs == [] && freshId !in txns.rows ==>
                && input.key != "" && tx.value.idempotencyKey == input.key
                && txns.rows == old(txns.rows) && merchants.merchants == old(merchants.merchants)
                && events.events == old(events.events) && Announcements() == old(Announcements())
      ensures errs == [] && freshId in txns.rows ==>
                && tx.value.id == freshId && tx.value.status == Completed &&
                     txns.rows == old(txns.rows)[freshId := tx.value]
                && merchants.merchants == Credited(old(merchants.merchants), input.merchantId, input.amountCents)
                && events.events == old(events.events) + [AuditEvent(freshId, None, Pending)]
                                                       + [AuditEvent(freshId, Some(Pending), Processing)]
                                                       + [AuditEvent(freshId, Some(Processing), Completed)]
                && Announcements() == old(Announcements()) + Announcing([OutboxEvent(CreatedEvent, freshId, Pending)])
                     + Announcing([OutboxEvent(CompletedEvent, freshId, Completed)])
    {
      log := [];
      assert !Approved(log);
      NothingAdded(txns.rows, freshId);
      hide OnlyAdds;
      tx, errs := Screen(input, plan);
      if errs != [] || tx.Some? {
        return;
      }
      assert input.amountCents > 0;
      hide Balanced, Charged, Approved, Validate, Accepts, KeyTaken, AllMatch, NoneMatch, Creates, WithStatus, Credited, Announcing,
           Lands, Completes, LeavesCredit, BooksLost, ReachesBank, StatusLost, StoredStatus,
           ReturnedStatus, NoUndoFails;
      var fresh' := Transaction(freshId, input.merchantId, input.amountCents, input.currency, Pending, input.key,
                                input.description);
      tx, errs, log := PayFresh(fresh', plan, visit, opening);
      OneAdded(old(txns.rows), txns.rows, freshId);
      WhatIsLost(plan, Approved(log));
    }

    /** Reading the lost books and the lost status off the status and the credit that are left. */
    lemma WhatIsLost(plan: Plan, approved: bool)
      requires approved ==> ReachesBank(plan)
      ensures StoredStatus(plan, approved) != ReturnedStatus(plan, approved) <==> StatusLost(plan, approved)
      ensures (approved && LeavesCredit(plan)) == (StoredStatus(plan, approved) == Completed) <==>
          !(approved && BooksLost(plan))
      ensures StoredStatus(plan, approved) == Completed ==> approved
      ensures approved ==> StoredStatus(plan, approved) != Failed
      ensures approved && Completes(plan) ==>
          StoredStatus(plan, approved) == ReturnedStatus(plan, approved) == Completed
      ensures NoUndoFails(plan) ==> !StatusLost(plan, approved) && !BooksLost(plan)
    {
    }

    /** Status, debit, audit row, announcement, with no undo for any of them. */
    method RefundWithMocks(t: Transaction, plan: Plan, ghost opening: map<MerchantId, Merchant>)
        returns (err: Option<Error>)
      requires Balanced(Books(), opening) && t.id in txns.rows && txns.rows[t.id] == t && t.status == Completed &&
          t.amountCents > 0
      modifies merchants, txns`rows, events, outbox
      ensures t.merchantId in old(merchants.merchants)
      ensures var covered := old(merchants.merchants)[t.merchantId].balanceCents >= t.amountCents;
              && (Balanced(Books(), opening) <==> WriteStatus(Refunded) in plan || (WriteDebit !in plan && covered))
              && (err == None <==>
                    && WriteStatus(Refunded) !in plan && WriteDebit !in plan && WriteAudit(Refunded) !in plan
                    && covered
                    && !(outbox != null && Announce(Refunded) in plan))
      ensures WriteStatus(Refunded) in plan ==>
                && txns.rows == old(txns.rows) && merchants.merchants == old(merchants.merchants)
                && events.events == old(events.events) && Announcements() == old(Announcements())
      ensures err == None ==>
                && txns.rows == old(txns.rows)[t.id := t.(status := Refunded)]
                && merchants.merchants == Credited(old(merchants.merchants), t.merchantId, -t.amountCents)
                && events.events == old(events.events) + [AuditEvent(t.id, Some(Completed), Refunded)]
                && Announcements() == old(Announcements()) + Announcing([OutboxEvent(RefundedEvent, t.id, Refunded)])
    {
      assert t.merchantId in merchants.merchants;
      assert Credited(merchants.merchants, t.merchantId, 0) == merchants.merchants;
      assert WithStatus(txns.rows, t.id, Refunded) == txns.rows[t.id := t.(status := Refunded)];
      hide Balanced, Credited, Announcing, WithStatus;
      ghost var before := Books();
      err := txns.UpdateStatus(t.id, Refunded, WriteStatus(Refunded) in plan);
      if err != None {
        return;
      }
      err := merchants.UpdateBalance(t.merchantId, -t.amountCents, WriteDebit in plan);
      RefundedBooks(before, Books(), t, if err == None then -t.amountCents else 0, opening);
      if err != None {
        return;
      }
      err := events.Create(AuditEvent(t.id, Some(Completed), Refunded), WriteAudit(Refunded) in plan);
      if err != None {
        return;
      }
      err := EmitOutboxEvent(OutboxEvent(RefundedEvent, t.id, Refunded), Announce(Refunded) in plan);
    }

    /** The refund gets as far as writing REFUNDED. */
    ghost predicate WritesRefund(rows: map<TxId, Transaction>, merchantId: MerchantId, txId: TxId, plan: Plan) {
      && plan !! {Cancel(AtStart), ReadRow, WriteStatus(Refunded)}
      && txId in rows && rows[txId].merchantId == merchantId && rows[txId].status == Completed
    }

    /** For every plan of failing calls: a refund has no undo, so the books balance afterwards unless REFUNDED was
        written and the debit failed, because the plan makes it or for lack of funds. */
    method RefundTransaction(merchantId: MerchantId, txId: TxId, plan: Plan, ghost opening: map<MerchantId, Merchant>)
      returns (tx: Option<Transaction>, err: Option<Error>)
      requires Balanced(Books(), opening)
      requires forall id :: id in txns.rows ==> txns.rows[id].id == id && txns.rows[id].amountCents > 0
      modifies merchants, txns`rows, events, outbox
      ensures WritesRefund(old(txns.rows), merchantId, txId, plan) ==> merchantId in old(merchants.merchants)
      ensures Balanced(Books(), opening)
         <==> !(&& WritesRefund(old(txns.rows), merchantId, txId, plan)
                && (WriteDebit in plan ||
                    old(merchants.merchants)[merchantId].balanceCents < old(txns.rows)[txId].amountCents))
      ensures err == None
         <==> (&& WritesRefund(old(txns.rows), merchantId, txId, plan) && WriteDebit !in plan
               && old(merchants.merchants)[merchantId].balanceCents >= old(txns.rows)[txId].amountCents
               && WriteAudit(Refunded) !in plan && !(outbox != null && Announce(Refunded) in plan))
      ensures plan !! {Cancel(AtStart), ReadRow} ==>
                && (txId !in old(txns.rows) || old(txns.rows)[txId].merchantId != merchantId ==>
                      err == Some(TransactionNotFound))
                && (txId in old(txns.rows) && old(txns.rows)[txId].merchantId == merchantId ==>
                      old(txns.rows)[txId].status != Completed ==> err == Some(CannotRefund))
      ensures !WritesRefund(old(txns.rows), merchantId, txId, plan) ==>
                && txns.rows == old(txns.rows) && merchants.merchants == old(merchants.merchants)
                && events.events == old(events.events) && Announcements() == old(Announcements())
      ensures err == None ==>
                && tx == Some(old(txns.rows)[txId].(status := Refunded)) &&
                     txns.rows == old(txns.rows)[txId := tx.value]
                && merchants.merchants == Credited(old(merchants.merchants), merchantId, -tx.value.amountCents)
                && events.events == old(events.events) + [AuditEvent(txId, Some(Completed), Refunded)]
                && Announcements() == old(Announcements()) + Announcing([OutboxEvent(RefundedEvent, txId, Refunded)])
    {
      assert forall id :: id in txns.rows ==> txns.rows[id].merchantId in merchants.merchants;
      hide Balanced, Credited, Announcing;
      tx := None;
      if Cancel(AtStart) in plan {
        return None, Some(ContextDone);
      }
      var found := txns.GetByID(txId, ReadRow in plan);
      if found.Err? {
        return None, Some(found.error);
      }
      var t := found.value;
      if t.merchantId != merchantId {
        return None, Some(TransactionNotFound);
      }
      if !CanTransition(t.status, Refunded) {
        return None, Some(CannotRefund);
      }
      err := RefundWithMocks(t, plan, opening);
      if err == None {
        tx := Some(t.(status := Refunded));
      }
    }
  }

  /** While the books balance and started out non-negative, a debit never lacks funds. */
  lemma RefundCoveredByBooks(db: Db, opening: map<MerchantId, Merchant>, id: TxId)
    requires Balanced(db, opening) && id in db.txns && db.txns[id].status == Completed
    requires forall m :: m in opening ==> opening[m].balanceCents >= 0
    requires forall t :: t in db.txns ==> db.txns[t].amountCents > 0
    ensures db.txns[id].merchantId in db.merchants
    ensures db.merchants[db.txns[id].merchantId].balanceCents >= db.txns[id].amountCents
  {
    TotalSplit(db.txns, db.txns[id].merchantId, id);
    TotalNonNegative(db.txns - {id}, db.txns[id].merchantId);
  }

  lemma RefundedBooks(db: Db, db': Db, tx: Transaction, delta: int, opening: map<MerchantId, Merchant>)
    requires Balanced(db, opening) && tx.id in db.txns && db.txns[tx.id] == tx && tx.status == Completed
    requires db'.txns == WithStatus(db.txns, tx.id, Refunded)
    requires db'.merchants == Credited(db.merchants, tx.merchantId, delta)
    ensures Balanced(db', opening) <==> delta == -tx.amountCents
  {
    WriteKeepsBooks(db, db', tx.id, Refunded, delta, opening);
  }

  /** Taking a credit back is always covered and leaves every balance as it was. */
  lemma CreditedBack(merchants: map<MerchantId, Merchant>, m: MerchantId, amount: int)
    ensures Credited(merchants, m, 0) == merchants && Credited(Credited(merchants, m, amount), m, -amount) == merchants
    ensures Credited(merchants, m, amount).Keys == merchants.Keys
    ensures m in merchants ==> Credited(merchants, m, amount)[m].balanceCents == merchants[m].balanceCents + amount
  {
  }

  /** What a status write leaves, and that writing the old status back undoes it. */
  lemma StatusSet(rows: map<TxId, Transaction>, id: TxId, status: Status)
    ensures WithStatus(rows, id, status).Keys == rows.Keys
    ensures id in rows ==> && WithStatus(rows, id, status)[id] == rows[id].(status := status)
                           && WithStatus(WithStatus(rows, id, status), id, rows[id].status) == rows
  {
  }

  /** A status write on a row that was just inserted touches no other row. */
  lemma RestatedRow(rows: map<TxId, Transaction>, tx: Transaction, status: Status)
    ensures WithStatus(rows[tx.id := tx], tx.id, status) == rows[tx.id := tx.(status := status)]
  {
  }

  lemma InsertKeepsBooks(db: Db, db': Db, tx: Transaction, opening: map<MerchantId, Merchant>)
    requires Balanced(db, opening) && tx.id !in db.txns && tx.status == Pending && tx.merchantId in db.merchants
    requires db'.merchants == db.merchants && (db'.txns == db.txns || db'.txns == db.txns[tx.id := tx])
    ensures Balanced(db', opening)
  {
    forall m { TotalAfterWrite(db.txns, m, tx, tx.id); }
  }

  /** A PENDING row's new status and its merchant's new balance agree exactly when the credit went with COMPLETED. */
  lemma SettledBooks(db: Db, db': Db, tx: Transaction, delta: int, opening: map<MerchantId, Merchant>)
    requires Balanced(db, opening) && tx.id in db.txns && db.txns[tx.id] == tx && tx.status == Pending &&
        tx.id in db'.txns
    requires db'.txns == WithStatus(db.txns, tx.id, db'.txns[tx.id].status)
    requires db'.merchants == Credited(db.merchants, tx.merchantId, delta)
    ensures Balanced(db', opening) <==> delta == if db'.txns[tx.id].status == Completed then tx.amountCents else 0
  {
    WriteKeepsBooks(db, db', tx.id, db'.txns[tx.id].status, delta, opening);
  }
}
