// The domain layer: statuses, the status graph, and the records every other
// module passes around (internal/domain/models.go, internal/domain/errors.go).

module Domain {

  datatype Option<+T> = None | Some(value: T) {
    function GetOr(default: T): T {
      if Some? then value else default
    }
  }

  datatype Result<+T, +E> = Ok(value: T) | Err(error: E) {
    predicate IsFailure() {
      Err?
    }
    function PropagateFailure<U>(): Result<U, E>
      requires Err?
    {
      Err(error)
    }
    function Extract(): T
      requires Ok?
    {
      value
    }
  }

  type TxId = string
  type MerchantId = string

  datatype Status = Pending | Processing | Completed | Failed | Refunded

  const VALID_TRANSITIONS: map<Status, seq<Status>> :=
    map[Pending := [Processing],
        Processing := [Completed, Failed],
        Completed := [Refunded],
        Failed := [],
        Refunded := []]

  predicate CanTransition(from: Status, to: Status) {
    from in VALID_TRANSITIONS && to in VALID_TRANSITIONS[from]
  }

  predicate IsTerminal(s: Status) {
    s == Failed || s == Refunded
  }

  /** `to` is `from` or can still be reached from it. */
  predicate Reaches(from: Status, to: Status) {
    || from == to
    || from == Pending
    || (from == Processing && to != Pending)
    || (from == Completed && to == Refunded)
  }

  /** A walk through the status graph, every edge allowed by CanTransition. */
  ghost predicate IsWalk(walk: seq<Status>) {
    forall i :: 0 < i < |walk| ==> CanTransition(walk[i - 1], walk[i])
  }

  ghost predicate WalkExists(from: Status, to: Status) {
    exists walk: seq<Status> :: |walk| > 0 && walk[0] == from && walk[|walk| - 1] == to && IsWalk(walk)
  }

  lemma {:induction false} WalkStaysReachable(walk: seq<Status>)
    requires |walk| > 0 && IsWalk(walk)
    ensures Reaches(walk[0], walk[|walk| - 1])
    decreases |walk|
  {
    if |walk| > 1 {
      WalkStaysReachable(walk[..|walk| - 1]);
      assert CanTransition(walk[|walk| - 2], walk[|walk| - 1]);
    }
  }

  /** Reaches is exactly the reflexive, transitive closure of CanTransition. */
  lemma ReachesIsClosure(from: Status, to: Status)
    ensures Reaches(from, to) <==> WalkExists(from, to)
  {
    if Reaches(from, to) {
      var walk :=
        if from == to then [from]
        else if from == Pending && to == Processing then [Pending, Processing]
        else if from == Pending && to == Refunded then [Pending, Processing, Completed, Refunded]
        else if from == Pending then [Pending, Processing, to]
        else if from == Processing && to == Refunded then [Processing, Completed, Refunded]
        else [from, to];
      assert walk[0] == from && walk[|walk| - 1] == to && IsWalk(walk);
    }
    if WalkExists(from, to) {
      var walk: seq<Status> :| |walk| > 0 && walk[0] == from && walk[|walk| - 1] == to && IsWalk(walk);
      WalkStaysReachable(walk);
    }
  }

  /** A single allowed transition never skips a status: it leads from one status to another with none between. */
  lemma TransitionsSkipNothing(from: Status, to: Status)
    ensures CanTransition(from, to)
       <==> && from != to && Reaches(from, to)
            && forall s :: Reaches(from, s) && Reaches(s, to) ==> s == from || s == to
  {
    if from == Pending && to != Processing {
      assert Reaches(from, Processing);
    }
    if to == Refunded && from != Completed {
      assert Reaches(from, Completed) <==> from != Failed && from != Refunded;
    }
  }

  /** The terminal statuses are exactly those with no way out. */
  lemma TerminalHasNoExit(s: Status)
    ensures IsTerminal(s) <==> forall to :: !CanTransition(s, to)
  {
    if !IsTerminal(s) {
      var to := if s == Pending then Processing else if s == Processing then Completed else Refunded;
      assert CanTransition(s, to);
    }
  }

  datatype Transaction = Transaction(
    id: TxId, merchantId: MerchantId, amountCents: int, currency: string,
    status: Status, idempotencyKey: string, description: string)

  /** What the table's check constraints let in. */
  predicate Acceptable(amountCents: int, currency: string) {
    amountCents > 0 && (currency == "CAD" || currency == "USD")
  }

  datatype Merchant = Merchant(balanceCents: int, active: bool)

  /** One row of the audit trail; `from` is None where the column is NULL. */
  datatype AuditEvent = AuditEvent(txId: TxId, from: Option<Status>, to: Status)

  datatype EventType = CreatedEvent | CompletedEvent | FailedEvent | RefundedEvent

  /** The status an outbox event type announces. */
  function Announced(e: EventType): Status {
    match e
    case CreatedEvent => Pending
    case CompletedEvent => Completed
    case FailedEvent => Failed
    case RefundedEvent => Refunded
  }

  datatype OutboxEvent = OutboxEvent(eventType: EventType, txId: TxId, status: Status)

  datatype BankError = BankTimeout | BankUnavailable | BankRejected | DeadlineExceeded | Canceled | BankOther

  datatype Error =
    | WriteFailed | ContextDone | UniqueViolation | DuplicateTransaction
    | MerchantNotFound | MerchantInactive | InvalidAmount | AmountExceedsLimit | InvalidCurrency
    | TransactionNotFound | CannotRefund | InvalidTransition | InsufficientFunds
    | ErrCircuitOpen | Bank(bank: BankError)
    // Joined into the returned error when an undo write itself fails.
    | RollbackStatus(to: Status) | RollbackCredit | SetFailedStatus
    | BalanceWriteFailed
}

// The sum that the ledger's books are checked against.
module Money {
  import opened Domain

  function Credit(t: Transaction, m: MerchantId): int {
    if t.status == Completed && t.merchantId == m then t.amountCents else 0
  }

  /** Sum of the amounts of merchant `m`'s COMPLETED transactions. */
  ghost function CompletedTotal(txns: map<TxId, Transaction>, m: MerchantId): int
    decreases txns.Keys
  {
    if txns.Keys == {} then 0 else
      var id :| id in txns.Keys;
      Credit(txns[id], m) + CompletedTotal(txns - {id}, m)
  }

  lemma {:induction false} TotalSplit(txns: map<TxId, Transaction>, m: MerchantId, id: TxId)
    requires id in txns
    ensures CompletedTotal(txns, m) == Credit(txns[id], m) + CompletedTotal(txns - {id}, m)
    decreases txns.Keys
  {
    var pick :| pick in txns.Keys &&
        CompletedTotal(txns, m) == Credit(txns[pick], m) + CompletedTotal(txns - {pick}, m);
    if pick != id {
      var a, b := txns - {pick}, txns - {id};
      TotalSplit(a, m, id);
      TotalSplit(b, m, pick);
      assert a - {id} == b - {pick};
    }
  }

  /** Writing one row moves the total by exactly what that row's credit moved. */
  lemma TotalAfterWrite(txns: map<TxId, Transaction>, m: MerchantId, t: Transaction, id: TxId)
    ensures CompletedTotal(txns[id := t], m)
         == CompletedTotal(txns, m) + Credit(t, m) - (if id in txns then Credit(txns[id], m) else 0)
  {
    TotalSplit(txns[id := t], m, id);
    if id in txns {
      TotalSplit(txns, m, id);
      assert txns[id := t] - {id} == txns - {id};
    } else {
      assert txns[id := t] - {id} == txns;
    }
  }

  lemma {:induction false} TotalNonNegative(txns: map<TxId, Transaction>, m: MerchantId)
    requires forall id :: id in txns ==> txns[id].amountCents > 0
    ensures CompletedTotal(txns, m) >= 0
    decreases txns.Keys
  {
    if txns.Keys != {} {
      var id :| id in txns.Keys;
      TotalSplit(txns, m, id);
      TotalNonNegative(txns - {id}, m);
    }
  }
}
