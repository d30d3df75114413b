// The books of the ledger on every run: a balance is its opening balance plus its
// merchant's COMPLETED amounts, less the amounts of the refunds that committed on a row
// another refund had already settled (internal/service/payment.go). Hence the books
// balance if and only if no refund committed late.

module LedgerBooks {
  import opened Domain
  import opened Money
  import opened Database
  import opened Retrying
  import opened Ledger
  import opened LedgerSafety

  /** The books: every balance is its opening balance plus its COMPLETED amounts, and every row has a merchant. */
  ghost predicate Balanced(db: Db, opening: map<MerchantId, Merchant>) {
    && db.merchants.Keys == opening.Keys
    && (forall id :: id in db.txns ==> db.txns[id].merchantId in db.merchants)
    && (forall m :: m in opening ==>
        db.merchants[m].balanceCents == opening[m].balanceCents + CompletedTotal(db.txns, m))
  }

  /** What a merchant's balance holds beyond its COMPLETED amounts. */
  ghost function Net(db: Db, m: MerchantId): int
    requires m in db.merchants
  {
    db.merchants[m].balanceCents - CompletedTotal(db.txns, m)
  }

  // ---- One write ----

  /** Rewriting one row's status and moving its merchant's balance by `delta`. */
  ghost predicate WritesRow(db: Db, id: TxId, status: Status, delta: int, db': Db) {
    && id in db.txns && db.txns[id].merchantId in db.merchants
    && db'.txns == db.txns[id := db.txns[id].(status := status)]
    && var m := db.txns[id].merchantId;
       db'.merchants == db.merchants[m := db.merchants[m].(balanceCents := db.merchants[m].balanceCents + delta)]
  }

  function Worth(t: Transaction): int {
    Credit(t, t.merchantId)
  }

  lemma WriteMovesNet(db: Db, id: TxId, status: Status, delta: int, db': Db, m: MerchantId)
    requires WritesRow(db, id, status, delta, db') && m in db.merchants
    ensures m in db'.merchants
    ensures Net(db', m) == Net(db, m) + if m == db.txns[id].merchantId
        then delta - Worth(db'.txns[id]) + Worth(db.txns[id]) else 0
  {
    TotalAfterWrite(db.txns, m, db.txns[id].(status := status), id);
  }

  /** The write keeps the books exactly when `delta` is the change in what the row is worth. */
  lemma WriteKeepsBooks(db: Db, db': Db, id: TxId, status: Status, delta: int, opening: map<MerchantId, Merchant>)
    requires Balanced(db, opening) && WritesRow(db, id, status, delta, db')
    ensures Balanced(db', opening) <==> delta == Worth(db'.txns[id]) - Worth(db.txns[id])
  {
    forall m | m in opening
      ensures Net(db', m) == Net(db, m) + if m == db.txns[id].merchantId
          then delta - Worth(db'.txns[id]) + Worth(db.txns[id]) else 0
    {
      WriteMovesNet(db, id, status, delta, db', m);
    }
    assert db.txns[id].merchantId in opening;
  }

  lemma SettleWritesRow(db: Db, tx: Transaction, from: Status, to: Status, delta: int, event: EventType, failAt: nat)
    requires SettleInDb(db, tx, from, to, delta, event, failAt).Ok?
    requires tx.id in db.txns ==> db.txns[tx.id].merchantId == tx.merchantId
    ensures WritesRow(db, tx.id, to, delta, SettleInDb(db, tx, from, to, delta, event, failAt).value)
  {
    hide SettleInDb;
    SettleShape(db, tx, from, to, delta, event, failAt);
  }

  /** A committed refund of balanced books keeps them if and only if the stored row was still COMPLETED. */
  lemma RefundBalancedIffStillCompleted(db: Db, tx: Transaction, failAt: nat, opening: map<MerchantId, Merchant>)
    requires Balanced(db, opening)
    requires tx.id in db.txns && db.txns[tx.id] == tx.(status := db.txns[tx.id].status) && tx.amountCents > 0
    requires RefundInDb(db, tx, failAt).Ok?
    ensures Balanced(RefundInDb(db, tx, failAt).value, opening) <==> db.txns[tx.id].status == Completed
  {
    hide SettleInDb, Balanced;
    SettleWritesRow(db, tx, Completed, Refunded, -tx.amountCents, RefundedEvent, failAt);
    WriteKeepsBooks(db, RefundInDb(db, tx, failAt).value, tx.id, Refunded, -tx.amountCents, opening);
  }

  // ---- One step ----

  /** What a step pays out of merchant `m`'s balance a second time. */
  ghost function PaidLate(s: State, a: Action, m: MerchantId): nat {
    if a.Run? && a.r in s.reqs && s.reqs[a.r].pc.RefundCommit? && LateCommit(s, a, s.reqs[a.r].pc.tx.id)
       && s.reqs[a.r].pc.tx.merchantId == m && s.reqs[a.r].pc.tx.amountCents > 0
    then s.reqs[a.r].pc.tx.amountCents
    else 0
  }

  lemma SameNet(db: Db, db': Db, m: MerchantId)
    requires db' == db.(events := db'.events, outbox := db'.outbox) && m in db.merchants
    ensures m in db'.merchants && Net(db', m) == Net(db, m)
  {
  }

  lemma CreateMovesNothing(w: World, tx: Transaction, o: Oracle, m: MerchantId)
    requires tx.status == Pending && m in w.db.merchants
    ensures var db' := DoPersist(w, tx, o).0.db; m in db'.merchants && Net(db', m) == Net(w.db, m)
  {
    hide CreateInDb;
    if CreateInDb(w.db, tx, o.failAt).Ok? {
      CreateShape(w.db, tx, o.failAt);
      TotalAfterWrite(w.db.txns, m, tx, tx.id);
    }
  }

  /** A status write that neither makes nor unmakes a COMPLETED row. */
  lemma StatusMovesNothing(w: World, tx: Transaction, to: Status, next: Pc, o: Oracle, m: MerchantId)
    requires tx.id in w.db.txns && w.db.txns[tx.id].merchantId in w.db.merchants && m in w.db.merchants
    requires w.db.txns[tx.id].status != Completed && tx.status != Completed
    ensures to != Completed ==>
      var db' := DoMark(w, tx, to, next, o).0.db; m in db'.merchants && Net(db', m) == Net(w.db, m)
    ensures var db' := DoUndo(w, tx, o).0.db; m in db'.merchants && Net(db', m) == Net(w.db, m)
  {
    hide Net;
    SameNet(w.db, w.db, m);
    if to != Completed {
      StatusWriteMovesNothing(w.db, tx.id, to, m);
    }
    StatusWriteMovesNothing(w.db, tx.id, tx.status, m);
  }

  lemma StatusWriteMovesNothing(db: Db, id: TxId, status: Status, m: MerchantId)
    requires id in db.txns && m in db.merchants && db.txns[id].status != Completed && status != Completed
    ensures Net(db.(txns := db.txns[id := db.txns[id].(status := status)]), m) == Net(db, m)
  {
    TotalAfterWrite(db.txns, m, db.txns[id].(status := status), id);
  }

  lemma CompleteMovesNothing(cfg: Config, w: World, tx: Transaction, o: Oracle, m: MerchantId)
    requires Ready(cfg, w, Complete(tx)) && m in w.db.merchants
    ensures var db' := DoComplete(w, tx, o).0.db; m in db'.merchants && Net(db', m) == Net(w.db, m)
  {
    hide SettleInDb, AttemptLog, AllRetryable, Approved, Net;
    SameNet(w.db, w.db, m);
    if CompleteInDb(w.db, tx, o.failAt).Ok? {
      SettleWritesRow(w.db, tx, tx.status, Completed, tx.amountCents, CompletedEvent, o.failAt);
      WriteMovesNet(w.db, tx.id, Completed, tx.amountCents, CompleteInDb(w.db, tx, o.failAt).value, m);
    }
  }

  lemma RefundMovesLate(cfg: Config, w: World, tx: Transaction, o: Oracle, m: MerchantId)
    requires Ready(cfg, w, RefundCommit(tx)) && m in w.db.merchants
    ensures var db' := DoRefundCommit(w, tx, o).0.db;
            && m in db'.merchants
            && Net(db', m) == Net(w.db, m)
                 - if RefundInDb(w.db, tx, o.failAt).Ok? && w.db.txns[tx.id].status != Completed && tx.merchantId == m
                   then tx.amountCents else 0
  {
    hide SettleInDb, AttemptLog, AllRetryable, Approved, Net;
    SameNet(w.db, w.db, m);
    if RefundInDb(w.db, tx, o.failAt).Ok? {
      SettleWritesRow(w.db, tx, Completed, Refunded, -tx.amountCents, RefundedEvent, o.failAt);
      WriteMovesNet(w.db, tx.id, Refunded, -tx.amountCents, RefundInDb(w.db, tx, o.failAt).value, m);
    }
  }

  lemma StatusStepMovesNothing(cfg: Config, w: World, pc: Pc, to: Status, next: Pc, o: Oracle, m: MerchantId)
    requires Ready(cfg, w, pc) && m in w.db.merchants
    requires forall id :: id in w.db.txns ==> w.db.txns[id].merchantId in w.db.merchants
    requires pc.MarkProcessing? || pc.MarkFailed? || pc.UndoProcessing? || pc.UndoFailed?
    ensures to != Completed ==>
      var db' := DoMark(w, pc.tx, to, next, o).0.db; m in db'.merchants && Net(db', m) == Net(w.db, m)
    ensures var db' := DoUndo(w, pc.tx, o).0.db; m in db'.merchants && Net(db', m) == Net(w.db, m)
  {
    hide RowOk, AttemptLog, AllRetryable, Approved, Net, DoMark, DoUndo;
    StatusMovesNothing(w, pc.tx, to, next, o, m);
  }

  /** Every step leaves the books as they were, except a refund that commits late. */
  lemma RequestMovesNet(cfg: Config, w: World, call: Call, pc: Pc, o: Oracle, m: MerchantId)
    requires Ready(cfg, w, pc) && m in w.db.merchants && !pc.RefundCommit?
    requires forall id :: id in w.db.txns ==> w.db.txns[id].merchantId in w.db.merchants
    ensures var db' := Advance(cfg, w, call, pc, o).0.db; m in db'.merchants && Net(db', m) == Net(w.db, m)
  {
    hide Net, DoPersist, DoComplete, DoMark, DoUndo, RowOk, RowOf;
    SameNet(w.db, w.db, m);
    if pc.Persist? {
      CreateMovesNothing(w, pc.tx, o, m);
    } else if pc.Complete? {
      CompleteMovesNothing(cfg, w, pc.tx, o, m);
    } else if pc.MarkProcessing? {
      StatusStepMovesNothing(cfg, w, pc, Processing, LogProcessing(pc.tx), o, m);
    } else if pc.MarkFailed? {
      StatusStepMovesNothing(cfg, w, pc, Failed, LogFailed(pc.tx, pc.cause), o, m);
    } else if pc.UndoProcessing? || pc.UndoFailed? {
      StatusStepMovesNothing(cfg, w, pc, Failed, pc, o, m);
    } else {
      SameNet(w.db, Advance(cfg, w, call, pc, o).0.db, m);
    }
  }

  lemma RefundRunMovesNet(s: State, a: Action, s': State, opening: map<MerchantId, Merchant>, m: MerchantId)
    requires Inv(s, opening) && Step(s, a, s') && m in s.world.db.merchants
    requires a.Run? && s.reqs[a.r].pc.RefundCommit?
    ensures m in s'.world.db.merchants && Net(s'.world.db, m) == Net(s.world.db, m) - PaidLate(s, a, m)
  {
    hide Advance, Grounded, IndexOk, Net, AttemptLog, AllRetryable, Approved, DoRefundCommit;
    var tx := s.reqs[a.r].pc.tx;
    assert PcOk(s.cfg, s.reqs[a.r].pc, RowOf(s.world, tx.id)) &&
        RowOk(RowOf(s.world, tx.id), tx.id, Attempts(s.cfg.maxAttempts));
    RefundMovesLate(s.cfg, s.world, tx, a.o, m);
    assert Advance(s.cfg, s.world, s.reqs[a.r].call, RefundCommit(tx), a.o) == DoRefundCommit(s.world, tx, a.o) by {
      RefundIsCommit(s.cfg, s.world, s.reqs[a.r].call, tx, a.o);
    }
  }

  lemma RefundIsCommit(cfg: Config, w: World, call: Call, tx: Transaction, o: Oracle)
    ensures Advance(cfg, w, call, RefundCommit(tx), o) == DoRefundCommit(w, tx, o)
  {
  }

  lemma StepMovesNet(s: State, a: Action, s': State, opening: map<MerchantId, Merchant>, m: MerchantId)
    requires Inv(s, opening) && Step(s, a, s') && m in s.world.db.merchants
    ensures m in s'.world.db.merchants && Net(s'.world.db, m) == Net(s.world.db, m) - PaidLate(s, a, m)
  {
    hide Advance, IndexOk, Net, RowOk, PcOk, LateCommit;
    if a.Run? {
      if s.reqs[a.r].pc.RefundCommit? {
        RefundRunMovesNet(s, a, s', opening, m);
      } else {
        RequestMovesNet(s.cfg, s.world, s.reqs[a.r].call, s.reqs[a.r].pc, a.o, m);
      }
    }
  }

  // ---- Main results ----

  /** The amounts merchant `m` has paid out twice in the first `i` steps. */
  ghost function Late(states: seq<State>, actions: seq<Action>, i: nat, m: MerchantId): nat
    requires i <= |actions| && i <= |states|
  {
    if i == 0 then 0 else Late(states, actions, i - 1, m) + PaidLate(states[i - 1], actions[i - 1], m)
  }

  /** On every run: opening balance, plus COMPLETED amounts, less what late refunds paid out again. */
  lemma {:induction false} BooksOnRuns(states: seq<State>, actions: seq<Action>, i: nat, m: MerchantId)
    requires IsRun(states, actions) && i < |states| && m in states[0].world.db.merchants
    ensures m in states[i].world.db.merchants
    ensures states[i].world.db.merchants[m].balanceCents
         == states[0].world.db.merchants[m].balanceCents + CompletedTotal(states[i].world.db.txns, m)
            - Late(states, actions, i, m)
  {
    hide Inv, Step;
    if i > 0 {
      BooksOnRuns(states, actions, i - 1, m);
      InvOnRuns(states, actions, i - 1);
      StepMovesNet(states[i - 1], actions[i - 1], states[i], states[0].world.db.merchants, m);
    }
  }

  lemma {:induction false} LateIffSomeCommit(states: seq<State>, actions: seq<Action>, i: nat, m: MerchantId)
    requires i <= |actions| && i <= |states|
    ensures Late(states, actions, i, m) == 0 <==> forall k :: 0 <= k < i ==> PaidLate(states[k], actions[k], m) == 0
  {
    hide PaidLate;
    if i > 0 {
      LateIffSomeCommit(states, actions, i - 1, m);
    }
  }

  /** In every reachable state of every run a balance is its opening balance plus its merchant's COMPLETED
      amounts if and only if none of the merchant's refunds committed on a row already settled by another. */
  lemma LedgerConserved(states: seq<State>, actions: seq<Action>, i: nat, m: MerchantId)
    requires IsRun(states, actions) && i < |states| && m in states[0].world.db.merchants
    ensures m in states[i].world.db.merchants
    ensures states[i].world.db.merchants[m].balanceCents
         == states[0].world.db.merchants[m].balanceCents + CompletedTotal(states[i].world.db.txns, m)
       <==> forall k :: 0 <= k < i ==> PaidLate(states[k], actions[k], m) == 0
  {
    BooksOnRuns(states, actions, i, m);
    LateIffSomeCommit(states, actions, i, m);
  }

  /** Every refund in flight has a row that is still COMPLETED. */
  ghost predicate OnTime(s: State) {
    forall r :: r in s.reqs && s.reqs[r].pc.RefundCommit? ==> FreshRefund(s.world, s.reqs[r].pc)
  }

  ghost predicate NoneLate(s: State, a: Action) {
    forall id :: !LateCommit(s, a, id)
  }

  lemma SerialStepOnTime(s: State, a: Action, s': State, opening: map<MerchantId, Merchant>)
    requires Inv(s, opening) && Step(s, a, s') && OnTime(s) && RefundsSerial(s)
    ensures OnTime(s') && NoneLate(s, a)
  {
    hide Advance, Grounded, IndexOk, RowOk;
    if a.Run? {
      RunHasEffect(s, a, s', opening);
      forall q | q in s'.reqs && s'.reqs[q].pc.RefundCommit? ensures FreshRefund(s'.world, s'.reqs[q].pc) {
        SerialRefundOnTime(s, a.r, s', opening, q);
      }
    }
    forall id ensures !LateCommit(s, a, id) {
      if a.Run? && s.reqs[a.r].pc.RefundCommit? {
        assert FreshRefund(s.world, s.reqs[a.r].pc);
      }
    }
  }

  lemma SerialRefundOnTime(s: State, r: int, s': State, opening: map<MerchantId, Merchant>, q: int)
    requires Inv(s, opening) && Effect(s, r, s') && OnTime(s) && RefundsSerial(s)
    requires q in s'.reqs && s'.reqs[q].pc.RefundCommit?
    ensures FreshRefund(s'.world, s'.reqs[q].pc)
  {
    hide Grounded, IndexOk, RowOk;
    if q != r {
      var pc := s.reqs[q].pc;
      assert FreshRefund(s.world, pc) && MayCoexist(pc, s.reqs[r].pc);
      assert RowOf(s.world, pc.tx.id).tx.Some?;
      if pc.tx.id != Subject(s.reqs[r].pc) {
        assert RowOf(s'.world, pc.tx.id) == RowOf(s.world, pc.tx.id);
      }
    }
  }

  lemma {:induction false} SerialRunsOnTime(states: seq<State>, actions: seq<Action>, i: nat)
    requires IsRun(states, actions) && i < |states| && forall k :: 0 <= k < i ==> RefundsSerial(states[k])
    ensures OnTime(states[i]) && forall k :: 0 <= k < i ==> NoneLate(states[k], actions[k])
  {
    hide Inv, Step, RefundsSerial, LateCommit, NoneLate, FreshRefund;
    if i > 0 {
      hide IsRun, OnTime;
      SerialRunsOnTime(states, actions, i - 1);
      InvOnRuns(states, actions, i - 1);
      RunStep(states, actions, i - 1);
      SerialStepOnTime(states[i - 1], actions[i - 1], states[i], states[0].world.db.merchants);
    }
  }

  /** A way to be safe: while no two refunds of one transaction are between check and commit, the books balance. */
  lemma SerialRefundsConserve(states: seq<State>, actions: seq<Action>, i: nat, m: MerchantId)
    requires IsRun(states, actions) && i < |states| && m in states[0].world.db.merchants
    requires forall k :: 0 <= k < i ==> RefundsSerial(states[k])
    ensures m in states[i].world.db.merchants && Late(states, actions, i, m) == 0
    ensures states[i].world.db.merchants[m].balanceCents
         == states[0].world.db.merchants[m].balanceCents + CompletedTotal(states[i].world.db.txns, m)
  {
    hide LateCommit, RefundsSerial;
    SerialRunsOnTime(states, actions, i);
    BooksOnRuns(states, actions, i, m);
    LateIffSomeCommit(states, actions, i, m);
  }

  /** What late refunds paid out again is all that a balance can lack of any COMPLETED amount it should hold. */
  lemma BalancesCover(states: seq<State>, actions: seq<Action>, i: nat, id: TxId)
    requires IsRun(states, actions) && i < |states|
    requires id in states[i].world.db.txns && states[i].world.db.txns[id].status == Completed
    ensures var t := states[i].world.db.txns[id];
            && t.merchantId in states[i].world.db.merchants
            && states[i].world.db.merchants[t.merchantId].balanceCents +
                 Late(states, actions, i, t.merchantId) >= t.amountCents
  {
    var opening, txns := states[0].world.db.merchants, states[i].world.db.txns;
    InvOnRuns(states, actions, i);
    AmountsPositive(states[i], opening);
    TotalSplit(txns, txns[id].merchantId, id);
    TotalNonNegative(txns - {id}, txns[id].merchantId);
    assert txns[id].merchantId in opening;
    BooksOnRuns(states, actions, i, txns[id].merchantId);
  }

  /** Refunding a COMPLETED transaction fails only by a failing statement, or for funds that late refunds of the
      same merchant have already paid out. */
  lemma RefundsCovered(states: seq<State>, actions: seq<Action>, i: nat, id: TxId, failAt: nat)
    requires IsRun(states, actions) && i < |states|
    requires id in states[i].world.db.txns && states[i].world.db.txns[id].status == Completed
    ensures var t := states[i].world.db.txns[id]; var r := RefundInDb(states[i].world.db, t, failAt);
            r.Err? ==>
              || (failAt < NO_FAULT && r.error == WriteFailed)
              || (r.error == InsufficientFunds && Late(states, actions, i, t.merchantId) > 0)
  {
    hide IsRun, Grounded, IndexOk, Late;
    InvOnRuns(states, actions, i);
    BalancesCover(states, actions, i, id);
    assert RowOk(RowOf(states[i].world, id), id, Attempts(states[i].cfg.maxAttempts));
  }

  /** The same for a request about to commit its refund, however long ago it checked the status, as long as no
      other refund of that transaction came first. */
  lemma RefundInFlightCovered(states: seq<State>, actions: seq<Action>, i: nat, r: int, failAt: nat)
    requires IsRun(states, actions) && i < |states|
    requires r in states[i].reqs && states[i].reqs[r].pc.RefundCommit?
    ensures var tx := states[i].reqs[r].pc.tx; var outcome := RefundInDb(states[i].world.db, tx, failAt);
            && tx.id in states[i].world.db.txns
            && (outcome.Err? && states[i].world.db.txns[tx.id].status == Completed ==>
                  || (failAt < NO_FAULT && outcome.error == WriteFailed)
                  || (outcome.error == InsufficientFunds && Late(states, actions, i, tx.merchantId) > 0))
  {
    hide RefundInDb, Grounded, IndexOk, Late;
    InvOnRuns(states, actions, i);
    if states[i].world.db.txns[states[i].reqs[r].pc.tx.id].status == Completed {
      RefundsCovered(states, actions, i, states[i].reqs[r].pc.tx.id, failAt);
    }
  }
}
