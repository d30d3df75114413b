// What a request achieves when nothing stands in its way: the payment and the refund go
// through, with every row they owe (internal/service/payment.go).

module LedgerProgress {
  import opened Domain
  import opened Money
  import opened Database
  import opened CircuitBreaking
  import opened Ledger
  import opened LedgerSafety

  /** The merchants after one balance moved by `delta`. */
  function Paid(merchants: map<MerchantId, Merchant>, m: MerchantId, delta: int): map<MerchantId, Merchant>
    requires m in merchants
  {
    merchants[m := merchants[m].(balanceCents := merchants[m].balanceCents + delta)]
  }

  /** `n` steps of one request in a row, with the same luck each time. */
  function Drive(cfg: Config, w: World, call: Call, pc: Pc, o: Oracle, n: nat): (World, Pc)
    decreases n
  {
    if n == 0 then (w, pc)
    else var (w', pc') := Advance(cfg, w, call, pc, o); Drive(cfg, w', call, pc', o, n - 1)
  }

  lemma {:induction false} DriveOn(cfg: Config, w: World, call: Call, pc: Pc, o: Oracle, m: nat, n: nat)
    ensures var (w', pc') := Drive(cfg, w, call, pc, o, m);
            Drive(cfg, w, call, pc, o, m + n) == Drive(cfg, w', call, pc', o, n)
    decreases m
  {
    hide Advance;
    if m > 0 {
      var (w', pc') := Advance(cfg, w, call, pc, o);
      DriveOn(cfg, w', call, pc', o, m - 1, n);
    }
  }

  predicate Lucky(o: Oracle) {
    !o.fault && !o.ctxDone && o.failAt >= NO_FAULT && o.bank == None
  }

  function NewTransaction(id: TxId, input: Input, status: Status): Transaction {
    Transaction(id, input.merchantId, input.amountCents, input.currency, status, input.key, input.description)
  }

  function Indexed(index: map<string, TxId>, key: string, id: TxId): map<string, TxId> {
    if key == "" then index else index[key := id]
  }

  /** CheckKey, Lookup, Persist: the row is inserted PENDING. */
  lemma Inserted(cfg: Config, w: World, input: Input, o: Oracle)
    requires input.merchantId in w.db.merchants && Validate(cfg, w.db.merchants[input.merchantId], input) == None
    requires (input.key == "" || input.key !in w.db.keyIndex) && o.freshId !in w.db.txns && Lucky(o)
    ensures var tx := NewTransaction(o.freshId, input, Pending);
            var (w', pc') := Drive(cfg, w, Create(input), CheckKey, o, 3);
            && pc' == MarkProcessing(tx) && w' == w.(db := w'.db) && w'.db.merchants == w.db.merchants
            && w'.db.txns == w.db.txns[o.freshId := tx]
            && w'.db.keyIndex == Indexed(w.db.keyIndex, input.key, o.freshId)
            && w'.db.events == w.db.events + [AuditEvent(tx.id, None, Pending)]
            && w'.db.outbox == w.db.outbox + [OutboxEvent(CreatedEvent, tx.id, Pending)]
  {
    var call, tx := Create(input), NewTransaction(o.freshId, input, Pending);
    assert Advance(cfg, w, call, CheckKey, o) == (w, Lookup);
    assert Advance(cfg, w, call, Lookup, o) == (w, Persist(tx));
    var (w', pc') := Advance(cfg, w, call, Persist(tx), o);
    assert Drive(cfg, w', call, pc', o, 0) == (w', pc');
    assert Drive(cfg, w, call, Persist(tx), o, 1) == (w', pc');
    assert Drive(cfg, w, call, Lookup, o, 2) == (w', pc');
  }

  /** MarkProcessing, LogProcessing: the row is PROCESSING and the bank stage is entered. */
  lemma Processed(cfg: Config, w: World, call: Call, tx: Transaction, o: Oracle)
    requires tx.id in w.db.txns && w.db.txns[tx.id] == tx && tx.status == Pending && Lucky(o)
    ensures var tx' := tx.(status := Processing);
            var (w', pc') := Drive(cfg, w, call, MarkProcessing(tx), o, 2);
            && pc' == Admit(tx') && w' == w.(db := w'.db, stages := w.stages + multiset{tx.id})
            && w'.db == w.db.(txns := w.db.txns[tx.id := tx'],
                              events := w.db.events + [AuditEvent(tx.id, Some(Pending), Processing)])
  {
    var (w1, pc1) := Advance(cfg, w, call, MarkProcessing(tx), o);
    assert pc1 == LogProcessing(tx) && w1 == w.(db := w.db.(txns := w.db.txns[tx.id := tx.(status := Processing)]));
    var (w2, pc2) := Advance(cfg, w1, call, pc1, o);
    assert Drive(cfg, w2, call, pc2, o, 0) == (w2, pc2);
    assert Drive(cfg, w1, call, pc1, o, 1) == (w2, pc2);
  }

  /** Admit, ChargeBank, Report: the bank approves on the first attempt. */
  lemma Charged(cfg: Config, w: World, call: Call, tx: Transaction, o: Oracle)
    requires Admits(w.breaker, w.now + o.elapsed) && Lucky(o)
    ensures var (w', pc') := Drive(cfg, w, call, Admit(tx), o, 3);
            && pc' == Complete(tx) && w'.db == w.db && w'.credits == w.credits && w'.stages == w.stages
            && Log(w', tx.id) == Log(w, tx.id) + [None]
            && (w.breaker.state == CircuitClosed ==> w'.breaker.state == CircuitClosed)
  {
    hide Admits;
    var (w1, pc1) := Advance(cfg, w, call, Admit(tx), o);
    var (w2, pc2) := Advance(cfg, w1, call, pc1, o);
    assert pc2 == Report(tx, None);
    var (w3, pc3) := Advance(cfg, w2, call, pc2, o);
    assert Drive(cfg, w3, call, pc3, o, 0) == (w3, pc3);
    assert Drive(cfg, w2, call, pc2, o, 1) == (w3, pc3);
    assert Drive(cfg, w1, call, pc1, o, 2) == (w3, pc3);
  }

  /** What a database block leaves when no statement fails. */
  lemma Settles(db: Db, tx: Transaction, from: Status, to: Status, delta: int, event: EventType, failAt: nat)
    requires tx.id in db.txns && tx.merchantId in db.merchants && failAt >= NO_FAULT
    requires db.merchants[tx.merchantId].balanceCents + delta >= 0
    ensures SettleInDb(db, tx, from, to, delta, event, failAt).Ok?
  {
  }

  /** Complete: status, balance, audit row, announcement and credit in one block. */
  lemma Credited(cfg: Config, w: World, call: Call, tx: Transaction, o: Oracle)
    requires tx.id in w.db.txns && w.db.txns[tx.id] == tx && tx.status == Processing && tx.amountCents > 0 && Lucky(o)
    requires tx.merchantId in w.db.merchants && w.db.merchants[tx.merchantId].balanceCents >= 0
    ensures var done := tx.(status := Completed);
            var (w', pc') := Drive(cfg, w, call, Complete(tx), o, 1);
            && pc' == Replied(Reply(Some(done), None)) && w' == w.(db := w'.db, credits := w.credits + multiset{tx.id})
            && w'.db == Db(Paid(w.db.merchants, tx.merchantId, tx.amountCents),
                           w.db.txns[tx.id := done], w.db.keyIndex,
                           w.db.events + [AuditEvent(tx.id, Some(Processing), Completed)],
                           w.db.outbox + [OutboxEvent(CompletedEvent, tx.id, Completed)])
  {
    hide SettleInDb;
    Settles(w.db, tx, Processing, Completed, tx.amountCents, CompletedEvent, o.failAt);
    SettleShape(w.db, tx, Processing, Completed, tx.amountCents, CompletedEvent, o.failAt);
    var (w', pc') := Advance(cfg, w, call, Complete(tx), o);
    assert Drive(cfg, w', call, pc', o, 0) == (w', pc');
  }

  /** Eight steps: inserted, PROCESSING, and approved by the bank. */
  lemma UpToApproval(cfg: Config, w: World, input: Input, o: Oracle)
    requires input.merchantId in w.db.merchants && Validate(cfg, w.db.merchants[input.merchantId], input) == None
    requires (input.key == "" || input.key !in w.db.keyIndex) && o.freshId !in w.db.txns && Lucky(o)
    requires Admits(w.breaker, w.now + o.elapsed)
    ensures var id, tx := o.freshId, NewTransaction(o.freshId, input, Processing);
            var (w', pc') := Drive(cfg, w, Create(input), CheckKey, o, 8);
            && pc' == Complete(tx) && w'.credits == w.credits
            && w'.db.merchants == w.db.merchants && w'.db.txns == w.db.txns[id := tx]
            && w'.db.keyIndex == Indexed(w.db.keyIndex, input.key, id)
            && (w.breaker.state == CircuitClosed ==> w'.breaker.state == CircuitClosed)
            && w'.db.events == w.db.events + [AuditEvent(id, None, Pending), AuditEvent(id, Some(Pending), Processing)]
            && w'.db.outbox == w.db.outbox + [OutboxEvent(CreatedEvent, id, Pending)]
  {
    hide Advance, Drive, Validate, Admits;
    var call, tx := Create(input), NewTransaction(o.freshId, input, Pending);
    Inserted(cfg, w, input, o);
    var (w1, pc1) := Drive(cfg, w, call, CheckKey, o, 3);
    Processed(cfg, w1, call, tx, o);
    var (w2, pc2) := Drive(cfg, w1, call, pc1, o, 2);
    Charged(cfg, w2, call, tx.(status := Processing), o);
    DriveOn(cfg, w, call, CheckKey, o, 3, 5);
    DriveOn(cfg, w1, call, pc1, o, 2, 3);
  }

  /** A valid request on a fresh key, with the bank approving and nothing failing, is answered COMPLETED:
      one row, the merchant's balance up by the amount, three audit rows, two announcements, one credit. */
  lemma PaymentGoesThrough(cfg: Config, w: World, input: Input, o: Oracle)
    requires input.merchantId in w.db.merchants && Validate(cfg, w.db.merchants[input.merchantId], input) == None
    requires w.db.merchants[input.merchantId].balanceCents >= 0
    requires (input.key == "" || input.key !in w.db.keyIndex) && o.freshId !in w.db.txns && Lucky(o)
    requires Admits(w.breaker, w.now + o.elapsed)
    ensures var id, tx := o.freshId, NewTransaction(o.freshId, input, Completed);
            var (w', pc') := Drive(cfg, w, Create(input), CheckKey, o, 9);
            && pc' == Replied(Reply(Some(tx), None))
            && w'.db.txns == w.db.txns[id := tx] && w'.credits == w.credits + multiset{id}
            && w'.db.keyIndex == Indexed(w.db.keyIndex, input.key, id)
            && (w.breaker.state == CircuitClosed ==> w'.breaker.state == CircuitClosed)
            && w'.db.merchants == Paid(w.db.merchants, input.merchantId, input.amountCents)
            && w'.db.events == w.db.events + [AuditEvent(id, None, Pending), AuditEvent(id, Some(Pending), Processing)]
                                           + [AuditEvent(id, Some(Processing), Completed)]
            && w'.db.outbox == w.db.outbox + [OutboxEvent(CreatedEvent, id, Pending)] +
                 [OutboxEvent(CompletedEvent, id, Completed)]
  {
    assert input.amountCents > 0;
    hide Advance, Drive, Validate, Admits, Paid;
    var call, tx := Create(input), NewTransaction(o.freshId, input, Processing);
    UpToApproval(cfg, w, input, o);
    var (w1, pc1) := Drive(cfg, w, call, CheckKey, o, 8);
    Credited(cfg, w1, call, tx, o);
    DriveOn(cfg, w, call, CheckKey, o, 8, 1);
  }

  /** A payment given up after the bank stage, with nothing failing, is answered FAILED with the reason: the row, its
      audit row and its announcement are written, and no balance moves. */
  lemma FailureRecorded(cfg: Config, w: World, call: Call, tx: Transaction, cause: Error, o: Oracle)
    requires tx.id in w.db.txns && w.db.txns[tx.id] == tx && tx.status == Processing && Lucky(o)
    ensures var failed := tx.(status := Failed);
            var (w', pc') := Drive(cfg, w, call, MarkFailed(tx, cause), o, 3);
            && pc' == Replied(Reply(Some(failed), Some(cause))) && w' == w.(db := w'.db)
            && w'.db == w.db.(txns := w.db.txns[tx.id := failed],
                              events := w.db.events + [AuditEvent(tx.id, Some(Processing), Failed)],
                              outbox := w.db.outbox + [OutboxEvent(FailedEvent, tx.id, Failed)])
  {
    var (w1, pc1) := Advance(cfg, w, call, MarkFailed(tx, cause), o);
    assert pc1 == LogFailed(tx, cause) && w1 == w.(db := w.db.(txns := w.db.txns[tx.id := tx.(status := Failed)]));
    var (w2, pc2) := Advance(cfg, w1, call, pc1, o);
    assert pc2 == EmitFailed(tx, cause);
    var (w3, pc3) := Advance(cfg, w2, call, pc2, o);
    assert Drive(cfg, w3, call, pc3, o, 0) == (w3, pc3);
    assert Drive(cfg, w2, call, pc2, o, 1) == (w3, pc3);
    assert Drive(cfg, w1, call, pc1, o, 2) == (w3, pc3);
  }

  /** A valid request on a fresh key that finds the breaker open, less than its timeout ago, is answered FAILED with
      ErrCircuitOpen: the bank is not called, no balance moves, and row, audit rows and announcements say FAILED. */
  lemma OpenBreakerFailsPayment(cfg: Config, w: World, input: Input, o: Oracle)
    requires input.merchantId in w.db.merchants && Validate(cfg, w.db.merchants[input.merchantId], input) == None
    requires (input.key == "" || input.key !in w.db.keyIndex) && o.freshId !in w.db.txns && Lucky(o)
    requires w.breaker.state == CircuitOpen && w.now + o.elapsed - w.breaker.openedAt < w.breaker.resetTimeout
    ensures var id, tx := o.freshId, NewTransaction(o.freshId, input, Failed);
            var (w', pc') := Drive(cfg, w, Create(input), CheckKey, o, 9);
            && pc' == Replied(Reply(Some(tx), Some(ErrCircuitOpen)))
            && w'.charges == w.charges && w'.credits == w.credits && w'.db.merchants == w.db.merchants
            && w'.db.txns == w.db.txns[id := tx] && w'.breaker == w.breaker
            && w'.db.events == w.db.events + [AuditEvent(id, None, Pending), AuditEvent(id, Some(Pending), Processing)]
                                           + [AuditEvent(id, Some(Processing), Failed)]
            && w'.db.outbox == w.db.outbox + [OutboxEvent(CreatedEvent, id, Pending)] +
                 [OutboxEvent(FailedEvent, id, Failed)]
  {
    hide Advance, Drive, Validate;
    var call, tx := Create(input), NewTransaction(o.freshId, input, Pending);
    var tx' := tx.(status := Processing);
    Inserted(cfg, w, input, o);
    var (w1, pc1) := Drive(cfg, w, call, CheckKey, o, 3);
    Processed(cfg, w1, call, tx, o);
    var (w2, pc2) := Drive(cfg, w1, call, pc1, o, 2);
    var (w3, pc3) := Advance(cfg, w2, call, pc2, o);
    TurnedAway(cfg, w2, call, tx', o);
    FailureRecorded(cfg, w3, call, tx', ErrCircuitOpen, o);
    DriveOn(cfg, w, call, CheckKey, o, 3, 6);
    DriveOn(cfg, w1, call, pc1, o, 2, 4);
  }

  lemma TurnedAway(cfg: Config, w: World, call: Call, tx: Transaction, o: Oracle)
    requires w.breaker.state == CircuitOpen && w.now + o.elapsed - w.breaker.openedAt < w.breaker.resetTimeout
    ensures var (w', pc') := Advance(cfg, w, call, Admit(tx), o);
            && pc' == MarkFailed(tx, ErrCircuitOpen)
            && w' == w.(now := w.now + o.elapsed, rejected := w.rejected + {tx.id})
            && Drive(cfg, w, call, Admit(tx), o, 4) == Drive(cfg, w', call, pc', o, 3)
  {
    hide Drive;
    DriveFrom(cfg, w, call, Admit(tx), o, 3);
  }

  lemma DriveFrom(cfg: Config, w: World, call: Call, pc: Pc, o: Oracle, n: nat)
    ensures var (w', pc') := Advance(cfg, w, call, pc, o);
            Drive(cfg, w, call, pc, o, n + 1) == Drive(cfg, w', call, pc', o, n)
  {
    hide Advance;
  }

  /** The owner's refund of a COMPLETED transaction, with nothing failing, is answered REFUNDED and pays the amount
      back. */
  lemma RefundGoesThrough(cfg: Config, w: World, tx: Transaction, o: Oracle)
    requires tx.id in w.db.txns && w.db.txns[tx.id] == tx && tx.status == Completed && Lucky(o)
    requires tx.merchantId in w.db.merchants && w.db.merchants[tx.merchantId].balanceCents >= tx.amountCents
    ensures var (w', pc') := Drive(cfg, w, Refund(tx.merchantId, tx.id), RefundLoad, o, 2);
            && pc' == Replied(Reply(Some(tx.(status := Refunded)), None))
            && w'.db.txns == w.db.txns[tx.id := tx.(status := Refunded)]
            && w'.db.merchants == Paid(w.db.merchants, tx.merchantId, -tx.amountCents)
            && w'.db.events == w.db.events + [AuditEvent(tx.id, Some(Completed), Refunded)]
            && w'.db.outbox == w.db.outbox + [OutboxEvent(RefundedEvent, tx.id, Refunded)]
  {
    hide SettleInDb;
    var call := Refund(tx.merchantId, tx.id);
    assert Advance(cfg, w, call, RefundLoad, o) == (w, RefundCommit(tx));
    Settles(w.db, tx, Completed, Refunded, -tx.amountCents, RefundedEvent, o.failAt);
    SettleShape(w.db, tx, Completed, Refunded, -tx.amountCents, RefundedEvent, o.failAt);
    var (w', pc') := Advance(cfg, w, call, RefundCommit(tx), o);
    assert Drive(cfg, w', call, pc', o, 0) == (w', pc');
    assert Drive(cfg, w, call, RefundCommit(tx), o, 1) == (w', pc');
  }

  // ---- From the steps of one request to steps of the system ----

  ghost predicate IsPath(states: seq<State>, actions: seq<Action>) {
    && |states| == |actions| + 1
    && forall i :: 0 <= i < |actions| ==> Step(states[i], actions[i], states[i + 1])
  }

  /** Some sequence of steps leads from `s` to `s'`. */
  ghost predicate Leads(s: State, s': State) {
    exists states: seq<State>, actions: seq<Action> ::
      IsPath(states, actions) && states[0] == s && states[|actions|] == s'
  }

  lemma StayLeads(s: State)
    ensures Leads(s, s)
  {
    var states, actions: seq<Action> := [s], [];
    assert IsPath(states, actions) && states[|actions|] == s;
  }

  lemma StepLeads(s: State, t: State, a: Action, u: State)
    requires Leads(s, t) && Step(t, a, u)
    ensures Leads(s, u)
  {
    hide Step;
    var states, actions :| IsPath(states, actions) && states[0] == s && states[|actions|] == t;
    var states', actions' := states + [u], actions + [a];
    assert IsPath(states', actions') && states'[0] == s && states'[|actions'|] == u;
  }

  /** The state after `n` steps of request `r`. */
  function AfterDrive(s: State, r: int, o: Oracle, n: nat): State
    requires r in s.reqs
  {
    var (w, pc) := Drive(s.cfg, s.world, s.reqs[r].call, s.reqs[r].pc, o, n);
    s.(world := w, reqs := s.reqs[r := s.reqs[r].(pc := pc)])
  }

  /** One more step at the end of a drive. */
  lemma DriveOneMore(cfg: Config, w: World, call: Call, pc: Pc, o: Oracle, n: nat)
    ensures var (w', pc') := Drive(cfg, w, call, pc, o, n);
            Drive(cfg, w, call, pc, o, n + 1) == Advance(cfg, w', call, pc', o)
  {
    hide Advance;
    var (w', pc') := Drive(cfg, w, call, pc, o, n);
    var (w2, pc2) := Advance(cfg, w', call, pc', o);
    DriveOn(cfg, w, call, pc, o, n, 1);
    assert Drive(cfg, w2, call, pc2, o, 0) == (w2, pc2);
  }

  lemma DriveStep(s: State, r: int, o: Oracle, n: nat)
    requires r in s.reqs
    ensures Step(AfterDrive(s, r, o, n), Run(r, o), AfterDrive(s, r, o, n + 1))
  {
    hide Advance, Drive;
    DriveOneMore(s.cfg, s.world, s.reqs[r].call, s.reqs[r].pc, o, n);
  }

  lemma {:induction false} DriveLeads(s: State, t: State, r: int, o: Oracle, n: nat)
    requires Leads(s, t) && r in t.reqs
    ensures Leads(s, AfterDrive(t, r, o, n))
    decreases n
  {
    if n == 0 {
      assert AfterDrive(t, r, o, 0) == t;
    } else {
      DriveLeads(s, t, r, o, n - 1);
      DriveStep(t, r, o, n - 1);
      StepLeads(s, AfterDrive(t, r, o, n - 1), Run(r, o), AfterDrive(t, r, o, n));
    }
  }

  // ---- What two overlapping refunds do ----

  function FreshWorld(merchants: map<MerchantId, Merchant>): World {
    World(Db(merchants, map[], map[], [], []), NewBreaker(0, 0), 0, map[], multiset{}, multiset{}, {})
  }

  function FreshState(cfg: Config, merchants: map<MerchantId, Merchant>): State {
    State(cfg, FreshWorld(merchants), map[])
  }

  /** Loading a refund checks the status as it is now. */
  lemma RefundLoads(s: State, r: int, tx: Transaction, o: Oracle)
    requires r in s.reqs && s.reqs[r] == Request(Refund(tx.merchantId, tx.id), RefundLoad) && Lucky(o)
    requires tx.id in s.world.db.txns && s.world.db.txns[tx.id] == tx && tx.status == Completed
    ensures Step(s, Run(r, o), s.(reqs := s.reqs[r := s.reqs[r].(pc := RefundCommit(tx))]))
  {
  }

  /** Committing it does not: the row may have been refunded meanwhile. */
  lemma RefundCommits(s: State, r: int, tx: Transaction, o: Oracle) returns (s': State)
    requires r in s.reqs && s.reqs[r].pc == RefundCommit(tx) && Lucky(o)
    requires tx.id in s.world.db.txns && tx.merchantId in s.world.db.merchants
    requires s.world.db.merchants[tx.merchantId].balanceCents >= tx.amountCents
    ensures Step(s, Run(r, o), s') && s'.cfg == s.cfg
    ensures s'.reqs == s.reqs[r := s.reqs[r].(pc := Replied(Reply(Some(tx.(status := Refunded)), None)))]
    ensures s'.world.db.txns == s.world.db.txns[tx.id := s.world.db.txns[tx.id].(status := Refunded)]
    ensures s'.world.db.merchants == Paid(s.world.db.merchants, tx.merchantId, -tx.amountCents)
  {
    hide SettleInDb;
    Settles(s.world.db, tx, Completed, Refunded, -tx.amountCents, RefundedEvent, o.failAt);
    SettleShape(s.world.db, tx, Completed, Refunded, -tx.amountCents, RefundedEvent, o.failAt);
    var (w, pc) := Advance(s.cfg, s.world, s.reqs[r].call, s.reqs[r].pc, o);
    s' := s.(world := w, reqs := s.reqs[r := s.reqs[r].(pc := pc)]);
  }

  /** The payment of a fresh system whose merchant is paid once. */
  lemma OnePaymentMade(cfg: Config, merchants: map<MerchantId, Merchant>, input: Input, o: Oracle)
      returns (s0: State, s: State)
    requires input.merchantId in merchants && Validate(cfg, merchants[input.merchantId], input) == None
    requires merchants[input.merchantId].balanceCents >= 0 && Lucky(o)
    ensures s0 == FreshState(cfg, merchants) && Leads(s0, s)
    ensures s.cfg == cfg && s.reqs.Keys == {0} && s.reqs[0].pc.Replied?
    ensures s.world.db.txns == map[o.freshId := NewTransaction(o.freshId, input, Completed)]
    ensures s.world.db.merchants == Paid(merchants, input.merchantId, input.amountCents)
  {
    hide Advance, Drive, Validate, Paid;
    s0 := FreshState(cfg, merchants);
    var s1 := s0.(reqs := map[0 := Request(Create(input), CheckKey)]);
    StayLeads(s0);
    assert Step(s0, Arrive(0, Create(input)), s1);
    StepLeads(s0, s0, Arrive(0, Create(input)), s1);
    assert Admits(s0.world.breaker, s0.world.now + o.elapsed);
    PaymentGoesThrough(cfg, s0.world, input, o);
    DriveLeads(s0, s1, 0, o, 9);
    s := AfterDrive(s1, 0, o, 9);
  }

  /** Two refunds of a COMPLETED transaction that have both passed the status check. */
  lemma BothLoaded(s0: State, s: State, tx: Transaction, o: Oracle) returns (s': State)
    requires Leads(s0, s) && s.reqs.Keys == {0} && Lucky(o)
    requires tx.id in s.world.db.txns && s.world.db.txns[tx.id] == tx && tx.status == Completed
    ensures Leads(s0, s') && s'.world == s.world && s'.reqs.Keys == {0, 1, 2}
    ensures s'.reqs[1] == s'.reqs[2] == Request(Refund(tx.merchantId, tx.id), RefundCommit(tx))
  {
    hide Advance;
    var call := Refund(tx.merchantId, tx.id);
    var s1 := s.(reqs := s.reqs[1 := Request(call, RefundLoad)]);
    StepLeads(s0, s, Arrive(1, call), s1);
    var s2 := s1.(reqs := s1.reqs[2 := Request(call, RefundLoad)]);
    StepLeads(s0, s1, Arrive(2, call), s2);
    hide Step;
    var s3 := s2.(reqs := s2.reqs[1 := Request(call, RefundCommit(tx))]);
    RefundLoads(s2, 1, tx, o);
    StepLeads(s0, s2, Run(1, o), s3);
    s' := s3.(reqs := s3.reqs[2 := Request(call, RefundCommit(tx))]);
    RefundLoads(s3, 2, tx, o);
    StepLeads(s0, s3, Run(2, o), s');
  }

  /** Two refunds of one payment that both check its status before either commits are both answered with
      success, and pay back twice: the books are off by the amount. */
  lemma OverlappingRefundsBreakBooks(cfg: Config, merchants: map<MerchantId, Merchant>, input: Input, o: Oracle)
    returns (s0: State, s: State)
    requires (forall m :: m in merchants ==> merchants[m].balanceCents >= 0) && Lucky(o)
    requires input.merchantId in merchants && Validate(cfg, merchants[input.merchantId], input) == None
    requires merchants[input.merchantId].balanceCents >= input.amountCents
    ensures Init(s0) && s0.world.db.merchants == merchants && Leads(s0, s)
    ensures 1 in s.reqs && 2 in s.reqs && s.reqs[1].pc == s.reqs[2].pc
            == Replied(Reply(Some(NewTransaction(o.freshId, input, Refunded)), None))
    ensures input.merchantId in s.world.db.merchants && input.amountCents > 0
    ensures s.world.db.merchants[input.merchantId].balanceCents
         == merchants[input.merchantId].balanceCents +
             CompletedTotal(s.world.db.txns, input.merchantId) - input.amountCents
  {
    assert input.amountCents > 0;
    hide Advance, Drive, Validate, Step;
    var s1;
    s0, s1 := OnePaymentMade(cfg, merchants, input, o);
    var tx := NewTransaction(o.freshId, input, Completed);
    var s2 := BothLoaded(s0, s1, tx, o);
    var s3 := RefundCommits(s2, 1, tx, o);
    StepLeads(s0, s2, Run(1, o), s3);
    s := RefundCommits(s3, 2, tx, o);
    StepLeads(s0, s3, Run(2, o), s);
    OnlyRefunded(s.world.db.txns, tx.id, input.merchantId);
  }

  lemma OnlyRefunded(txns: map<TxId, Transaction>, id: TxId, m: MerchantId)
    requires txns.Keys == {id} && txns[id].status == Refunded
    ensures CompletedTotal(txns, m) == 0
  {
    TotalSplit(txns, m, id);
    assert (txns - {id}).Keys == {};
  }
}
