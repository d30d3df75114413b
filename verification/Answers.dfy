// What a successful answer is worth: the transaction it carries is the one asked for, it
// is stored, and COMPLETED and REFUNDED answers are never taken back, whatever else
// runs, fails or dies (internal/service/payment.go).

module Answers {
  import opened Domain
  import opened Database
  import opened Retrying
  import opened Ledger
  import opened LedgerSafety

  /** `tx` is a copy of a stored row; a settled copy is not ahead of the row. */
  ghost predicate Stored(db: Db, tx: Transaction) {
    && tx.id in db.txns && db.txns[tx.id].(status := tx.status) == tx
    && (Settled(tx.status) ==> Reaches(tx.status, db.txns[tx.id].status))
  }

  /** `tx` is what this creation request asked for. */
  predicate Serves(tx: Transaction, input: Input) {
    tx.idempotencyKey == input.key && MatchesIdempotentRequest(tx, input)
  }

  /** Without a key nothing is replayed, so success means a payment completed now. */
  ghost predicate AnswerOk(db: Db, call: Call, tx: Transaction) {
    && Stored(db, tx)
    && match call
       case Create(input) => Serves(tx, input) && (input.key == "" ==> tx.status == Completed)
       case Refund(merchantId, txId) => tx.id == txId && tx.merchantId == merchantId && tx.status == Refunded
  }

  /** A request works on, and answers with, the transaction it was sent for. */
  ghost predicate KeyOk(db: Db, req: Request) {
    match req.pc
    case Replied(reply) => reply.err == None ==> reply.tx.Some? && AnswerOk(db, req.call, reply.tx.value)
    case RefundCommit(tx) => req.call == Refund(tx.merchantId, tx.id)
    case RefundLoad => req.call.Refund?
    case CheckKey => req.call.Create?
    case Lookup => req.call.Create?
    case Stopped => true
    case pc => req.call.Create? && Serves(pc.tx, req.call.input)
  }

  // ---- Stored copies stay stored ----

  lemma BlockKeepsStored(cfg: Config, w: World, pc: Pc, o: Oracle, tx: Transaction)
    requires Stored(w.db, tx) && Ready(cfg, w, pc) && (pc.Persist? || pc.Complete? || pc.RefundCommit?)
    ensures Stored((if pc.Persist? then DoPersist(w, pc.tx, o).0
                    else if pc.Complete? then DoComplete(w, pc.tx, o).0
                    else DoRefundCommit(w, pc.tx, o).0).db, tx)
  {
    hide CreateInDb, SettleInDb, AttemptLog, AllRetryable, Approved;
    if pc.Persist? && CreateInDb(w.db, pc.tx, o.failAt).Ok? {
      CreateShape(w.db, pc.tx, o.failAt);
    } else if pc.Complete? && CompleteInDb(w.db, pc.tx, o.failAt).Ok? {
      SettleShape(w.db, pc.tx, pc.tx.status, Completed, pc.tx.amountCents, CompletedEvent, o.failAt);
    } else if pc.RefundCommit? && RefundInDb(w.db, pc.tx, o.failAt).Ok? {
      SettleShape(w.db, pc.tx, Completed, Refunded, -pc.tx.amountCents, RefundedEvent, o.failAt);
    }
  }

  lemma StatementKeepsStored(cfg: Config, w: World, pc: Pc, to: Status, next: Pc, o: Oracle, tx: Transaction)
    requires Stored(w.db, tx) && Ready(cfg, w, pc)
    ensures pc.MarkProcessing? || pc.MarkFailed? ==> Stored(DoMark(w, pc.tx, to, next, o).0.db, tx)
    ensures pc.UndoProcessing? || pc.UndoFailed? ==> Stored(DoUndo(w, pc.tx, o).0.db, tx)
  {
    hide AttemptLog, AllRetryable, Approved;
  }

  lemma StepKeepsStored(cfg: Config, w: World, call: Call, pc: Pc, o: Oracle, tx: Transaction)
    requires Stored(w.db, tx) && Ready(cfg, w, pc)
    ensures Stored(Advance(cfg, w, call, pc, o).0.db, tx)
  {
    hide Ready, DoPersist, DoComplete, DoRefundCommit, DoEmitFailed, DoMark, DoLog, DoLogProcessing, DoUndo, DoAdmit,
        DoCharge, DoReport, DoWait, DoCheckKey, DoLookup, DoRefundLoad;
    if pc.Persist? || pc.Complete? || pc.RefundCommit? {
      BlockKeepsStored(cfg, w, pc, o, tx);
    } else if pc.MarkProcessing? {
      StatementKeepsStored(cfg, w, pc, Processing, LogProcessing(pc.tx), o, tx);
    } else if pc.MarkFailed? {
      StatementKeepsStored(cfg, w, pc, Failed, LogFailed(pc.tx, pc.cause), o, tx);
    } else if pc.UndoProcessing? || pc.UndoFailed? {
      StatementKeepsStored(cfg, w, pc, Failed, pc, o, tx);
    } else {
      RowsUntouched(cfg, w, call, pc, o);
    }
  }

  // ---- A request keeps to its own transaction ----

  ghost predicate IdsOk(db: Db) {
    forall id :: id in db.txns ==> db.txns[id].id == id
  }

  lemma CheckKeepsOwnKey(w: World, call: Call, o: Oracle)
    requires KeyOk(w.db, Request(call, CheckKey)) && IndexOk(w.db) && IdsOk(w.db)
    ensures call.Create? && KeyOk(w.db, Request(call, DoCheckKey(w, call.input, o)))
  {
  }

  lemma LoadKeepsOwnKey(w: World, call: Call, o: Oracle)
    requires KeyOk(w.db, Request(call, RefundLoad)) && IdsOk(w.db)
    ensures call.Refund? && KeyOk(w.db, Request(call, DoRefundLoad(w, call.merchantId, call.txId, o)))
  {
  }

  lemma BlockKeepsOwnKey(cfg: Config, w: World, call: Call, pc: Pc, o: Oracle)
    requires KeyOk(w.db, Request(call, pc)) && Ready(cfg, w, pc) && (pc.Complete? || pc.RefundCommit?)
    ensures var (w', pc') := if pc.Complete? then DoComplete(w, pc.tx, o) else DoRefundCommit(w, pc.tx, o);
            KeyOk(w'.db, Request(call, pc'))
  {
    hide SettleInDb, AttemptLog, AllRetryable, Approved;
    if pc.Complete? && CompleteInDb(w.db, pc.tx, o.failAt).Ok? {
      SettleShape(w.db, pc.tx, pc.tx.status, Completed, pc.tx.amountCents, CompletedEvent, o.failAt);
    } else if pc.RefundCommit? && RefundInDb(w.db, pc.tx, o.failAt).Ok? {
      SettleShape(w.db, pc.tx, Completed, Refunded, -pc.tx.amountCents, RefundedEvent, o.failAt);
    }
  }

  lemma OthersKeepOwnKey(cfg: Config, w: World, call: Call, pc: Pc, o: Oracle)
    requires KeyOk(w.db, Request(call, pc))
    requires !pc.CheckKey? && !pc.RefundLoad? && !pc.Complete? && !pc.RefundCommit? && !pc.Replied?
    ensures var (w', pc') := Advance(cfg, w, call, pc, o); KeyOk(w'.db, Request(call, pc'))
  {
    hide CreateInDb, UpdateStatus, InsertEvent, InsertOutbox, Stored;
  }

  lemma RunKeepsOwnKey(cfg: Config, w: World, call: Call, pc: Pc, o: Oracle)
    requires IndexOk(w.db) && IdsOk(w.db) && Ready(cfg, w, pc) && KeyOk(w.db, Request(call, pc))
    ensures var (w', pc') := Advance(cfg, w, call, pc, o); KeyOk(w'.db, Request(call, pc'))
  {
    hide IndexOk, IdsOk, Ready, KeyOk, DoCheckKey, DoRefundLoad, DoComplete, DoRefundCommit;
    if pc.CheckKey? {
      CheckKeepsOwnKey(w, call, o);
    } else if pc.RefundLoad? {
      LoadKeepsOwnKey(w, call, o);
    } else if pc.Complete? || pc.RefundCommit? {
      BlockKeepsOwnKey(cfg, w, call, pc, o);
    } else if !pc.Replied? {
      OthersKeepOwnKey(cfg, w, call, pc, o);
    }
  }

  // ---- Every step of every interleaving ----

  ghost predicate AnswersOk(s: State) {
    forall r :: r in s.reqs ==> KeyOk(s.world.db, s.reqs[r])
  }

  ghost predicate KeepsRows(db: Db, db': Db) {
    forall tx :: Stored(db, tx) ==> Stored(db', tx)
  }

  /** An answer stays right while others write. */
  lemma BystanderKeepsAnswer(db: Db, db': Db, req: Request)
    requires KeepsRows(db, db') && KeyOk(db, req)
    ensures KeyOk(db', req)
  {
    hide Stored;
    if req.pc.Replied? && req.pc.reply.tx.Some? {
      assert Stored(db, req.pc.reply.tx.value) ==> Stored(db', req.pc.reply.tx.value);
    }
  }

  lemma RunnerFacts(s: State, r: int, opening: map<MerchantId, Merchant>)
    requires Inv(s, opening) && r in s.reqs
    ensures IdsOk(s.world.db) && IndexOk(s.world.db) && Ready(s.cfg, s.world, s.reqs[r].pc)
  {
    hide Grounded, IndexOk, AttemptLog, AllRetryable, Approved, PcOk;
    forall id | id in s.world.db.txns ensures s.world.db.txns[id].id == id {
      assert RowOk(RowOf(s.world, id), id, Attempts(s.cfg.maxAttempts));
    }
  }

  lemma StepKeepsAnswers(s: State, a: Action, s': State, opening: map<MerchantId, Merchant>)
    requires Inv(s, opening) && AnswersOk(s) && Step(s, a, s')
    ensures AnswersOk(s') && KeepsRows(s.world.db, s'.world.db)
  {
    hide Advance, Inv, Ready, IndexOk, IdsOk, KeyOk, Stored;
    if a.Run? {
      var Request(call, pc) := s.reqs[a.r];
      RunnerFacts(s, a.r, opening);
      forall tx | Stored(s.world.db, tx) ensures Stored(s'.world.db, tx) {
        StepKeepsStored(s.cfg, s.world, call, pc, a.o, tx);
      }
      RunKeepsOwnKey(s.cfg, s.world, call, pc, a.o);
      forall r | r in s'.reqs && r != a.r ensures KeyOk(s'.world.db, s'.reqs[r]) {
        BystanderKeepsAnswer(s.world.db, s'.world.db, s.reqs[r]);
      }
    } else {
      IdleKeepsAnswers(s, a, s');
    }
  }

  lemma IdleKeepsAnswers(s: State, a: Action, s': State)
    requires AnswersOk(s) && Step(s, a, s') && !a.Run?
    ensures AnswersOk(s')
  {
    hide Stored, Advance;
  }

  lemma {:induction false} AnswersOnRuns(states: seq<State>, actions: seq<Action>, i: nat)
    requires IsRun(states, actions) && i < |states|
    ensures AnswersOk(states[i])
  {
    if i > 0 {
      hide Inv, AnswersOk, Step, Init;
      InvOnRuns(states, actions, i - 1);
      AnswersOnRuns(states, actions, i - 1);
      StepKeepsAnswers(states[i - 1], actions[i - 1], states[i], states[0].world.db.merchants);
    }
  }

  // ---- Main result ----

  /** A request answered with success carries the stored transaction it asked for; from then on a
      COMPLETED answer stands for a completed or refunded payment, a REFUNDED one for a refunded payment.
      A creation without a key succeeds only by completing, a refund only by refunding. */
  lemma SuccessIsTrue(states: seq<State>, actions: seq<Action>, i: nat, r: int)
    requires IsRun(states, actions) && i < |states|
    requires r in states[i].reqs && states[i].reqs[r].pc.Replied? && states[i].reqs[r].pc.reply.err == None
    ensures states[i].reqs[r].pc.reply.tx.Some?
    ensures var t, txns, call := states[i].reqs[r].pc.reply.tx.value, states[i].world.db.txns, states[i].reqs[r].call;
            && t.id in txns && txns[t.id].(status := t.status) == t
            && (t.status == Completed ==> txns[t.id].status in {Completed, Refunded})
            && (t.status == Refunded ==> txns[t.id].status == Refunded)
            && match call
               case Create(input) =>
                 && t.merchantId == input.merchantId && t.amountCents == input.amountCents &&
                      t.currency == input.currency
                 && t.description == input.description && t.idempotencyKey == input.key
                 && (input.key == "" ==> t.status == Completed)
               case Refund(merchantId, txId) => t.id == txId && t.merchantId == merchantId && t.status == Refunded
  {
    AnswersOnRuns(states, actions, i);
    assert KeyOk(states[i].world.db, states[i].reqs[r]);
  }
}
