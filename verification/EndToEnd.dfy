// The ledger and the outbox workers, each running its claimed batches, over one database:
// what reaches the publisher is true of the transaction it names.

module EndToEnd {
  import opened Domain
  import opened Database
  import opened Ledger
  import opened LedgerSafety
  import opened Retrying
  import opened OutboxDelivery
  import opened OutboxFleet

  // ---- The outbox rows the ledger writes ----

  /** The row names a status its transaction has reached; a FAILED announcement is final. */
  ghost predicate Truthful(w: World, e: OutboxEvent) {
    && e.txId in w.db.txns && e.status == Announced(e.eventType)
    && Reaches(e.status, w.db.txns[e.txId].status)
  }

  ghost predicate OutboxTrue(s: State) {
    forall i :: 0 <= i < |s.world.db.outbox| ==>
      && Truthful(s.world, s.world.db.outbox[i])
      && (s.world.db.outbox[i].status == Failed ==> !Driven(s.reqs, s.world.db.outbox[i].txId))
  }

  /** A step appends at most one row: the announcement of the status its own transaction now has. */
  ghost predicate Appended(w: World, pc: Pc, w': World, pc': Pc) {
    || w'.db.outbox == w.db.outbox
    || (&& |w'.db.outbox| == |w.db.outbox| + 1 && w'.db.outbox[..|w.db.outbox|] == w.db.outbox
        && var e := w'.db.outbox[|w.db.outbox|];
           && e.txId == Subject(pc) && e.status == Announced(e.eventType)
           && e.txId in w'.db.txns && w'.db.txns[e.txId].status == e.status
           && (e.status == Failed ==> Owned(pc') == None))
  }

  lemma EmitAppends(cfg: Config, w: World, tx: Transaction, cause: Error, o: Oracle)
    requires Ready(cfg, w, EmitFailed(tx, cause))
    ensures var (w', pc') := DoEmitFailed(w, tx, cause, o); Appended(w, EmitFailed(tx, cause), w', pc')
  {
    hide AttemptLog, AllRetryable, Approved;
  }

  lemma BlockAppends(w: World, pc: Pc, o: Oracle)
    requires pc.Persist? || pc.Complete? || pc.RefundCommit?
    requires pc.Persist? ==> pc.tx.status == Pending
    ensures var (w', pc') := if pc.Persist? then DoPersist(w, pc.tx, o)
                             else if pc.Complete? then DoComplete(w, pc.tx, o)
                             else DoRefundCommit(w, pc.tx, o);
            Appended(w, pc, w', pc')
  {
    hide CreateInDb, SettleInDb;
    if pc.Persist? && CreateInDb(w.db, pc.tx, o.failAt).Ok? {
      CreateShape(w.db, pc.tx, o.failAt);
    } else if pc.Complete? && CompleteInDb(w.db, pc.tx, o.failAt).Ok? {
      SettleShape(w.db, pc.tx, pc.tx.status, Completed, pc.tx.amountCents, CompletedEvent, o.failAt);
    } else if pc.RefundCommit? && RefundInDb(w.db, pc.tx, o.failAt).Ok? {
      SettleShape(w.db, pc.tx, Completed, Refunded, -pc.tx.amountCents, RefundedEvent, o.failAt);
    }
  }

  lemma OutboxUntouched(cfg: Config, w: World, call: Call, pc: Pc, o: Oracle)
    requires !pc.Persist? && !pc.Complete? && !pc.RefundCommit? && !pc.EmitFailed?
    ensures Advance(cfg, w, call, pc, o).0.db.outbox == w.db.outbox
  {
  }

  lemma StepAppends(cfg: Config, w: World, call: Call, pc: Pc, o: Oracle)
    requires Ready(cfg, w, pc)
    ensures var (w', pc') := Advance(cfg, w, call, pc, o); Appended(w, pc, w', pc')
  {
    hide LedgerSafety.RowOk, RowOf, Holds, DoPersist, DoComplete, DoRefundCommit, DoEmitFailed, DoMark,
         DoMarkProcessing, DoLog, DoLogProcessing, DoUndo, DoAdmit, DoCharge, DoReport, DoWait, DoCheckKey,
         DoLookup, DoRefundLoad;
    if pc.Persist? || pc.Complete? || pc.RefundCommit? {
      BlockAppends(w, pc, o);
    } else if pc.EmitFailed? {
      EmitAppends(cfg, w, pc.tx, pc.cause, o);
    } else {
      OutboxUntouched(cfg, w, call, pc, o);
    }
  }

  /** No row is deleted, and a status moves along the graph, except that an undo steps back
      from PROCESSING or from a FAILED nobody has announced. */
  ghost predicate Moved(w: World, pc: Pc, w': World, id: TxId) {
    id in w.db.txns ==>
      && id in w'.db.txns
      && var from, to := w.db.txns[id].status, w'.db.txns[id].status;
         || from == to || CanTransition(from, to)
         || (Owned(pc) == Some(id) && ((from == Processing && to == Pending) || (from == Failed && to == Processing)))
  }

  lemma BlockMoves(cfg: Config, w: World, pc: Pc, o: Oracle)
    requires Ready(cfg, w, pc) && (pc.Persist? || pc.Complete? || pc.RefundCommit?)
    ensures Moved(w, pc, if pc.Persist? then DoPersist(w, pc.tx, o).0
                         else if pc.Complete? then DoComplete(w, pc.tx, o).0
                         else DoRefundCommit(w, pc.tx, o).0, pc.tx.id)
  {
    hide CreateInDb, SettleInDb, AttemptLog, AllRetryable, Approved;
    if pc.Persist? && CreateInDb(w.db, pc.tx, o.failAt).Ok? {
      CreateShape(w.db, pc.tx, o.failAt);
    } else if pc.Complete? && CompleteInDb(w.db, pc.tx, o.failAt).Ok? {
      SettleShape(w.db, pc.tx, pc.tx.status, Completed, pc.tx.amountCents, CompletedEvent, o.failAt);
    } else if pc.RefundCommit? && RefundInDb(w.db, pc.tx, o.failAt).Ok? {
      SettleShape(w.db, pc.tx, Completed, Refunded, -pc.tx.amountCents, RefundedEvent, o.failAt);
    }
  }

  lemma StatementMoves(cfg: Config, w: World, pc: Pc, to: Status, next: Pc, o: Oracle)
    requires Ready(cfg, w, pc)
    ensures pc.MarkProcessing? || pc.MarkFailed? ==> Moved(w, pc, DoMark(w, pc.tx, to, next, o).0, pc.tx.id)
    ensures pc.UndoProcessing? || pc.UndoFailed? ==> Moved(w, pc, DoUndo(w, pc.tx, o).0, pc.tx.id)
  {
    hide LedgerSafety.RowOk, AttemptLog, AllRetryable, Approved;
  }

  lemma StatusMoves(cfg: Config, w: World, call: Call, pc: Pc, o: Oracle, id: TxId)
    requires Ready(cfg, w, pc)
    ensures Moved(w, pc, Advance(cfg, w, call, pc, o).0, id)
  {
    hide Ready, DoPersist, DoComplete, DoRefundCommit, DoEmitFailed, DoMark, DoLog, DoLogProcessing, DoUndo, DoAdmit,
        DoCharge, DoReport, DoWait, DoCheckKey, DoLookup, DoRefundLoad;
    if id != Subject(pc) {
      OthersStay(cfg, w, call, pc, o, id);
    } else if pc.Persist? || pc.Complete? || pc.RefundCommit? {
      BlockMoves(cfg, w, pc, o);
    } else if pc.MarkProcessing? {
      StatementMoves(cfg, w, pc, Processing, LogProcessing(pc.tx), o);
    } else if pc.MarkFailed? {
      StatementMoves(cfg, w, pc, Failed, LogFailed(pc.tx, pc.cause), o);
    } else if pc.UndoProcessing? || pc.UndoFailed? {
      StatementMoves(cfg, w, pc, Pending, pc, o);
    } else {
      RowsUntouched(cfg, w, call, pc, o);
    }
  }

  lemma OthersStay(cfg: Config, w: World, call: Call, pc: Pc, o: Oracle, id: TxId)
    requires id != Subject(pc)
    ensures Moved(w, pc, Advance(cfg, w, call, pc, o).0, id)
  {
    hide Advance;
    StepFrames(cfg, w, call, pc, o, id);
    assert id in w.db.txns ==> RowOf(w, id).tx == Some(w.db.txns[id]);
  }

  /** A ledger step seen from the outbox. */
  ghost predicate OutboxEffect(s: State, r: int, s': State) {
    && Effect(s, r, s')
    && Appended(s.world, s.reqs[r].pc, s'.world, s'.reqs[r].pc)
    && forall id :: Moved(s.world, s.reqs[r].pc, s'.world, id)
  }

  lemma RunHasOutboxEffect(s: State, a: Action, s': State, opening: map<MerchantId, Merchant>)
    requires Inv(s, opening) && Step(s, a, s') && a.Run?
    ensures OutboxEffect(s, a.r, s')
  {
    hide Advance, Effect, Appended, Moved, LedgerSafety.RowOk, PcOk, Grounded, IndexOk;
    var Request(call, pc) := s.reqs[a.r];
    RunHasEffect(s, a, s', opening);
    StepAppends(s.cfg, s.world, call, pc, a.o);
    forall id ensures Moved(s.world, pc, s'.world, id) {
      StatusMoves(s.cfg, s.world, call, pc, a.o, id);
    }
  }

  /** An undo steps back only below an announcement of FAILED, and nobody undoes an announced FAILED. */
  lemma AnnouncementStaysTrue(s: State, r: int, s': State, e: OutboxEvent)
    requires r in s.reqs && Moved(s.world, s.reqs[r].pc, s'.world, e.txId)
    requires Truthful(s.world, e) && (e.status == Failed ==> !Driven(s.reqs, e.txId))
    ensures Truthful(s'.world, e)
  {
    assert Owned(s.reqs[r].pc) == Some(e.txId) ==> Driven(s.reqs, e.txId);
  }

  /** Nobody picks up a transaction that is FAILED for good. */
  lemma FailedStaysUndriven(s: State, r: int, s': State, opening: map<MerchantId, Merchant>, id: TxId)
    requires Inv(s, opening) && Effect(s, r, s') && !Driven(s.reqs, id)
    requires id in s.world.db.txns && s.world.db.txns[id].status == Failed
    ensures !Driven(s'.reqs, id)
  {
    hide Inv, LedgerSafety.RowOk, AttemptLog, AllRetryable, Approved;
    assert RowOf(s.world, id).tx.Some?;
    forall q | q in s'.reqs ensures Owned(s'.reqs[q].pc) != Some(id) {
      assert q in s.reqs && Owned(s.reqs[q].pc) != Some(id);
    }
  }

  lemma OldRowStaysTrue(s: State, r: int, s': State, opening: map<MerchantId, Merchant>, e: OutboxEvent)
    requires Inv(s, opening) && OutboxEffect(s, r, s')
    requires Truthful(s.world, e) && (e.status == Failed ==> !Driven(s.reqs, e.txId))
    ensures Truthful(s'.world, e) && (e.status == Failed ==> !Driven(s'.reqs, e.txId))
  {
    hide Inv, Kept, PcOk, Appended, Driven, RowOf;
    assert Moved(s.world, s.reqs[r].pc, s'.world, e.txId);
    AnnouncementStaysTrue(s, r, s', e);
    if e.status == Failed {
      FailedStaysUndriven(s, r, s', opening, e.txId);
    }
  }

  lemma NewRowIsTrue(s: State, r: int, s': State, opening: map<MerchantId, Merchant>)
    requires Inv(s, opening) && OutboxEffect(s, r, s') && |s'.world.db.outbox| == |s.world.db.outbox| + 1
    ensures var e := s'.world.db.outbox[|s.world.db.outbox|];
            Truthful(s'.world, e) && (e.status == Failed ==> !Driven(s'.reqs, e.txId))
  {
    hide Grounded, IndexOk, Moved, AttemptLog, AllRetryable, Approved;
    var e := s'.world.db.outbox[|s.world.db.outbox|];
    if e.status == Failed {
      forall q | q in s'.reqs ensures Owned(s'.reqs[q].pc) != Some(e.txId) {
        assert q in s.reqs && PcOk(s.cfg, s.reqs[q].pc, RowOf(s.world, Subject(s.reqs[q].pc)));
      }
    }
  }

  lemma EffectKeepsOutboxTrue(s: State, r: int, s': State, opening: map<MerchantId, Merchant>)
    requires Inv(s, opening) && OutboxTrue(s) && OutboxEffect(s, r, s')
    ensures OutboxTrue(s')
  {
    hide Inv, Effect, Moved, Truthful, Driven;
    var before, after := s.world.db.outbox, s'.world.db.outbox;
    forall i | 0 <= i < |after|
      ensures Truthful(s'.world, after[i]) && (after[i].status == Failed ==> !Driven(s'.reqs, after[i].txId))
    {
      if i < |before| {
        assert after[..|before|][i] == before[i];
        OldRowStaysTrue(s, r, s', opening, before[i]);
      } else {
        NewRowIsTrue(s, r, s', opening);
      }
    }
  }

  lemma StepKeepsOutboxTrue(s: State, a: Action, s': State, opening: map<MerchantId, Merchant>)
    requires Inv(s, opening) && OutboxTrue(s) && Step(s, a, s')
    ensures OutboxTrue(s')
    ensures |s.world.db.outbox| <= |s'.world.db.outbox| <= |s.world.db.outbox| + 1
  {
    hide Advance, Inv, Effect, Moved, Truthful, Driven;
    if a.Run? {
      RunHasOutboxEffect(s, a, s', opening);
      EffectKeepsOutboxTrue(s, a.r, s', opening);
    } else {
      IdleKeepsOutboxTrue(s, a, s');
    }
  }

  lemma IdleKeepsOutboxTrue(s: State, a: Action, s': State)
    requires OutboxTrue(s) && Step(s, a, s') && !a.Run?
    ensures OutboxTrue(s') && s'.world == s.world
  {
    hide Advance;
    forall id | Driven(s'.reqs, id) ensures Driven(s.reqs, id) {
      var q :| q in s'.reqs && Owned(s'.reqs[q].pc) == Some(id);
      assert q in s.reqs && Owned(s.reqs[q].pc) == Some(id);
    }
  }

  // ---- The whole system ----

  datatype System = System(ledger: State, fleet: Fleet)

  datatype Event = LedgerStep(a: Action, createdAt: int) | WorkerStep(step: FleetStep)

  /** Both sides share the outbox table: a row the ledger commits appears to the workers in the same step. */
  ghost predicate Next(y: System, ev: Event, y': System) {
    match ev
    case LedgerStep(a, createdAt) =>
      && Step(y.ledger, a, y'.ledger)
      && if |y'.ledger.world.db.outbox| > |y.ledger.world.db.outbox|
         then Steps(y.fleet, Outside(Insert(createdAt)), y'.fleet)
         else y'.fleet == y.fleet
    case WorkerStep(step) =>
      y'.ledger == y.ledger && !(step.Outside? && step.m.Insert?) && Steps(y.fleet, step, y'.fleet)
  }

  ghost predicate IsSystemRun(ys: seq<System>, evs: seq<Event>) {
    && |ys| == |evs| + 1 && Init(ys[0].ledger) && Start(ys[0].fleet.d) && ys[0].fleet.lots == map[]
    && forall i :: 0 <= i < |evs| ==> Next(ys[i], evs[i], ys[i + 1])
  }

  ghost predicate SystemOk(y: System, opening: map<MerchantId, Merchant>) {
    && Inv(y.ledger, opening) && OutboxTrue(y.ledger) && FleetOk(y.fleet)
    && |y.fleet.d.rows| == |y.ledger.world.db.outbox|
  }

  lemma NextKeepsOk(y: System, ev: Event, y': System, opening: map<MerchantId, Merchant>)
    requires SystemOk(y, opening) && Next(y, ev, y')
    ensures SystemOk(y', opening)
  {
    hide Advance, Step, Inv, OutboxTrue, FleetOk, Steps;
    match ev
    case LedgerStep(a, createdAt) =>
      StepKeepsInv(y.ledger, a, y'.ledger, opening);
      StepKeepsOutboxTrue(y.ledger, a, y'.ledger, opening);
      if |y'.ledger.world.db.outbox| > |y.ledger.world.db.outbox| {
        FleetStepKeepsOk(y.fleet, Outside(Insert(createdAt)), y'.fleet);
        FleetStepKeepsRowCount(y.fleet, Outside(Insert(createdAt)), y'.fleet);
      }
    case WorkerStep(step) =>
      FleetStepKeepsOk(y.fleet, step, y'.fleet);
      FleetStepKeepsRowCount(y.fleet, step, y'.fleet);
  }

  lemma {:induction false} OkOnSystemRuns(ys: seq<System>, evs: seq<Event>, i: nat)
    requires IsSystemRun(ys, evs) && i < |ys|
    ensures SystemOk(ys[i], ys[0].ledger.world.db.merchants)
  {
    hide Inv, OutboxTrue, FleetOk, Next, Init, Start;
    if i > 0 {
      OkOnSystemRuns(ys, evs, i - 1);
      NextKeepsOk(ys[i - 1], evs[i - 1], ys[i], ys[0].ledger.world.db.merchants);
    } else {
      OkAtStart(ys[0]);
    }
  }

  lemma OkAtStart(y: System)
    requires Init(y.ledger) && Start(y.fleet.d) && y.fleet.lots == map[]
    ensures SystemOk(y, y.ledger.world.db.merchants)
  {
    InvAtStart(y.ledger);
    FleetOkAtStart(y.fleet);
  }

  /** What a worker's batch has handed to the publisher is in the table, and what is marked was acknowledged. */
  lemma FleetDelivers(f: Fleet)
    requires FleetOk(f)
    ensures forall c :: 0 <= c < |f.d.calls| ==> f.d.calls[c] < |f.d.rows|
    ensures forall row :: 0 <= row < |f.d.rows| && f.d.rows[row].published ==> row in f.d.acked
  {
    ReachedOk(f.d);
    forall row | 0 <= row < |f.d.rows| && f.d.rows[row].published ensures row in f.d.acked {
      assert OutboxDelivery.RowOk(f.d, row);
    }
  }

  /** Every event any worker's batch ever handed to the publisher is an outbox row whose transaction has
      reached the status the row names, whatever failed, overlapped or crashed on the way. */
  lemma DeliveryTruthful(ys: seq<System>, evs: seq<Event>, i: nat, c: nat)
    requires IsSystemRun(ys, evs) && i < |ys| && c < |ys[i].fleet.d.calls|
    ensures var w, row := ys[i].ledger.world, ys[i].fleet.d.calls[c];
            && row < |w.db.outbox|
            && var e := w.db.outbox[row];
               e.status == Announced(e.eventType) && e.txId in w.db.txns && Reaches(e.status, w.db.txns[e.txId].status)
  {
    hide FleetOk, Inv;
    OkOnSystemRuns(ys, evs, i);
    FleetDelivers(ys[i].fleet);
    assert Truthful(ys[i].ledger.world, ys[i].ledger.world.db.outbox[ys[i].fleet.d.calls[c]]);
  }

  /** An outbox row marked published was acknowledged by the publisher at least once. */
  lemma PublishedMeansDelivered(ys: seq<System>, evs: seq<Event>, i: nat, row: nat)
    requires IsSystemRun(ys, evs) && i < |ys| && row < |ys[i].fleet.d.rows| && ys[i].fleet.d.rows[row].published
    ensures row < |ys[i].ledger.world.db.outbox| && row in ys[i].fleet.d.acked
  {
    hide FleetOk, Inv;
    OkOnSystemRuns(ys, evs, i);
    FleetDelivers(ys[i].fleet);
  }
}
