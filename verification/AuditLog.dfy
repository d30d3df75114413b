// The audit trail as a second account of the ledger. Replaying it gives back the stored
// status, and the outbox holds exactly one announcement for every announced status
// reached, for every transaction of every run, unless the request that created it died
// between a status write and its audit row, failed to undo that write, or failed to
// announce FAILED after its audit row, or a refund committed after another had. Then the
// trail stays wrong for good.

module AuditLog {
  import opened Domain
  import opened Database
  import opened Retrying
  import opened Ledger
  import opened LedgerSafety

  datatype Trail = Absent | At(status: Status) | Broken

  function Extend(t: Trail, e: AuditEvent): Trail {
    if t == Absent && e.from == None && e.to == Pending then At(Pending)
    else if t.At? && e.from == Some(t.status) && CanTransition(t.status, e.to) then At(e.to)
    else Broken
  }

  function Replay(events: seq<AuditEvent>, id: TxId): Trail {
    if events == [] then Absent
    else
      var before, e := Replay(events[..|events| - 1], id), events[|events| - 1];
      if e.txId == id then Extend(before, e) else before
  }

  function History(events: seq<AuditEvent>, id: TxId): seq<AuditEvent> {
    if events == [] then []
    else
      var before, e := History(events[..|events| - 1], id), events[|events| - 1];
      if e.txId == id then before + [e] else before
  }

  /** CREATED first, every event picks up where the last one ended, every edge allowed. */
  ghost predicate Chain(h: seq<AuditEvent>) {
    && (|h| > 0 ==> h[0].from == None && h[0].to == Pending)
    && forall i :: 0 < i < |h| ==> h[i].from == Some(h[i - 1].to) && CanTransition(h[i - 1].to, h[i].to)
  }

  lemma ChainExtends(h: seq<AuditEvent>, e: AuditEvent)
    ensures Chain(h + [e]) <==>
              Chain(h) && if h == [] then e.from == None && e.to == Pending
                          else e.from == Some(h[|h| - 1].to) && CanTransition(h[|h| - 1].to, e.to)
  {
    var h' := h + [e];
    assert forall i :: 0 <= i < |h| ==> h'[i] == h[i];
    if Chain(h') {
      assert h != [] ==> h'[|h|].from == Some(h'[|h| - 1].to);
    }
  }

  /** Replay reads exactly the chain property and the last status off one transaction's history. */
  lemma {:induction false} ReplayReadsChain(events: seq<AuditEvent>, id: TxId)
    ensures var h := History(events, id);
            && (Replay(events, id) != Broken <==> Chain(h))
            && (Replay(events, id) == Absent <==> h == [])
            && (Chain(h) && h != [] ==> Replay(events, id) == At(h[|h| - 1].to))
  {
    if events != [] {
      var front, e := events[..|events| - 1], events[|events| - 1];
      ReplayReadsChain(front, id);
      if e.txId == id {
        var before := History(front, id);
        assert History(events, id)[..|before|] == before;
        ChainExtends(before, e);
      }
    }
  }

  function RowsFor(outbox: seq<OutboxEvent>, id: TxId, kind: EventType): nat {
    if outbox == [] then 0
    else
      var e := outbox[|outbox| - 1];
      RowsFor(outbox[..|outbox| - 1], id, kind) + if e.txId == id && e.eventType == kind then 1 else 0
  }

  lemma NewEvent(events: seq<AuditEvent>, e: AuditEvent, id: TxId)
    ensures Replay(events + [e], id) == if e.txId == id then Extend(Replay(events, id), e) else Replay(events, id)
  {
    assert (events + [e])[..|events|] == events;
  }

  lemma NewRow(outbox: seq<OutboxEvent>, e: OutboxEvent, id: TxId, kind: EventType)
    ensures RowsFor(outbox + [e], id, kind)
         == RowsFor(outbox, id, kind) + if e.txId == id && e.eventType == kind then 1 else 0
  {
    assert (outbox + [e])[..|outbox|] == outbox;
  }

  // ---- Transitions left half-done ----

  /** The status is written; its audit row, its announcement or its undo is still to come. */
  predicate MidTransition(pc: Pc) {
    pc.LogProcessing? || pc.LogFailed? || pc.EmitFailed? || pc.UndoProcessing? || pc.UndoFailed?
  }

  /** The transaction whose creation a request is driving. A refund has nothing half-done: it is one block. */
  function Driving(pc: Pc): Option<TxId> {
    if pc.RefundCommit? then None else Owned(pc)
  }

  ghost predicate Busy(reqs: map<int, Request>, id: TxId) {
    exists r :: r in reqs && Driving(reqs[r].pc) == Some(id)
  }

  /** The request driving `id` dies in the middle of a transition, fails to announce FAILED, or fails to
      undo; or a refund of `id` commits late. Every read and every database block may fail, and so may a
      transition's status write and its audit row. */
  ghost predicate Unclean(s: State, a: Action, id: TxId) {
    HalfDone(s, a, id) || LateCommit(s, a, id)
  }

  ghost predicate HalfDone(s: State, a: Action, id: TxId) {
    && a.r in s.reqs && Driving(s.reqs[a.r].pc) == Some(id)
    && var pc := s.reqs[a.r].pc;
       || (a.Stop? && MidTransition(pc))
       || (a.Run? && a.o.fault && (pc.EmitFailed? || pc.UndoProcessing? || pc.UndoFailed?))
  }

  function Bit(b: bool): nat {
    if b then 1 else 0
  }

  /** No creation drives `id`: trail and announcements agree with the stored status. */
  ghost predicate IdleTrail(db: Db, id: TxId) {
    && Replay(db.events, id) == (if id in db.txns then At(db.txns[id].status) else Absent)
    && forall kind: EventType ::
         RowsFor(db.outbox, id, kind) == Bit(id in db.txns && Reaches(Announced(kind), db.txns[id].status))
  }

  /** A request drives its transaction: the trail has reached what the request has recorded. */
  ghost predicate DrivenTrail(db: Db, pc: Pc)
    requires Driving(pc).Some?
  {
    && Replay(db.events, pc.tx.id) == At(if pc.EmitFailed? then Failed else pc.tx.status)
    && forall kind: EventType :: RowsFor(db.outbox, pc.tx.id, kind) == Bit(kind == CreatedEvent)
  }

  /** The trail of `id` is right, for whoever drives it or for nobody. */
  ghost predicate TrailOk(s: State, id: TxId) {
    && (forall r :: r in s.reqs && Driving(s.reqs[r].pc) == Some(id) ==> DrivenTrail(s.world.db, s.reqs[r].pc))
    && (!Busy(s.reqs, id) ==> IdleTrail(s.world.db, id))
  }

  ghost predicate SameTrail(db: Db, db': Db, id: TxId) {
    && Replay(db'.events, id) == Replay(db.events, id)
    && forall kind: EventType :: RowsFor(db'.outbox, id, kind) == RowsFor(db.outbox, id, kind)
  }

  /** One audit row and at most one announcement of the same transaction were appended. */
  lemma TrailAfter(db: Db, db': Db, e: AuditEvent, rows: seq<OutboxEvent>, id: TxId)
    requires db'.events == db.events + [e] && db'.outbox == db.outbox + rows && |rows| <= 1
    ensures Replay(db'.events, id) == if e.txId == id then Extend(Replay(db.events, id), e) else Replay(db.events, id)
    ensures forall kind ::
      RowsFor(db'.outbox, id, kind)
        == RowsFor(db.outbox, id, kind) + Bit(rows != [] && rows[0].txId == id && rows[0].eventType == kind)
  {
    NewEvent(db.events, e, id);
    if rows == [] {
      assert db'.outbox == db.outbox;
    } else {
      assert rows == [rows[0]];
      forall kind ensures RowsFor(db'.outbox, id, kind)
         == RowsFor(db.outbox, id, kind) + Bit(rows[0].txId == id && rows[0].eventType == kind)
      {
        NewRow(db.outbox, rows[0], id, kind);
      }
    }
  }

  lemma CleanCreate(db: Db, tx: Transaction, failAt: nat)
    requires CreateInDb(db, tx, failAt).Ok? && tx.status == Pending && IdleTrail(db, tx.id)
    ensures DrivenTrail(CreateInDb(db, tx, failAt).value, MarkProcessing(tx))
  {
    hide CreateInDb, Replay, RowsFor;
    CreateShape(db, tx, failAt);
    TrailAfter(db, CreateInDb(db, tx, failAt).value, AuditEvent(tx.id, None, Pending),
               [OutboxEvent(CreatedEvent, tx.id, Pending)], tx.id);
  }

  lemma CleanComplete(db: Db, tx: Transaction, failAt: nat)
    requires CompleteInDb(db, tx, failAt).Ok? && tx.status == Processing && DrivenTrail(db, Complete(tx))
    ensures IdleTrail(CompleteInDb(db, tx, failAt).value, tx.id)
  {
    hide SettleInDb, Replay, RowsFor;
    SettleShape(db, tx, tx.status, Completed, tx.amountCents, CompletedEvent, failAt);
    TrailAfter(db, CompleteInDb(db, tx, failAt).value, AuditEvent(tx.id, Some(Processing), Completed),
               [OutboxEvent(CompletedEvent, tx.id, Completed)], tx.id);
  }

  lemma CleanRefund(db: Db, tx: Transaction, failAt: nat)
    requires RefundInDb(db, tx, failAt).Ok? && IdleTrail(db, tx.id) && tx.id in db.txns &&
        db.txns[tx.id].status == Completed
    ensures IdleTrail(RefundInDb(db, tx, failAt).value, tx.id)
  {
    hide SettleInDb, Replay, RowsFor;
    SettleShape(db, tx, Completed, Refunded, -tx.amountCents, RefundedEvent, failAt);
    TrailAfter(db, RefundInDb(db, tx, failAt).value, AuditEvent(tx.id, Some(Completed), Refunded),
               [OutboxEvent(RefundedEvent, tx.id, Refunded)], tx.id);
  }

  /** The trail of the row a step drove, under its next owner or under none. */
  ghost predicate TrailKept(db': Db, id: TxId, pc': Pc) {
    if Driving(pc') == Some(id) then DrivenTrail(db', pc') else IdleTrail(db', id)
  }

  lemma CleanLog(w: World, tx: Transaction, to: Status, next: Pc, undo: Pc, o: Oracle)
    requires tx.id in w.db.txns && (undo.UndoProcessing? || undo.UndoFailed?) && DrivenTrail(w.db, undo)
    requires undo.tx == tx && (next == Admit(tx.(status := to)) || (next.EmitFailed? && next.tx == tx && to == Failed))
    requires CanTransition(tx.status, to)
    ensures var (w', pc') := DoLog(w, tx, to, next, undo, o); TrailKept(w'.db, tx.id, pc')
  {
    var e := AuditEvent(tx.id, Some(tx.status), to);
    TrailAfter(w.db, w.db.(events := w.db.events + [e]), e, [], tx.id);
  }

  lemma CleanEmit(w: World, tx: Transaction, cause: Error, o: Oracle)
    requires !o.fault && DrivenTrail(w.db, EmitFailed(tx, cause)) && tx.id in w.db.txns &&
        w.db.txns[tx.id].status == Failed
    ensures var (w', pc') := DoEmitFailed(w, tx, cause, o); TrailKept(w'.db, tx.id, pc')
  {
    forall kind { NewRow(w.db.outbox, OutboxEvent(FailedEvent, tx.id, Failed), tx.id, kind); }
  }

  lemma CleanUndo(w: World, tx: Transaction, pc: Pc, o: Oracle)
    requires !o.fault && (pc == UndoProcessing(tx) || pc == UndoFailed(tx)) && DrivenTrail(w.db, pc)
    requires tx.id in w.db.txns && tx.status in {Pending, Processing}
    ensures var (w', pc') := DoUndo(w, tx, o); TrailKept(w'.db, tx.id, pc')
  {
  }

  lemma BlockFramesTrail(w: World, pc: Pc, o: Oracle, id: TxId)
    requires (pc.Persist? || pc.Complete? || pc.RefundCommit?) && id != pc.tx.id
    ensures SameTrail(w.db, (if pc.Persist? then DoPersist(w, pc.tx, o).0
                             else if pc.Complete? then DoComplete(w, pc.tx, o).0
                             else DoRefundCommit(w, pc.tx, o).0).db, id)
  {
    hide CreateInDb, SettleInDb, Replay, RowsFor;
    if pc.Persist? && CreateInDb(w.db, pc.tx, o.failAt).Ok? {
      CreateShape(w.db, pc.tx, o.failAt);
      TrailAfter(w.db, CreateInDb(w.db, pc.tx, o.failAt).value, AuditEvent(pc.tx.id, None, Pending),
                 [OutboxEvent(CreatedEvent, pc.tx.id, pc.tx.status)], id);
    } else if pc.Complete? && CompleteInDb(w.db, pc.tx, o.failAt).Ok? {
      SettleShape(w.db, pc.tx, pc.tx.status, Completed, pc.tx.amountCents, CompletedEvent, o.failAt);
      TrailAfter(w.db, CompleteInDb(w.db, pc.tx, o.failAt).value, AuditEvent(pc.tx.id, Some(pc.tx.status), Completed),
                 [OutboxEvent(CompletedEvent, pc.tx.id, Completed)], id);
    } else if pc.RefundCommit? && RefundInDb(w.db, pc.tx, o.failAt).Ok? {
      SettleShape(w.db, pc.tx, Completed, Refunded, -pc.tx.amountCents, RefundedEvent, o.failAt);
      TrailAfter(w.db, RefundInDb(w.db, pc.tx, o.failAt).value, AuditEvent(pc.tx.id, Some(Completed), Refunded),
                 [OutboxEvent(RefundedEvent, pc.tx.id, Refunded)], id);
    }
  }

  lemma StatementFramesTrail(w: World, tx: Transaction, to: Status, next: Pc, undo: Pc, cause: Error, o: Oracle,
                             id: TxId)
    requires id != tx.id
    ensures SameTrail(w.db, DoLog(w, tx, to, next, undo, o).0.db, id)
    ensures SameTrail(w.db, DoEmitFailed(w, tx, cause, o).0.db, id)
  {
    hide Replay, RowsFor;
    NewEvent(w.db.events, AuditEvent(tx.id, Some(tx.status), to), id);
    forall kind { NewRow(w.db.outbox, OutboxEvent(FailedEvent, tx.id, Failed), id, kind); }
  }

  lemma StepFramesTrail(cfg: Config, w: World, call: Call, pc: Pc, o: Oracle, id: TxId)
    requires id != Subject(pc)
    ensures SameTrail(w.db, Advance(cfg, w, call, pc, o).0.db, id)
  {
    hide SameTrail, DoPersist, DoComplete, DoRefundCommit, DoLog, DoEmitFailed;
    if pc.Persist? || pc.Complete? || pc.RefundCommit? {
      BlockFramesTrail(w, pc, o, id);
    } else if pc.LogProcessing? {
      StatementFramesTrail(w, pc.tx, Processing, Admit(pc.tx.(status := Processing)), UndoProcessing(pc.tx),
                           WriteFailed, o, id);
    } else if pc.LogFailed? {
      StatementFramesTrail(w, pc.tx, Failed, EmitFailed(pc.tx, pc.cause), UndoFailed(pc.tx), WriteFailed, o, id);
    } else if pc.EmitFailed? {
      StatementFramesTrail(w, pc.tx, Failed, pc, pc, pc.cause, o, id);
    } else {
      OthersWriteNothing(cfg, w, call, pc, o);
      SameRowsSameTrail(w.db, Advance(cfg, w, call, pc, o).0.db, id);
    }
  }

  lemma SameRowsSameTrail(db: Db, db': Db, id: TxId)
    requires db'.events == db.events && db'.outbox == db.outbox
    ensures SameTrail(db, db', id)
  {
  }

  lemma OthersWriteNothing(cfg: Config, w: World, call: Call, pc: Pc, o: Oracle)
    requires !pc.Persist? && !pc.LogProcessing? && !pc.LogFailed? && !pc.EmitFailed? && !pc.Complete? &&
        !pc.RefundCommit?
    ensures var w' := Advance(cfg, w, call, pc, o).0; w'.db.events == w.db.events && w'.db.outbox == w.db.outbox
  {
  }

  lemma CleanCompletion(cfg: Config, w: World, tx: Transaction, o: Oracle)
    requires Ready(cfg, w, Complete(tx)) && DrivenTrail(w.db, Complete(tx))
    ensures var (w', pc') := DoComplete(w, tx, o); TrailKept(w'.db, tx.id, pc')
  {
    hide Replay, RowsFor, CompleteInDb, AttemptLog, AllRetryable, Approved;
    if CompleteInDb(w.db, tx, o.failAt).Ok? {
      CleanComplete(w.db, tx, o.failAt);
    }
  }

  /** A refund that is not late extends a right trail; one that fails leaves it. */
  lemma TimelyRefund(w: World, tx: Transaction, o: Oracle)
    requires IdleTrail(w.db, tx.id) && tx.id in w.db.txns
    requires RefundInDb(w.db, tx, o.failAt).Ok? ==> w.db.txns[tx.id].status == Completed
    ensures IdleTrail(DoRefundCommit(w, tx, o).0.db, tx.id)
  {
    hide IdleTrail, RefundInDb;
    if RefundInDb(w.db, tx, o.failAt).Ok? {
      CleanRefund(w.db, tx, o.failAt);
    }
  }

  /** The steps of a driving request that write no audit row and no announcement. */
  predicate Quiet(pc: Pc) {
    Driving(pc).Some? && !MidTransition(pc) && !pc.Complete?
  }

  lemma QuietStep(cfg: Config, w: World, call: Call, pc: Pc, o: Oracle)
    requires Quiet(pc)
    ensures var (w', pc') := Advance(cfg, w, call, pc, o);
            if Owned(pc') == None then w'.db == w.db
            else pc'.tx == pc.tx && !pc'.EmitFailed? && !pc'.RefundCommit?
                 && w'.db.events == w.db.events && w'.db.outbox == w.db.outbox
  {
  }

  lemma DrivenStatus(cfg: Config, w: World, pc: Pc)
    requires Ready(cfg, w, pc) && Driving(pc).Some?
    ensures pc.tx.id in w.db.txns
    ensures !MidTransition(pc) ==> w.db.txns[pc.tx.id].status == pc.tx.status
    ensures pc.tx.status
         == if pc.MarkProcessing? || pc.LogProcessing? || pc.UndoProcessing? then Pending else Processing
    ensures pc.EmitFailed? ==> w.db.txns[pc.tx.id].status == Failed
  {
    hide LedgerSafety.RowOk, AttemptLog, AllRetryable, Approved;
  }

  /** A request that drives its transaction leaves the trail right, for itself or for nobody. */
  lemma CleanDrive(cfg: Config, w: World, call: Call, pc: Pc, o: Oracle)
    requires Ready(cfg, w, pc) && Driving(pc).Some? && DrivenTrail(w.db, pc)
    requires pc.EmitFailed? || pc.UndoProcessing? || pc.UndoFailed? ==> !o.fault
    ensures var (w', pc') := Advance(cfg, w, call, pc, o); TrailKept(w'.db, pc.tx.id, pc')
  {
    hide Ready, Replay, RowsFor, DoLog, DoUndo, DoComplete, DoRefundCommit, DoEmitFailed;
    DrivenStatus(cfg, w, pc);
    if pc.Complete? {
      CleanCompletion(cfg, w, pc.tx, o);
    } else if pc.LogProcessing? {
      CleanLog(w, pc.tx, Processing, Admit(pc.tx.(status := Processing)), UndoProcessing(pc.tx), o);
    } else if pc.LogFailed? {
      CleanLog(w, pc.tx, Failed, EmitFailed(pc.tx, pc.cause), UndoFailed(pc.tx), o);
    } else if pc.EmitFailed? {
      CleanEmit(w, pc.tx, pc.cause, o);
    } else if pc.UndoProcessing? || pc.UndoFailed? {
      CleanUndo(w, pc.tx, pc, o);
    } else {
      CleanQuiet(cfg, w, call, pc, o);
    }
  }

  lemma CleanQuiet(cfg: Config, w: World, call: Call, pc: Pc, o: Oracle)
    requires Ready(cfg, w, pc) && Quiet(pc) && DrivenTrail(w.db, pc)
    ensures var (w', pc') := Advance(cfg, w, call, pc, o); TrailKept(w'.db, pc.tx.id, pc')
  {
    hide Ready, Advance, Replay, RowsFor;
    DrivenStatus(cfg, w, pc);
    QuietStep(cfg, w, call, pc, o);
  }

  lemma CleanPersist(cfg: Config, w: World, call: Call, tx: Transaction, o: Oracle)
    requires Ready(cfg, w, Persist(tx)) && IdleTrail(w.db, tx.id)
    ensures var (w', pc') := Advance(cfg, w, call, Persist(tx), o); TrailKept(w'.db, tx.id, pc')
  {
    hide Replay, RowsFor, CreateInDb;
    assert Advance(cfg, w, call, Persist(tx), o) == DoPersist(w, tx, o);
    if CreateInDb(w.db, tx, o.failAt).Ok? {
      CleanCreate(w.db, tx, o.failAt);
    }
  }

  // ---- One transaction across one step ----

  lemma NotDriven(s: State, id: TxId, opening: map<MerchantId, Merchant>)
    requires Inv(s, opening) && id !in s.world.db.txns
    ensures forall q :: q in s.reqs ==> Owned(s.reqs[q].pc) != Some(id)
  {
    forall q | q in s.reqs ensures Owned(s.reqs[q].pc) != Some(id) {
      assert PcOk(s.cfg, s.reqs[q].pc, RowOf(s.world, Subject(s.reqs[q].pc)));
    }
  }

  lemma OnlyOneDrives(s: State, opening: map<MerchantId, Merchant>, r: int, id: TxId)
    requires Inv(s, opening) && r in s.reqs && Driving(s.reqs[r].pc) == Some(id)
    ensures forall q :: q in s.reqs && q != r ==> Owned(s.reqs[q].pc) != Some(id)
    ensures Ready(s.cfg, s.world, s.reqs[r].pc)
  {
    hide LedgerSafety.RowOk, PcOk, Grounded, IndexOk;
    forall q | q in s.reqs && q != r ensures Owned(s.reqs[q].pc) != Some(id) {
      assert MayCoexist(s.reqs[r].pc, s.reqs[q].pc);
    }
  }

  /** A row a refund is working on is nobody else's but other refunds', and is COMPLETED or REFUNDED. */
  lemma OnlyRefundsDrive(s: State, opening: map<MerchantId, Merchant>, r: int)
    requires Inv(s, opening) && r in s.reqs && s.reqs[r].pc.RefundCommit?
    ensures !Busy(s.reqs, s.reqs[r].pc.tx.id) && Ready(s.cfg, s.world, s.reqs[r].pc)
    ensures s.reqs[r].pc.tx.id in s.world.db.txns
            && s.world.db.txns[s.reqs[r].pc.tx.id].status in {Completed, Refunded}
  {
    hide LedgerSafety.RowOk, Grounded, IndexOk, AttemptLog, AllRetryable, Approved;
    forall q | q in s.reqs ensures Driving(s.reqs[q].pc) != Some(s.reqs[r].pc.tx.id) {
      assert q != r ==> MayCoexist(s.reqs[r].pc, s.reqs[q].pc);
    }
    assert PcOk(s.cfg, s.reqs[r].pc, RowOf(s.world, s.reqs[r].pc.tx.id));
  }

  /** The row a step's request was driving: its trail is right afterwards, under that request or under none. */
  lemma DriverKeepsTrail(s: State, a: Action, s': State, opening: map<MerchantId, Merchant>, id: TxId)
    requires Inv(s, opening) && Step(s, a, s') && a.Run? && TrailOk(s, id) && !HalfDone(s, a, id)
    requires Driving(s.reqs[a.r].pc) == Some(id)
    ensures TrailKept(s'.world.db, id, s'.reqs[a.r].pc)
  {
    hide Advance, Inv, TrailKept, DrivenTrail, IdleTrail;
    OnlyOneDrives(s, opening, a.r, id);
    CleanDrive(s.cfg, s.world, s.reqs[a.r].call, s.reqs[a.r].pc, a.o);
  }

  /** A row a request is about to create: nobody else can have it. */
  lemma CreatorKeepsTrail(s: State, a: Action, s': State, opening: map<MerchantId, Merchant>, id: TxId)
    requires Inv(s, opening) && Step(s, a, s') && a.Run? && TrailOk(s, id)
    requires s.reqs[a.r].pc.Persist? && s.reqs[a.r].pc.tx.id == id && id !in s.world.db.txns
    ensures TrailKept(s'.world.db, id, s'.reqs[a.r].pc)
    ensures forall q :: q in s.reqs ==> Owned(s.reqs[q].pc) != Some(id)
  {
    hide Advance, Grounded, IndexOk, TrailKept, DrivenTrail, IdleTrail, PcOk, LedgerSafety.RowOk;
    NotDriven(s, id, opening);
    assert !Busy(s.reqs, id);
    CleanPersist(s.cfg, s.world, s.reqs[a.r].call, s.reqs[a.r].pc.tx, a.o);
  }

  lemma KeptMeansOk(s: State, r: int, s': State, id: TxId)
    requires r in s.reqs && s'.reqs.Keys == s.reqs.Keys && TrailKept(s'.world.db, id, s'.reqs[r].pc)
    requires forall q :: q in s.reqs && q != r ==> s'.reqs[q] == s.reqs[q] && Owned(s.reqs[q].pc) != Some(id)
    ensures TrailOk(s', id)
  {
    hide DrivenTrail, IdleTrail;
    if Driving(s'.reqs[r].pc) == Some(id) {
      assert Busy(s'.reqs, id);
    }
  }

  /** A step that leaves the row, its events and its announcements alone keeps the trail. */
  lemma UntouchedKeepsTrail(s: State, r: int, s': State, id: TxId)
    requires TrailOk(s, id) && r in s.reqs && s'.reqs.Keys == s.reqs.Keys
    requires forall q :: q in s.reqs && q != r ==> s'.reqs[q] == s.reqs[q]
    requires SameTrail(s.world.db, s'.world.db, id) && RowOf(s'.world, id).tx == RowOf(s.world, id).tx
    requires Driving(s.reqs[r].pc) != Some(id) && Driving(s'.reqs[r].pc) != Some(id)
    ensures TrailOk(s', id)
  {
    hide Replay, RowsFor;
    if Busy(s.reqs, id) {
      var q :| q in s.reqs && Driving(s.reqs[q].pc) == Some(id);
      assert q in s'.reqs && s'.reqs[q] == s.reqs[q];
      assert Busy(s'.reqs, id);
    }
  }

  /** What a step does to a row that its request neither drives nor creates. */
  lemma BystanderRow(s: State, a: Action, s': State, opening: map<MerchantId, Merchant>, id: TxId)
    requires Inv(s, opening) && Step(s, a, s') && a.Run? && Owned(s.reqs[a.r].pc) != Some(id)
    requires s.reqs[a.r].pc.Persist? && s.reqs[a.r].pc.tx.id == id ==> id in s.world.db.txns
    ensures SameTrail(s.world.db, s'.world.db, id) && RowOf(s'.world, id).tx == RowOf(s.world, id).tx
    ensures Driving(s'.reqs[a.r].pc) != Some(id)
  {
    hide Advance, SameTrail, LedgerSafety.RowOk, Grounded, IndexOk, PcOk, Kept;
    var Request(call, pc) := s.reqs[a.r];
    RunHasEffect(s, a, s', opening);
    if id != Subject(pc) {
      StepFramesTrail(s.cfg, s.world, call, pc, a.o, id);
    } else {
      UnchangedWorld(s, a.r, s', id);
    }
    NoNewDriver(s, a.r, s', id);
  }

  lemma UnchangedWorld(s: State, r: int, s': State, id: TxId)
    requires Effect(s, r, s') && Owned(s.reqs[r].pc) != Some(id) && id == Subject(s.reqs[r].pc)
    requires s.reqs[r].pc.Persist? && s.reqs[r].pc.tx.id == id ==> id in s.world.db.txns
    ensures SameTrail(s.world.db, s'.world.db, id) && s'.world == s.world
  {
    hide Kept, PcOk, Replay, RowsFor;
    assert id in s.world.db.txns ==> RowOf(s.world, id).tx.Some?;
  }

  lemma NoNewDriver(s: State, r: int, s': State, id: TxId)
    requires Effect(s, r, s') && Owned(s.reqs[r].pc) != Some(id)
    requires s.reqs[r].pc.Persist? && s.reqs[r].pc.tx.id == id ==> id in s.world.db.txns
    ensures Driving(s'.reqs[r].pc) != Some(id)
  {
    hide PcOk, LedgerSafety.RowOk;
    assert id in s.world.db.txns ==> RowOf(s.world, id).tx.Some?;
  }

  /** A refund of `id`: on time it extends the trail, and if it fails it leaves it. */
  lemma RefundKeepsTrail(s: State, a: Action, s': State, opening: map<MerchantId, Merchant>, id: TxId)
    requires Inv(s, opening) && Step(s, a, s') && a.Run? && TrailOk(s, id) && !LateCommit(s, a, id)
    requires s.reqs[a.r].pc.RefundCommit? && s.reqs[a.r].pc.tx.id == id
    ensures TrailOk(s', id)
  {
    hide Advance, Inv, Ready, DrivenTrail, IdleTrail, RefundInDb, DoRefundCommit;
    OnlyRefundsDrive(s, opening, a.r);
    TimelyRefund(s.world, s.reqs[a.r].pc.tx, a.o);
    RefundStep(s, a, s', opening, id);
    assert !Busy(s.reqs, id) && !Busy(s'.reqs, id);
  }

  /** A refund's commit takes that request off the row, and puts nobody on it. */
  lemma RefundStep(s: State, a: Action, s': State, opening: map<MerchantId, Merchant>, id: TxId)
    requires Inv(s, opening) && Step(s, a, s') && a.Run?
    requires s.reqs[a.r].pc.RefundCommit? && s.reqs[a.r].pc.tx.id == id
    ensures s'.world == DoRefundCommit(s.world, s.reqs[a.r].pc.tx, a.o).0
    ensures !Busy(s'.reqs, id)
  {
    hide Inv, Ready, DoRefundCommit;
    OnlyRefundsDrive(s, opening, a.r);
    RefundAnswers(s.cfg, s.world, s.reqs[a.r].call, s.reqs[a.r].pc.tx, a.o);
    forall q | q in s'.reqs ensures Driving(s'.reqs[q].pc) != Some(id) {
      assert q != a.r ==> s'.reqs[q] == s.reqs[q] && Driving(s.reqs[q].pc) != Some(id);
    }
  }

  lemma CleanRunKeepsTrail(s: State, a: Action, s': State, opening: map<MerchantId, Merchant>, id: TxId)
    requires Inv(s, opening) && Step(s, a, s') && a.Run? && TrailOk(s, id) && !Unclean(s, a, id)
    ensures TrailOk(s', id)
  {
    hide Advance, Inv, TrailOk, TrailKept, SameTrail, RowOf, HalfDone, LateCommit;
    var pc := s.reqs[a.r].pc;
    if Driving(pc) == Some(id) {
      OnlyOneDrives(s, opening, a.r, id);
      DriverKeepsTrail(s, a, s', opening, id);
      KeptMeansOk(s, a.r, s', id);
    } else if pc.RefundCommit? && pc.tx.id == id {
      RefundKeepsTrail(s, a, s', opening, id);
    } else if pc.Persist? && pc.tx.id == id && id !in s.world.db.txns {
      CreatorKeepsTrail(s, a, s', opening, id);
      KeptMeansOk(s, a.r, s', id);
    } else {
      BystanderRow(s, a, s', opening, id);
      UntouchedKeepsTrail(s, a.r, s', id);
    }
  }

  /** Arriving changes nothing; a request that dies between two transitions leaves a trail that is right. */
  lemma CleanStopKeepsTrail(s: State, a: Action, s': State, opening: map<MerchantId, Merchant>, id: TxId)
    requires Inv(s, opening) && Step(s, a, s') && !a.Run? && TrailOk(s, id) && !Unclean(s, a, id)
    ensures TrailOk(s', id)
  {
    hide Advance, Inv, DrivenTrail, IdleTrail, LateCommit;
    if a.Stop? && Driving(s.reqs[a.r].pc) == Some(id) {
      OnlyOneDrives(s, opening, a.r, id);
      AbandonedTrail(s, a.r, opening);
    } else if Busy(s.reqs, id) {
      var q :| q in s.reqs && Driving(s.reqs[q].pc) == Some(id);
      assert q != a.r && s'.reqs[q] == s.reqs[q];
      assert Busy(s'.reqs, id);
    }
  }

  lemma AbandonedTrail(s: State, r: int, opening: map<MerchantId, Merchant>)
    requires Inv(s, opening) && r in s.reqs && Driving(s.reqs[r].pc).Some? && !MidTransition(s.reqs[r].pc)
    requires DrivenTrail(s.world.db, s.reqs[r].pc)
    ensures IdleTrail(s.world.db, s.reqs[r].pc.tx.id)
  {
    hide PcOk, LedgerSafety.RowOk, Grounded, IndexOk, Replay, RowsFor;
    assert Ready(s.cfg, s.world, s.reqs[r].pc);
    DrivenStatus(s.cfg, s.world, s.reqs[r].pc);
  }

  // ---- A half-done transition damages the trail for good ----

  /** The trail of `id` is wrong and no refund will ever take the row up, or its driver is still about to undo
      a FAILED that was recorded but not announced; or it was refunded twice. */
  ghost predicate Damaged(s: State, id: TxId) {
    && id in s.world.db.txns
    && (LeftHalfDone(s, id) || (s.world.db.txns[id].status == Refunded && Replay(s.world.db.events, id) == Broken))
  }

  ghost predicate LeftHalfDone(s: State, id: TxId) {
    && id in s.world.db.txns && s.world.db.txns[id].status in {Processing, Failed}
    && (!Busy(s.reqs, id) ==> !IdleTrail(s.world.db, id))
    && (forall r :: r in s.reqs && Driving(s.reqs[r].pc) == Some(id) ==> Unannounced(s.world.db, s.reqs[r].pc))
  }

  ghost predicate Unannounced(db: Db, pc: Pc) {
    && pc.UndoFailed? && Replay(db.events, pc.tx.id) == At(Failed)
    && RowsFor(db.outbox, pc.tx.id, FailedEvent) == 0
  }

  /** The trail of a request in the middle of a transition is wrong for everybody else. */
  lemma HalfDoneTrail(cfg: Config, w: World, pc: Pc)
    requires Ready(cfg, w, pc) && MidTransition(pc)
    requires DrivenTrail(w.db, pc) || Unannounced(w.db, pc)
    ensures !IdleTrail(w.db, pc.tx.id) && pc.tx.id in w.db.txns && w.db.txns[pc.tx.id].status in {Processing, Failed}
  {
    hide Replay, RowsFor, LedgerSafety.RowOk, AttemptLog, AllRetryable, Approved;
    if pc.EmitFailed? {
      assert RowsFor(w.db.outbox, pc.tx.id, FailedEvent) == 0;
    }
    if Unannounced(w.db, pc) {
      assert RowsFor(w.db.outbox, pc.tx.id, FailedEvent) != Bit(Reaches(Announced(FailedEvent), Failed));
    }
  }

  /** Nobody drives the row any more: its last driver died or answered without putting it right. */
  lemma LeftDamaged(s: State, r: int, s': State, opening: map<MerchantId, Merchant>, id: TxId)
    requires Inv(s, opening) && r in s.reqs && Driving(s.reqs[r].pc) == Some(id) && s'.reqs.Keys == s.reqs.Keys
    requires forall q :: q in s.reqs && q != r ==> s'.reqs[q] == s.reqs[q]
    requires Owned(s'.reqs[r].pc) == None && !IdleTrail(s'.world.db, id)
    requires id in s'.world.db.txns && s'.world.db.txns[id].status in {Processing, Failed}
    ensures Damaged(s', id)
  {
    hide Inv, IdleTrail;
    OnlyOneDrives(s, opening, r, id);
  }

  lemma HalfDoneDamages(s: State, a: Action, s': State, opening: map<MerchantId, Merchant>, id: TxId)
    requires Inv(s, opening) && Step(s, a, s') && TrailOk(s, id) && HalfDone(s, a, id)
    ensures Damaged(s', id)
  {
    hide Inv, Ready, IdleTrail, DrivenTrail, Advance, Unannounced;
    var pc := s.reqs[a.r].pc;
    OnlyOneDrives(s, opening, a.r, id);
    HalfDoneTrail(s.cfg, s.world, pc);
    if a.Run? {
      FailedWriteChangesNothing(s.cfg, s.world, s.reqs[a.r].call, pc, a.o);
      if pc.EmitFailed? {
        StillUnannounced(s.world.db, pc);
        assert Busy(s'.reqs, id) by { assert Driving(s'.reqs[a.r].pc) == Some(id); }
        assert LeftHalfDone(s', id);
      } else {
        LeftDamaged(s, a.r, s', opening, id);
      }
    } else {
      LeftDamaged(s, a.r, s', opening, id);
    }
  }

  lemma FailedWriteChangesNothing(cfg: Config, w: World, call: Call, pc: Pc, o: Oracle)
    requires o.fault && (pc.EmitFailed? || pc.UndoProcessing? || pc.UndoFailed?)
    ensures var (w', pc') := Advance(cfg, w, call, pc, o);
            w' == w && if pc.EmitFailed? then pc' == UndoFailed(pc.tx) else Owned(pc') == None
  {
  }

  lemma StillUnannounced(db: Db, pc: Pc)
    requires pc.EmitFailed? && DrivenTrail(db, pc)
    ensures Unannounced(db, UndoFailed(pc.tx))
  {
    hide Replay, RowsFor;
  }

  /** A late commit records COMPLETED to REFUNDED once more, and no event mends a broken trail. */
  lemma RefundOfRefunded(w: World, tx: Transaction, o: Oracle)
    requires tx.id in w.db.txns && w.db.txns[tx.id].status == Refunded
    ensures var db := DoRefundCommit(w, tx, o).0.db;
            && tx.id in db.txns && db.txns[tx.id].status == Refunded
            && (Replay(w.db.events, tx.id) == Broken ==> Replay(db.events, tx.id) == Broken)
            && (RefundInDb(w.db, tx, o.failAt).Ok? && Replay(w.db.events, tx.id) == At(Refunded) ==>
                  Replay(db.events, tx.id) == Broken)
  {
    hide SettleInDb, Replay;
    if RefundInDb(w.db, tx, o.failAt).Ok? {
      SettleShape(w.db, tx, Completed, Refunded, -tx.amountCents, RefundedEvent, o.failAt);
      NewEvent(w.db.events, AuditEvent(tx.id, Some(Completed), Refunded), tx.id);
    }
  }

  lemma LateDamages(s: State, a: Action, s': State, opening: map<MerchantId, Merchant>, id: TxId)
    requires Inv(s, opening) && Step(s, a, s') && TrailOk(s, id) && LateCommit(s, a, id)
    ensures Damaged(s', id)
  {
    hide Inv, Ready, Advance, RefundInDb, DoRefundCommit, Replay, RowsFor;
    OnlyRefundsDrive(s, opening, a.r);
    assert IdleTrail(s.world.db, id);
    RefundStep(s, a, s', opening, id);
    RefundOfRefunded(s.world, s.reqs[a.r].pc.tx, a.o);
  }

  /** The undo of an unannounced FAILED: the status goes back, the audit row does not. */
  lemma UndoLeavesDamage(cfg: Config, w: World, call: Call, pc: Pc, o: Oracle)
    requires Ready(cfg, w, pc) && Unannounced(w.db, pc)
    ensures var (w', pc') := Advance(cfg, w, call, pc, o);
            && Owned(pc') == None && !IdleTrail(w'.db, pc.tx.id)
            && pc.tx.id in w'.db.txns && w'.db.txns[pc.tx.id].status in {Processing, Failed}
  {
    hide Replay, RowsFor, LedgerSafety.RowOk, AttemptLog, AllRetryable, Approved;
    HalfDoneTrail(cfg, w, pc);
    assert Advance(cfg, w, call, pc, o) == DoUndo(w, pc.tx, o);
  }

  /** Other requests cannot mend it. */
  lemma BystanderKeepsDamage(s: State, r: int, s': State, id: TxId)
    requires Damaged(s, id) && r in s.reqs && s'.reqs.Keys == s.reqs.Keys
    requires forall q :: q in s.reqs && q != r ==> s'.reqs[q] == s.reqs[q]
    requires SameTrail(s.world.db, s'.world.db, id) && RowOf(s'.world, id).tx == RowOf(s.world, id).tx
    requires Driving(s.reqs[r].pc) != Some(id) && Driving(s'.reqs[r].pc) != Some(id)
    ensures Damaged(s', id)
  {
    hide Replay, RowsFor;
    assert RowOf(s.world, id).tx.Some?;
    if Busy(s.reqs, id) {
      var q :| q in s.reqs && Driving(s.reqs[q].pc) == Some(id);
      assert q in s'.reqs && s'.reqs[q] == s.reqs[q];
      assert Busy(s'.reqs, id);
    }
  }

  /** A row some creation still drives, or one it left: neither COMPLETED nor REFUNDED. */
  lemma DriverOfDamaged(s: State, opening: map<MerchantId, Merchant>, r: int, id: TxId)
    requires Inv(s, opening) && Damaged(s, id) && r in s.reqs
    ensures Driving(s.reqs[r].pc) == Some(id) ==> LeftHalfDone(s, id)
    ensures s.reqs[r].pc.RefundCommit? && s.reqs[r].pc.tx.id == id ==>
              s.world.db.txns[id].status == Refunded && Replay(s.world.db.events, id) == Broken
  {
    hide Inv, Ready, Replay, RowsFor;
    if s.reqs[r].pc.RefundCommit? {
      OnlyRefundsDrive(s, opening, r);
    } else if Driving(s.reqs[r].pc) == Some(id) {
      OnlyOneDrives(s, opening, r, id);
      DriverRowUnsettled(s.cfg, s.world, s.reqs[r].pc);
    }
  }

  lemma DriverRowUnsettled(cfg: Config, w: World, pc: Pc)
    requires Ready(cfg, w, pc) && Driving(pc).Some?
    ensures pc.tx.id in w.db.txns && !Settled(w.db.txns[pc.tx.id].status)
  {
    hide LedgerSafety.RowOk, AttemptLog, AllRetryable, Approved;
  }

  lemma RunKeepsDamage(s: State, a: Action, s': State, opening: map<MerchantId, Merchant>, id: TxId)
    requires Inv(s, opening) && Step(s, a, s') && a.Run? && Damaged(s, id)
    ensures Damaged(s', id)
  {
    hide Advance, Inv, Ready, IdleTrail, Unannounced, SameTrail, Busy, RowOf, DoRefundCommit, Replay;
    var Request(call, pc) := s.reqs[a.r];
    DriverOfDamaged(s, opening, a.r, id);
    if Driving(pc) == Some(id) {
      OnlyOneDrives(s, opening, a.r, id);
      UndoLeavesDamage(s.cfg, s.world, call, pc, a.o);
      LeftDamaged(s, a.r, s', opening, id);
    } else if pc.RefundCommit? && pc.tx.id == id {
      RefundStep(s, a, s', opening, id);
      RefundOfRefunded(s.world, pc.tx, a.o);
    } else {
      BystanderRow(s, a, s', opening, id);
      BystanderKeepsDamage(s, a.r, s', id);
    }
  }

  lemma StopKeepsDamage(s: State, a: Action, s': State, opening: map<MerchantId, Merchant>, id: TxId)
    requires Inv(s, opening) && Step(s, a, s') && !a.Run? && Damaged(s, id)
    ensures Damaged(s', id)
  {
    hide Advance, Inv, Ready, IdleTrail, Unannounced, Replay;
    if a.Stop? && Driving(s.reqs[a.r].pc) == Some(id) {
      DriverOfDamaged(s, opening, a.r, id);
      OnlyOneDrives(s, opening, a.r, id);
      assert MidTransition(s.reqs[a.r].pc) by { UnannouncedIsUndo(s.world.db, s.reqs[a.r].pc); }
      HalfDoneTrail(s.cfg, s.world, s.reqs[a.r].pc);
      LeftDamaged(s, a.r, s', opening, id);
    } else if Busy(s.reqs, id) {
      var q :| q in s.reqs && Driving(s.reqs[q].pc) == Some(id);
      assert q != a.r && s'.reqs[q] == s.reqs[q];
      assert Busy(s'.reqs, id);
    }
  }

  lemma UnannouncedIsUndo(db: Db, pc: Pc)
    requires Unannounced(db, pc)
    ensures pc.UndoFailed?
  {
  }

  // ---- Main results ----

  /** In the first `i` steps no transition of `id` was left half-done and no refund of it committed late. */
  ghost predicate CleanFor(states: seq<State>, actions: seq<Action>, i: nat, id: TxId)
    requires i <= |actions| && i <= |states|
  {
    forall k :: 0 <= k < i ==> !Unclean(states[k], actions[k], id)
  }

  lemma TrailAcrossStep(s: State, a: Action, s': State, opening: map<MerchantId, Merchant>, id: TxId)
    requires Inv(s, opening) && Step(s, a, s')
    ensures TrailOk(s, id) ==> if Unclean(s, a, id) then Damaged(s', id) else TrailOk(s', id)
    ensures Damaged(s, id) ==> Damaged(s', id)
  {
    hide Inv, TrailOk, Damaged, Step, HalfDone, LateCommit;
    if Damaged(s, id) {
      if a.Run? { RunKeepsDamage(s, a, s', opening, id); } else { StopKeepsDamage(s, a, s', opening, id); }
    }
    if TrailOk(s, id) {
      if Unclean(s, a, id) {
        if HalfDone(s, a, id) { HalfDoneDamages(s, a, s', opening, id); } else { LateDamages(s, a, s', opening, id); }
      } else if a.Run? {
        CleanRunKeepsTrail(s, a, s', opening, id);
      } else {
        CleanStopKeepsTrail(s, a, s', opening, id);
      }
    }
  }

  lemma TrailAtStart(s: State, id: TxId)
    requires Init(s)
    ensures TrailOk(s, id)
  {
  }

  lemma CleanForOneMore(states: seq<State>, actions: seq<Action>, k: nat, id: TxId)
    requires k < |actions| && k < |states|
    ensures CleanFor(states, actions, k + 1, id) <==>
        CleanFor(states, actions, k, id) && !Unclean(states[k], actions[k], id)
  {
    hide Unclean;
  }

  /** Every transaction of every run: its trail is right as long as its own transitions were not left
      half-done, and wrong for ever after the first that was. */
  lemma {:induction false} TrailOnRuns(states: seq<State>, actions: seq<Action>, i: nat, id: TxId)
    requires IsRun(states, actions) && i < |states|
    ensures if CleanFor(states, actions, i, id) then TrailOk(states[i], id) else Damaged(states[i], id)
  {
    hide Inv, TrailOk, Damaged, Step, Init, Unclean;
    if i == 0 {
      TrailAtStart(states[0], id);
    } else {
      hide IsRun, CleanFor;
      TrailOnRuns(states, actions, i - 1, id);
      InvOnRuns(states, actions, i - 1);
      RunStep(states, actions, i - 1);
      TrailAcrossStep(states[i - 1], actions[i - 1], states[i], states[0].world.db.merchants, id);
      CleanForOneMore(states, actions, i - 1, id);
    }
  }

  /** A transaction whose creation is over: its audit trail is a chain of allowed transitions from CREATED that
      ends in the stored status, with one announcement of each announced status reached, if and only if no
      transition of it was left half-done and no refund of it committed late. */
  lemma AuditReplaysToState(states: seq<State>, actions: seq<Action>, i: nat, id: TxId)
    requires IsRun(states, actions) && i < |states|
    requires !Busy(states[i].reqs, id) && id in states[i].world.db.txns
    ensures var db := states[i].world.db; var h := History(db.events, id);
            CleanFor(states, actions, i, id)
            <==> (&& Chain(h) && h != [] && h[|h| - 1].to == db.txns[id].status
                  && forall kind :: RowsFor(db.outbox, id, kind) == Bit(Reaches(Announced(kind), db.txns[id].status)))
  {
    TrailOnRuns(states, actions, i, id);
    ReplayReadsChain(states[i].world.db.events, id);
    assert IdleTrail(states[i].world.db, id) <==> CleanFor(states, actions, i, id);
  }

  function Count(outbox: seq<OutboxEvent>, kind: EventType): nat {
    if outbox == [] then 0
    else Count(outbox[..|outbox| - 1], kind) + Bit(outbox[|outbox| - 1].eventType == kind)
  }

  lemma {:induction false} CountIsSetSize(outbox: seq<OutboxEvent>, kind: EventType, ids: set<TxId>)
    requires forall id :: RowsFor(outbox, id, kind) == Bit(id in ids)
    ensures Count(outbox, kind) == |ids|
    decreases |outbox|
  {
    if outbox == [] {
      assert forall id :: id in ids ==> RowsFor(outbox, id, kind) == 1;
      assert ids == {};
    } else {
      var front, e := outbox[..|outbox| - 1], outbox[|outbox| - 1];
      if e.eventType == kind {
        assert RowsFor(outbox, e.txId, kind) == 1;
        forall id ensures RowsFor(front, id, kind) == Bit(id in ids - {e.txId}) {
          assert RowsFor(outbox, id, kind) == Bit(id in ids);
        }
        CountIsSetSize(front, kind, ids - {e.txId});
      } else {
        forall id ensures RowsFor(front, id, kind) == Bit(id in ids) {
          assert RowsFor(outbox, id, kind) == Bit(id in ids);
        }
        CountIsSetSize(front, kind, ids);
      }
    }
  }

  /** Between requests, the outbox rows of each type are as many as the transactions that reached its status. */
  lemma OutboxCountsStatuses(states: seq<State>, actions: seq<Action>, i: nat, kind: EventType)
    requires IsRun(states, actions) && i < |states|
    requires forall id :: CleanFor(states, actions, i, id)
    requires forall id :: !Busy(states[i].reqs, id)
    ensures var db := states[i].world.db;
            Count(db.outbox, kind) == |set id | id in db.txns && Reaches(Announced(kind), db.txns[id].status)|
  {
    var db := states[i].world.db;
    var ids := set id | id in db.txns && Reaches(Announced(kind), db.txns[id].status);
    forall id ensures RowsFor(db.outbox, id, kind) == Bit(id in ids) {
      TrailOnRuns(states, actions, i, id);
      assert IdleTrail(db, id);
    }
    CountIsSetSize(db.outbox, kind, ids);
  }
}
