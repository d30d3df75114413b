// Many workers, each running its claimed batch on its own pool, over one outbox table
// (internal/service/outbox_worker.go): what the batches really do is a history of the
// delivery protocol, so the protocol's bounds hold of them.

module OutboxFleet {
  import opened OutboxDelivery
  import opened OutboxDrain
  import B = OutboxBatch

  /** One claimed batch: its event `e` is the claim recorded as task `base + e`. */
  datatype Lot = Lot(base: nat, batch: B.Batch)

  datatype Fleet = Fleet(d: Delivery, lots: map<int, Lot>)

  datatype FleetStep =
    | Fetch(w: int, ids: seq<nat>, concurrency: int)
    | Work(w: int, op: B.BatchOp)
    | Outside(m: Move)

  /** How far the claim of a job has come, by the job's own stage. */
  function ClaimStage(stage: B.JobStage): Stage {
    match stage
    case Fresh => Held
    case InPublish => Publishing
    case InMark => Sent
    case Reporting(_) => Over
    case Reported => Over
  }

  function StageOf(b: B.Batch, e: nat): Stage {
    if e < |b.jobs| then ClaimStage(b.jobs[e]) else Held
  }

  function Restage(d: Delivery, k: nat, stage: Stage): Delivery
    requires k < |d.tasks|
  {
    d.(tasks := d.tasks[k := d.tasks[k].(stage := stage)])
  }

  /** What a job's next step does to the publisher and the table: publish, learn the outcome, mark. */
  function JobEffect(d: Delivery, k: nat, stage: B.JobStage, canceled: bool, ok: bool): Delivery
    requires k < |d.tasks|
  {
    var row := d.tasks[k].row;
    match stage
    case Fresh => if canceled then Restage(d, k, Over) else Restage(d, k, Publishing).(calls := d.calls + [row])
    case InPublish => if ok then Restage(d, k, Sent).(acked := d.acked + {row}) else Restage(d, k, Over)
    case InMark =>
      if ok && row < |d.rows| then Restage(d, k, Over).(rows := d.rows[row := Marked(d.rows[row], d.now)])
          else Restage(d, k, Over)
    case Reporting(_) => d
    case Reported => d
  }

  /** The other steps, of the pool and of the producer, touch neither. */
  function TableAfter(d: Delivery, lot: Lot, op: B.BatchOp): Delivery {
    if op.JobStep? && HasJob(lot, op.i) && lot.base + B.JobOf(lot.batch, op.i) < |d.tasks|
    then JobEffect(d, lot.base + B.JobOf(lot.batch, op.i), lot.batch.jobs[B.JobOf(lot.batch, op.i)],
                   lot.batch.canceled, op.ok)
    else d
  }

  predicate HasJob(lot: Lot, i: nat) {
    i < |lot.batch.pool.workers| && lot.batch.pool.workers[i].Running? && B.JobOf(lot.batch, i) < |lot.batch.jobs|
  }

  ghost predicate CanClaim(d: Delivery, ids: seq<nat>) {
    && (forall k :: 0 <= k < |ids| ==> ids[k] < |d.rows| && Claimable(d.rows[ids[k]], d.now))
    && (forall j, k :: 0 <= j < k < |ids| ==> ids[j] != ids[k])
  }

  /** A worker that dies simply takes no further step. */
  ghost predicate Steps(f: Fleet, step: FleetStep, f': Fleet) {
    match step
    case Fetch(w, ids, concurrency) =>
      && w !in f.lots && CanClaim(f.d, ids)
      && f' == Fleet(ClaimAll(f.d, ids), f.lots[w := Lot(|f.d.tasks|, B.NewBatch(|ids|, concurrency))])
    case Work(w, op) =>
      && w in f.lots && w in f'.lots && B.BatchStep(f.lots[w].batch, op, f'.lots[w].batch)
      && f'.lots == f.lots[w := Lot(f.lots[w].base, f'.lots[w].batch)]
      && f'.d == TableAfter(f.d, f.lots[w], op)
    case Outside(m) => (m.Pass? || m.Insert?) && Moves(f.d, m, f'.d) && f'.lots == f.lots
  }

  ghost predicate IsFleetRun(fs: seq<Fleet>, steps: seq<FleetStep>) {
    && |fs| == |steps| + 1 && Start(fs[0].d) && fs[0].lots == map[]
    && forall i :: 0 <= i < |steps| ==> Steps(fs[i], steps[i], fs[i + 1])
  }

  // ---- Batch steps are moves of the delivery protocol ----

  ghost predicate Mirrors(lot: Lot, d: Delivery) {
    && lot.base + lot.batch.total <= |d.tasks|
    && forall k :: lot.base <= k < lot.base + lot.batch.total ==> d.tasks[k].stage == StageOf(lot.batch, k - lot.base)
  }

  ghost predicate LotOk(lot: Lot, d: Delivery) {
    B.BatchOk(lot.batch) && Mirrors(lot, d)
  }

  predicate Apart(a: Lot, b: Lot) {
    a.base + a.batch.total <= b.base || b.base + b.batch.total <= a.base
  }

  function JobMove(k: nat, stage: B.JobStage, canceled: bool, ok: bool): Move {
    match stage
    case Fresh => if canceled then Abandon(k) else BeginPublish(k)
    case InPublish => EndPublish(k, ok)
    case InMark => MarkPublished(k, ok)
    case Reporting(_) => Pass(0)
    case Reported => Pass(0)
  }

  function MoveOf(lot: Lot, op: B.BatchOp): Move {
    if op.JobStep? && HasJob(lot, op.i)
    then JobMove(lot.base + B.JobOf(lot.batch, op.i), lot.batch.jobs[B.JobOf(lot.batch, op.i)], lot.batch.canceled,
                 op.ok)
    else Pass(0)
  }

  function StageAfter(stage: Stage, canceled: bool, ok: bool): Stage {
    match stage
    case Held => if canceled then Over else Publishing
    case Publishing => if ok then Sent else Over
    case Sent => Over
    case Over => Over
  }

  /** The effect of one job step on its claim is one move of the protocol. */
  lemma JobEffectIsMove(d: Delivery, k: nat, stage: B.JobStage, canceled: bool, ok: bool)
    requires k < |d.tasks| && d.tasks[k].stage == ClaimStage(stage) && d.tasks[k].row < |d.rows|
    ensures Moves(d, JobMove(k, stage, canceled, ok), JobEffect(d, k, stage, canceled, ok))
    ensures |JobEffect(d, k, stage, canceled, ok).tasks| == |d.tasks|
    ensures forall t :: 0 <= t < |d.tasks| ==>
              JobEffect(d, k, stage, canceled, ok).tasks[t].stage
                == if t == k then StageAfter(ClaimStage(stage), canceled, ok) else d.tasks[t].stage
  {
    hide Marked;
  }

  /** What it does to the job is the same. */
  lemma JobStepStages(b: B.Batch, i: nat, ok: bool, b': B.Batch)
    requires B.RunsJob(b, i, ok, b')
    ensures B.JobOf(b, i) < |b.jobs| == |b'.jobs|
    ensures forall e :: 0 <= e < |b.jobs| ==>
              ClaimStage(b'.jobs[e]) == if e == B.JobOf(b, i) then StageAfter(ClaimStage(b.jobs[e]), b.canceled, ok)
                  else ClaimStage(b.jobs[e])
  {
  }

  lemma RunningJobKnown(b: B.Batch, i: nat)
    requires B.BatchOk(b) && i < |b.pool.workers| && b.pool.workers[i].Running?
    ensures B.JobOf(b, i) < |b.jobs| == |b.eventOf| && B.JobOf(b, i) < b.total &&
        b.eventOf[B.JobOf(b, i)] == B.JobOf(b, i)
  {
    B.RunningJobTaken(b, i);
  }

  /** Every step of a batch is one move of its event's claim, or none: a claim calls Publish at most once,
      and marks only after an acknowledgement, because its job does. */
  lemma BatchStepIsMove(d: Delivery, lot: Lot, op: B.BatchOp, b': B.Batch)
    requires DeliveryOk(d) && LotOk(lot, d) && B.BatchStep(lot.batch, op, b')
    ensures Moves(d, MoveOf(lot, op), TableAfter(d, lot, op))
    ensures LotOk(Lot(lot.base, b'), TableAfter(d, lot, op)) && b'.total == lot.batch.total
    ensures forall k :: 0 <= k < |d.tasks| && !(lot.base <= k < lot.base + lot.batch.total) ==>
              TableAfter(d, lot, op).tasks[k].stage == d.tasks[k].stage
    ensures |TableAfter(d, lot, op).tasks| == |d.tasks|
  {
    B.StepKeepsOk(lot.batch, op, b');
    if op.JobStep? {
      JobStepIsMove(d, lot, op, b');
    } else {
      StaysMirrored(d, lot, op, b');
    }
  }

  lemma RowKnown(d: Delivery, k: nat)
    requires DeliveryOk(d) && k < |d.tasks|
    ensures d.tasks[k].row < |d.rows|
  {
    assert TaskOk(d, k);
  }

  lemma JobStepIsMove(d: Delivery, lot: Lot, op: B.BatchOp, b': B.Batch)
    requires DeliveryOk(d) && LotOk(lot, d) && B.BatchStep(lot.batch, op, b') && op.JobStep? &&
        b'.total == lot.batch.total
    ensures Moves(d, MoveOf(lot, op), TableAfter(d, lot, op)) && Mirrors(Lot(lot.base, b'), TableAfter(d, lot, op))
    ensures forall k :: 0 <= k < |d.tasks| && !(lot.base <= k < lot.base + lot.batch.total) ==>
              TableAfter(d, lot, op).tasks[k].stage == d.tasks[k].stage
    ensures |TableAfter(d, lot, op).tasks| == |d.tasks|
  {
    hide B.BatchOk, B.BatchStep, B.RunsJob, DeliveryOk, JobEffect, JobMove, ClaimStage, StageAfter, Mirrors, Moves;
    var j := JobKnown(d, lot, op, b');
    var k := lot.base + j;
    JobStepStages(lot.batch, op.i, op.ok, b');
    JobEffectIsMove(d, k, lot.batch.jobs[j], lot.batch.canceled, op.ok);
    assert TableAfter(d, lot, op) == JobEffect(d, k, lot.batch.jobs[j], lot.batch.canceled, op.ok);
    Restaged(lot, b', d, TableAfter(d, lot, op), j,
             StageAfter(ClaimStage(lot.batch.jobs[j]), lot.batch.canceled, op.ok));
  }

  lemma JobKnown(d: Delivery, lot: Lot, op: B.BatchOp, b': B.Batch) returns (j: nat)
    requires DeliveryOk(d) && LotOk(lot, d) && B.BatchStep(lot.batch, op, b') && op.JobStep?
    ensures HasJob(lot, op.i) && j == B.JobOf(lot.batch, op.i) && B.RunsJob(lot.batch, op.i, op.ok, b') &&
        j < lot.batch.total
    ensures lot.base + j < |d.tasks| && d.tasks[lot.base + j].row < |d.rows|
    ensures d.tasks[lot.base + j].stage == ClaimStage(lot.batch.jobs[j])
  {
    RunningJobKnown(lot.batch, op.i);
    hide B.BatchOk, B.RunsJob, DeliveryOk, ClaimStage;
    j := B.JobOf(lot.batch, op.i);
    RowKnown(d, lot.base + j);
    assert d.tasks[lot.base + j].stage == StageOf(lot.batch, lot.base + j - lot.base);
  }

  lemma Restaged(lot: Lot, b': B.Batch, d: Delivery, d': Delivery, j: nat, stage: Stage)
    requires Mirrors(lot, d) && b'.total == lot.batch.total && |d'.tasks| == |d.tasks| && |b'.jobs| == |lot.batch.jobs|
    requires forall k :: 0 <= k < |d.tasks| ==> d'.tasks[k].stage == if k == lot.base + j then stage
        else d.tasks[k].stage
    requires j < |b'.jobs|
    requires forall e :: 0 <= e < |b'.jobs| ==>
               ClaimStage(b'.jobs[e]) == if e == j then stage else ClaimStage(lot.batch.jobs[e])
    ensures Mirrors(Lot(lot.base, b'), d')
  {
    hide ClaimStage;
    forall k | lot.base <= k < lot.base + b'.total ensures d'.tasks[k].stage == StageOf(b', k - lot.base) {
      assert d.tasks[k].stage == StageOf(lot.batch, k - lot.base);
    }
  }

  /** The other steps belong to the pool and the producer; a submitted job starts out unpublished. */
  lemma StaysMirrored(d: Delivery, lot: Lot, op: B.BatchOp, b': B.Batch)
    requires LotOk(lot, d) && B.BatchStep(lot.batch, op, b') && !op.JobStep?
    ensures Mirrors(Lot(lot.base, b'), d) && b'.total == lot.batch.total
  {
    if op.SubmitNext? {
      SubmitMirrored(d, lot, b');
    } else {
      hide B.BatchOk;
      SameJobs(d, lot, b');
    }
  }

  lemma SubmitMirrored(d: Delivery, lot: Lot, b': B.Batch)
    requires LotOk(lot, d) && B.Submits(lot.batch, b')
    ensures Mirrors(Lot(lot.base, b'), d) && b'.total == lot.batch.total
  {
    B.NeverRefused(lot.batch);
    hide B.BatchOk;
    forall e: nat ensures StageOf(b', e) == StageOf(lot.batch, e) {}
  }

  lemma SameJobs(d: Delivery, lot: Lot, b': B.Batch)
    requires LotOk(lot, d) && b'.jobs == lot.batch.jobs && b'.total == lot.batch.total
    ensures Mirrors(Lot(lot.base, b'), d)
  {
    hide B.BatchOk;
  }

  // ---- Every fleet state is reached by a history ----

  ghost predicate Reached(d: Delivery) {
    exists ds: seq<Delivery>, moves: seq<Move> :: IsHistory(ds, moves) && ds[|moves|] == d
  }

  lemma MoveReached(d: Delivery, m: Move, d': Delivery)
    requires Reached(d) && Moves(d, m, d')
    ensures Reached(d') && DeliveryOk(d)
  {
    hide Moves, DeliveryOk, Start;
    var ds, moves :| IsHistory(ds, moves) && ds[|moves|] == d;
    OkOnHistories(ds, moves, |moves|);
    var ds', moves' := ds + [d'], moves + [m];
    assert IsHistory(ds', moves') && ds'[|moves'|] == d';
  }

  lemma ReachedOk(d: Delivery)
    requires Reached(d)
    ensures DeliveryOk(d)
  {
    var ds, moves :| IsHistory(ds, moves) && ds[|moves|] == d;
    OkOnHistories(ds, moves, |moves|);
  }

  lemma {:induction false} ClaimAllReached(d: Delivery, ids: seq<nat>)
    requires Reached(d) && CanClaim(d, ids)
    ensures Reached(ClaimAll(d, ids))
    decreases |ids|
  {
    if ids != [] {
      var front := ids[..|ids| - 1];
      ClaimAllReached(d, front);
      BatchClaimIsMoves(d, ids);
      MoveReached(ClaimAll(d, front), ClaimRow(ids[|ids| - 1]), ClaimAll(d, ids));
    }
  }

  lemma {:induction false} ClaimAllTasks(d: Delivery, ids: seq<nat>)
    requires forall k :: 0 <= k < |ids| ==> ids[k] < |d.rows|
    ensures |ClaimAll(d, ids).tasks| == |d.tasks| + |ids|
    ensures forall k :: 0 <= k < |d.tasks| ==> ClaimAll(d, ids).tasks[k] == d.tasks[k]
    ensures forall k :: |d.tasks| <= k < |d.tasks| + |ids| ==> ClaimAll(d, ids).tasks[k].stage == Held
    decreases |ids|
  {
    if ids != [] {
      ClaimAllTasks(d, ids[..|ids| - 1]);
    }
  }

  ghost predicate FleetOk(f: Fleet) {
    && Reached(f.d)
    && (forall w :: w in f.lots ==> LotOk(f.lots[w], f.d))
    && (forall v, w :: v in f.lots && w in f.lots && v != w ==> Apart(f.lots[v], f.lots[w]))
  }

  /** A lot keeps its mirror while others touch only other claims. */
  lemma OthersKeepMirror(lot: Lot, d: Delivery, d': Delivery)
    requires LotOk(lot, d) && |d'.tasks| >= |d.tasks|
    requires forall k :: lot.base <= k < lot.base + lot.batch.total ==> d'.tasks[k].stage == d.tasks[k].stage
    ensures LotOk(lot, d')
  {
    hide B.BatchOk;
  }

  lemma FetchKeepsOk(f: Fleet, w: int, ids: seq<nat>, concurrency: int, f': Fleet)
    requires FleetOk(f) && Steps(f, Fetch(w, ids, concurrency), f')
    ensures FleetOk(f')
  {
    hide B.BatchOk, Reached;
    ClaimAllReached(f.d, ids);
    ClaimAllTasks(f.d, ids);
    B.NewBatchOk(|ids|, concurrency);
    forall v | v in f.lots ensures LotOk(f.lots[v], f'.d) {
      OthersKeepMirror(f.lots[v], f.d, f'.d);
    }
    assert Mirrors(f'.lots[w], f'.d);
  }

  lemma WorkKeepsOk(f: Fleet, w: int, op: B.BatchOp, f': Fleet)
    requires FleetOk(f) && Steps(f, Work(w, op), f')
    ensures FleetOk(f')
  {
    hide B.BatchOk, B.BatchStep, Reached, TableAfter, Mirrors;
    ReachedOk(f.d);
    BatchStepIsMove(f.d, f.lots[w], op, f'.lots[w].batch);
    MoveReached(f.d, MoveOf(f.lots[w], op), f'.d);
    forall v | v in f.lots && v != w ensures LotOk(f.lots[v], f'.d) {
      assert Apart(f.lots[v], f.lots[w]);
      assert f.lots[v].base + f.lots[v].batch.total <= |f.d.tasks| by { WithinTasks(f.lots[v], f.d); }
      OthersKeepMirror(f.lots[v], f.d, f'.d);
    }
  }

  lemma WithinTasks(lot: Lot, d: Delivery)
    requires LotOk(lot, d)
    ensures lot.base + lot.batch.total <= |d.tasks|
  {
  }

  lemma OutsideKeepsOk(f: Fleet, m: Move, f': Fleet)
    requires FleetOk(f) && Steps(f, Outside(m), f')
    ensures FleetOk(f')
  {
    hide B.BatchOk, Reached;
    MoveReached(f.d, m, f'.d);
    forall v | v in f.lots ensures LotOk(f.lots[v], f'.d) {
      OthersKeepMirror(f.lots[v], f.d, f'.d);
    }
  }

  lemma FleetStepKeepsOk(f: Fleet, step: FleetStep, f': Fleet)
    requires FleetOk(f) && Steps(f, step, f')
    ensures FleetOk(f')
  {
    hide FleetOk, Steps;
    match step
    case Fetch(w, ids, concurrency) => FetchKeepsOk(f, w, ids, concurrency, f');
    case Work(w, op) => WorkKeepsOk(f, w, op, f');
    case Outside(m) => OutsideKeepsOk(f, m, f');
  }

  /** Only an insert changes which rows there are. */
  lemma FleetStepKeepsRowCount(f: Fleet, step: FleetStep, f': Fleet)
    requires Steps(f, step, f')
    ensures |f'.d.rows| == |f.d.rows| + if step.Outside? && step.m.Insert? then 1 else 0
  {
    hide B.BatchStep;
  }

  lemma FleetOkAtStart(f: Fleet)
    requires Start(f.d) && f.lots == map[]
    ensures FleetOk(f)
  {
    var ds, moves: seq<Move> := [f.d], [];
    assert IsHistory(ds, moves) && ds[|moves|] == f.d;
  }

  lemma {:induction false} OkOnFleetRuns(fs: seq<Fleet>, steps: seq<FleetStep>, i: nat)
    requires IsFleetRun(fs, steps) && i < |fs|
    ensures FleetOk(fs[i])
  {
    hide FleetOk, Steps;
    if i == 0 {
      FleetOkAtStart(fs[0]);
    } else {
      OkOnFleetRuns(fs, steps, i - 1);
      FleetStepKeepsOk(fs[i - 1], steps[i - 1], fs[i]);
    }
  }

  // ---- Main result ----

  /** However many workers run their batches, and whichever die: a row has at most one Publish call per
      claim, and by time T, first claimed at t0, at most 1 + floor((T - t0) / 30 s). */
  lemma FleetDuplicatesBounded(fs: seq<Fleet>, steps: seq<FleetStep>, i: nat, row: nat)
    requires IsFleetRun(fs, steps) && i < |fs| && row < |fs[i].d.rows|
    ensures var ts, calls := ClaimTimes(fs[i].d.tasks, row), CallsOf(fs[i].d.calls, row);
            && calls <= |ts|
            && (ts != [] ==> calls <= 1 + (fs[i].d.now - ts[0]) / 30_000_000)
  {
    OkOnFleetRuns(fs, steps, i);
    var d := fs[i].d;
    var ds, moves :| IsHistory(ds, moves) && ds[|moves|] == d;
    DuplicatesBounded(ds, moves, |moves|, row);
    OkOnHistories(ds, moves, |moves|);
    assert CallsCovered(d, row);
    ReleasedBounded(d.tasks, row);
  }
}
