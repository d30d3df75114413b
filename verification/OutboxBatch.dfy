// One batch of the outbox worker (internal/service/outbox_worker.go): processEvents
// submits every claimed event to a fresh worker pool, each job publishes, marks and
// reports, and the producer shuts the pool down and collects the results.

module OutboxBatch {
  import opened WorkerPools

  function WorkerCount(concurrency: int, batchLen: nat): (n: nat)
    ensures batchLen > 0 ==> n <= batchLen
    ensures concurrency > 0 ==> n <= concurrency
    ensures n >= 1 && (n == 1 || n == batchLen || n == concurrency)
    ensures batchLen > 0 && concurrency > 0 ==> n == batchLen || n == concurrency
  {
    if batchLen <= 0 || concurrency <= 0 then 1
    else if concurrency > batchLen then batchLen
    else concurrency
  }

  datatype Outcome = SubmitRefused | CanceledFirst | PublishFailed | MarkFailed | Delivered

  datatype Result = Result(event: nat, outcome: Outcome)

  datatype JobStage = Fresh | InPublish | InMark | Reporting(outcome: Outcome) | Reported

  datatype Batch = Batch(
    pool: Pool, total: nat, next: nat, producing: bool, canceled: bool,
    eventOf: seq<nat>,       // the event each accepted job carries
    jobs: seq<JobStage>,
    results: seq<Result>,    // the results channel, buffered for `total` results
    published: seq<nat>,     // events Publish was called for, in order
    sent: set<nat>,          // events whose Publish returned no error
    marks: seq<nat>,         // events MarkPublished was called for
    marked: set<nat>)        // events whose MarkPublished returned no error

  function NewBatch(total: nat, concurrency: int): Batch {
    Batch(NewPool(WorkerCount(concurrency, total), total), total, 0, true, false, [], [], [], [], {}, [], {})
  }

  datatype BatchOp = Cancel | SubmitNext | Shutdown | PoolStep(op: Op) | JobStep(i: nat, ok: bool)

  /** Pool operations that no step of the producer or of a job stands for. */
  predicate Background(op: Op) {
    op.SendToQueue? || op.SendToWorker? || op.Receive? || op.FreeSlot? || op.Exit?
  }

  function JobOf(b: Batch, i: nat): nat
    requires i < |b.pool.workers| && b.pool.workers[i].Running?
  {
    b.pool.workers[i].job
  }

  ghost predicate Submits(b: Batch, b': Batch) {
    && b.producing && b.next < b.total && !b.canceled && b.pool.sender == NoSender
    && if b.pool.closed || Full(b.pool) then
         // Submit refused: the producer itself sends the result.
         |b.results| < b.total && b' == b.(next := b.next + 1, results := b.results + [Result(b.next, SubmitRefused)])
       else
         b' == b.(pool := Do(b.pool, TakeSlot), next := b.next + 1, eventOf := b.eventOf + [b.next],
                  jobs := b.jobs + [Fresh])
  }

  ghost predicate RunsJob(b: Batch, i: nat, ok: bool, b': Batch) {
    && i < |b.pool.workers| && b.pool.workers[i].Running? && JobOf(b, i) < |b.jobs| && JobOf(b, i) < |b.eventOf|
    && var j := JobOf(b, i); var event := b.eventOf[j];
       match b.jobs[j]
       case Fresh =>
         b' == if b.canceled then b.(jobs := b.jobs[j := Reporting(CanceledFirst)])
               else b.(jobs := b.jobs[j := InPublish], published := b.published + [event])
       case InPublish =>
         b' == if ok then b.(jobs := b.jobs[j := InMark], sent := b.sent + {event})
               else b.(jobs := b.jobs[j := Reporting(PublishFailed)])
       case InMark =>
         b' == if ok then b.(jobs := b.jobs[j := Reporting(Delivered)], marks := b.marks + [event],
                             marked := b.marked + {event})
               else b.(jobs := b.jobs[j := Reporting(MarkFailed)], marks := b.marks + [event])
       case Reporting(outcome) =>
         |b.results| < b.total && b' ==
             b.(jobs := b.jobs[j := Reported], results := b.results + [Result(event, outcome)])
       case Reported =>
         Enabled(b.pool, EndJob(i)) && b' == b.(pool := Do(b.pool, EndJob(i)))
  }

  ghost predicate BatchStep(b: Batch, op: BatchOp, b': Batch) {
    match op
    case Cancel => b' == b.(canceled := true)
    case SubmitNext => Submits(b, b')
    case Shutdown =>
      && b.producing && (b.next == b.total || b.canceled) && Enabled(b.pool, Close)
      && b' == b.(producing := false, pool := Do(b.pool, Close))
    case PoolStep(p) => Background(p) && Enabled(b.pool, p) && b' == b.(pool := Do(b.pool, p))
    case JobStep(i, ok) => RunsJob(b, i, ok, b')
  }

  ghost predicate IsBatchRun(bs: seq<Batch>, ops: seq<BatchOp>, total: nat, concurrency: int) {
    && |bs| == |ops| + 1 && bs[0] == NewBatch(total, concurrency)
    && forall k :: 0 <= k < |ops| ==> BatchStep(bs[k], ops[k], bs[k + 1])
  }

  // ---- What every interleaving keeps ----

  ghost predicate ShapeOk(b: Batch) {
    && PoolOk(b.pool) && |b.pool.workers| > 0 && b.pool.queueSize == b.total
    && |b.jobs| == |b.eventOf| == Accepted(b.pool) == b.next <= b.total
    && (forall j :: 0 <= j < |b.eventOf| ==> b.eventOf[j] == j)
    && (b.producing <==> !b.pool.closed)
  }

  ghost predicate StagesOk(b: Batch)
    requires ShapeOk(b)
  {
    && (forall j :: 0 <= j < |b.jobs| && b.jobs[j] != Fresh ==> j < |b.pool.takers|)
    && (forall j :: 0 <= j < |b.jobs| && b.pool.runs[j] == 1 ==> b.jobs[j] == Reported)
    && (forall j :: 0 <= j < |b.jobs| && (b.jobs[j] == InMark || b.jobs[j] == Reporting(Delivered)) ==> j in b.sent)
    && (forall k :: 0 <= k < |b.marks| ==> b.marks[k] in b.sent)
  }

  function ResultsFor(results: seq<Result>, event: nat): nat {
    if results == [] then 0
    else ResultsFor(results[..|results| - 1], event) + if results[|results| - 1].event == event then 1 else 0
  }

  lemma NewResult(results: seq<Result>, r: Result, event: nat)
    ensures ResultsFor(results + [r], event) == ResultsFor(results, event) + if r.event == event then 1 else 0
  {
    assert (results + [r])[..|results|] == results;
  }

  ghost function ReportedJobs(jobs: seq<JobStage>): set<nat> {
    set j | 0 <= j < |jobs| && jobs[j] == Reported
  }

  ghost predicate HasResult(b: Batch, event: nat) {
    event in ReportedJobs(b.jobs)
  }

  ghost predicate ResultsOk(b: Batch) {
    && |b.results| == |ReportedJobs(b.jobs)|
    && forall event: nat :: ResultsFor(b.results, event) == if HasResult(b, event) then 1 else 0
  }

  ghost predicate BatchOk(b: Batch) {
    ShapeOk(b) && StagesOk(b) && ResultsOk(b)
  }

  lemma NeverRefused(b: Batch)
    requires ShapeOk(b) && b.producing && b.next < b.total && b.pool.sender == NoSender
    ensures !b.pool.closed && !Full(b.pool)
  {
    BusyAtMost(b.pool.workers);
  }

  lemma {:induction false} FewerThan(s: set<nat>, n: nat, missing: nat)
    requires missing < n && missing !in s && forall j :: j in s ==> j < n
    ensures |s| < n
  {
    assert s <= Span(0, n) - {missing};
    SubsetSize(s, Span(0, n) - {missing});
  }

  lemma SubsetSize<T>(a: set<T>, b: set<T>)
    requires a <= b
    ensures |a| <= |b|
  {
    assert b == a + (b - a);
  }

  /** A job about to report always finds room in the results channel. */
  lemma ReportHasRoom(b: Batch, j: nat)
    requires BatchOk(b) && j < |b.jobs| && b.jobs[j] != Reported
    ensures |b.results| < b.total
  {
    FewerThan(ReportedJobs(b.jobs), |b.jobs|, j);
  }

  lemma SubmitKeepsOk(b: Batch, b': Batch)
    requires BatchOk(b) && Submits(b, b')
    ensures BatchOk(b') && |b'.pool.workers| == |b.pool.workers| && b'.total == b.total
  {
    hide PoolOk;
    NeverRefused(b);
    OpKeepsOk(b.pool, TakeSlot);
    assert ReportedJobs(b'.jobs) == ReportedJobs(b.jobs);
    assert forall e: nat :: HasResult(b', e) == HasResult(b, e);
  }

  lemma ReportKeepsResults(b: Batch, j: nat, r: Result, b': Batch)
    requires ResultsOk(b) && j < |b.jobs| && b.jobs[j] != Reported && r.event == j
    requires b'.jobs == b.jobs[j := Reported] && b'.results == b.results + [r]
    ensures ResultsOk(b')
  {
    hide ResultsFor;
    assert ReportedJobs(b'.jobs) == ReportedJobs(b.jobs) + {j};
    forall e: nat ensures ResultsFor(b'.results, e) == if HasResult(b', e) then 1 else 0 {
      NewResult(b.results, r, e);
      assert HasResult(b, e) <==> e in ReportedJobs(b.jobs);
    }
  }

  lemma JobKeepsShape(b: Batch, i: nat, ok: bool, b': Batch)
    requires BatchOk(b) && RunsJob(b, i, ok, b')
    ensures ShapeOk(b') && |b'.pool.workers| == |b.pool.workers| && b'.total == b.total
  {
    if b.jobs[JobOf(b, i)] == Reported {
      OpKeepsOk(b.pool, EndJob(i));
    }
  }

  lemma JobKeepsStages(b: Batch, i: nat, ok: bool, b': Batch)
    requires BatchOk(b) && RunsJob(b, i, ok, b') && ShapeOk(b')
    ensures StagesOk(b')
  {
    hide ResultsOk, PoolOk;
    RunningJobTaken(b, i);
    if b.jobs[JobOf(b, i)] == Reported {
      ReturnKeepsStages(b, i, b');
    } else {
      WorkKeepsStages(b, i, ok, b');
    }
  }

  lemma ReturnKeepsStages(b: Batch, i: nat, b': Batch)
    requires ShapeOk(b) && StagesOk(b) && RunsJob(b, i, true, b') && ShapeOk(b') && b.jobs[JobOf(b, i)] == Reported
    ensures StagesOk(b')
  {
    hide PoolOk;
  }

  lemma WorkKeepsStages(b: Batch, i: nat, ok: bool, b': Batch)
    requires ShapeOk(b) && StagesOk(b) && RunsJob(b, i, ok, b') && ShapeOk(b') && b.jobs[JobOf(b, i)] != Reported
    requires JobOf(b, i) < |b.pool.takers| && b.pool.runs[JobOf(b, i)] == 0
    ensures StagesOk(b')
  {
    hide PoolOk, Do, Enabled;
  }

  lemma RunningJobTaken(b: Batch, i: nat)
    requires ShapeOk(b) && i < |b.pool.workers| && b.pool.workers[i].Running?
    ensures JobOf(b, i) < |b.pool.takers| && JobOf(b, i) < |b.pool.runs| && b.pool.runs[JobOf(b, i)] == 0
  {
  }

  lemma JobKeepsResults(b: Batch, i: nat, ok: bool, b': Batch)
    requires BatchOk(b) && RunsJob(b, i, ok, b')
    ensures ResultsOk(b')
  {
    hide StagesOk, PoolOk;
    var j := JobOf(b, i);
    if b.jobs[j].Reporting? {
      ReportKeepsResults(b, j, Result(j, b.jobs[j].outcome), b');
    } else {
      assert ReportedJobs(b'.jobs) == ReportedJobs(b.jobs);
      assert forall e: nat :: HasResult(b', e) == HasResult(b, e);
    }
  }

  lemma JobKeepsOk(b: Batch, i: nat, ok: bool, b': Batch)
    requires BatchOk(b) && RunsJob(b, i, ok, b')
    ensures BatchOk(b') && |b'.pool.workers| == |b.pool.workers| && b'.total == b.total
  {
    hide RunsJob, ShapeOk, StagesOk, ResultsOk;
    JobKeepsShape(b, i, ok, b');
    JobKeepsStages(b, i, ok, b');
    JobKeepsResults(b, i, ok, b');
  }

  lemma StepKeepsOk(b: Batch, op: BatchOp, b': Batch)
    requires BatchOk(b) && BatchStep(b, op, b')
    ensures BatchOk(b') && |b'.pool.workers| == |b.pool.workers| && b'.total == b.total
  {
    hide PoolOk, RunsJob, Submits;
    match op
    case SubmitNext => SubmitKeepsOk(b, b');
    case JobStep(i, ok) => JobKeepsOk(b, i, ok, b');
    case Shutdown =>
      OpKeepsOk(b.pool, Close);
      assert forall e: nat :: HasResult(b', e) == HasResult(b, e);
    case PoolStep(p) =>
      OpKeepsOk(b.pool, p);
      assert forall e: nat :: HasResult(b', e) == HasResult(b, e);
    case Cancel =>
      assert forall e: nat :: HasResult(b', e) == HasResult(b, e);
  }

  lemma NewBatchOk(total: nat, concurrency: int)
    ensures BatchOk(NewBatch(total, concurrency))
  {
    NewPoolOk(WorkerCount(concurrency, total), total);
    assert ReportedJobs(NewBatch(total, concurrency).jobs) == {};
  }

  lemma {:induction false} OkOnBatchRuns(bs: seq<Batch>, ops: seq<BatchOp>, total: nat, concurrency: int, k: nat)
    requires IsBatchRun(bs, ops, total, concurrency) && k < |bs|
    ensures BatchOk(bs[k]) && |bs[k].pool.workers| == WorkerCount(concurrency, total) && bs[k].total == total
  {
    hide BatchOk, BatchStep;
    if k == 0 {
      NewBatchOk(total, concurrency);
    } else {
      OkOnBatchRuns(bs, ops, total, concurrency, k - 1);
      StepKeepsOk(bs[k - 1], ops[k - 1], bs[k]);
    }
  }

  // ---- Main results ----

  /** No Submit is refused: the pool has a slot for every event of the batch. */
  lemma NoSubmitRefused(bs: seq<Batch>, ops: seq<BatchOp>, total: nat, concurrency: int, k: nat)
    requires IsBatchRun(bs, ops, total, concurrency) && k < |ops| && ops[k] == SubmitNext
    ensures !bs[k].pool.closed && !Full(bs[k].pool)
    ensures bs[k + 1].results == bs[k].results
  {
    OkOnBatchRuns(bs, ops, total, concurrency, k);
    assert BatchStep(bs[k], ops[k], bs[k + 1]);
    NeverRefused(bs[k]);
  }

  /** No send on the results channel blocks. */
  lemma ResultSendNeverBlocks(bs: seq<Batch>, ops: seq<BatchOp>, total: nat, concurrency: int, k: nat, j: nat)
    requires IsBatchRun(bs, ops, total, concurrency) && k < |bs|
    requires j < |bs[k].jobs| && bs[k].jobs[j].Reporting?
    ensures |bs[k].results| < total
  {
    OkOnBatchRuns(bs, ops, total, concurrency, k);
    ReportHasRoom(bs[k], j);
  }

  /** At most workerCount publishes are under way at once. */
  lemma PublishesBounded(bs: seq<Batch>, ops: seq<BatchOp>, total: nat, concurrency: int, k: nat)
    requires IsBatchRun(bs, ops, total, concurrency) && k < |bs|
    ensures |set j | 0 <= j < |bs[k].jobs| && bs[k].jobs[j] == InPublish| <= WorkerCount(concurrency, total)
  {
    OkOnBatchRuns(bs, ops, total, concurrency, k);
    var b := bs[k];
    var p := b.pool;
    var publishing := set j | 0 <= j < |b.jobs| && b.jobs[j] == InPublish;
    UnfinishedTaken(p, |p.workers|);
    assert p.workers[..|p.workers|] == p.workers;
    BusyAtMost(p.workers);
    SubsetSize(publishing, TakenBy(p, |p.workers|));
  }

  /** MarkPublished is called only for an event whose Publish succeeded. */
  lemma MarksOnlySent(bs: seq<Batch>, ops: seq<BatchOp>, total: nat, concurrency: int, k: nat, m: nat)
    requires IsBatchRun(bs, ops, total, concurrency) && k < |bs| && m < |bs[k].marks|
    ensures bs[k].marks[m] in bs[k].sent
  {
    OkOnBatchRuns(bs, ops, total, concurrency, k);
  }

  /** When the pool has shut down there is exactly one result for every event submitted and none for
      any other, and every event was submitted unless the context ended. */
  lemma OneResultPerEvent(bs: seq<Batch>, ops: seq<BatchOp>, total: nat, concurrency: int, k: nat, event: nat)
    requires IsBatchRun(bs, ops, total, concurrency) && k < |bs|
    requires ShutdownReturned(bs[k].pool)
    ensures ResultsFor(bs[k].results, event) == if event < bs[k].next then 1 else 0
    ensures |bs[k].results| == bs[k].next
    ensures bs[k].next == total || bs[k].canceled
  {
    OkOnBatchRuns(bs, ops, total, concurrency, k);
    ClosedMeansDone(bs, ops, total, concurrency, k);
    var b := bs[k];
    forall j: nat | j < b.next ensures b.jobs[j] == Reported {
      DrainedRanEverything(b.pool, j);
    }
    assert HasResult(b, event) <==> event < b.next;
    assert ReportedJobs(b.jobs) == Span(0, b.next);
  }

  lemma {:induction false} ClosedMeansDone(bs: seq<Batch>, ops: seq<BatchOp>, total: nat, concurrency: int, k: nat)
    requires IsBatchRun(bs, ops, total, concurrency) && k < |bs|
    ensures !bs[k].producing ==> bs[k].next == total || bs[k].canceled
    ensures bs[k].pool.closed ==> !bs[k].producing
    ensures bs[k].total == total
  {
    if k > 0 {
      ClosedMeansDone(bs, ops, total, concurrency, k - 1);
      assert BatchStep(bs[k - 1], ops[k - 1], bs[k]);
    }
  }

  // ---- What the results say ----

  /** What is known of an event's Publish and MarkPublished once its outcome is. */
  ghost predicate Outcomes(b: Batch, event: nat, outcome: Outcome) {
    && (outcome == CanceledFirst ==> b.canceled)
    && outcome != SubmitRefused
    && (event in b.published <==> outcome != CanceledFirst)
    && (event in b.sent <==> outcome in {MarkFailed, Delivered})
    && (event in b.marks <==> outcome in {MarkFailed, Delivered})
    && (event in b.marked <==> outcome == Delivered)
  }

  /** What is known of them at each stage of its job. */
  ghost predicate StageTells(b: Batch, j: nat)
    requires j < |b.jobs|
  {
    match b.jobs[j]
    case Fresh => j !in b.published && j !in b.sent && j !in b.marks && j !in b.marked
    case InPublish => j in b.published && j !in b.sent && j !in b.marks && j !in b.marked
    case InMark => j in b.published && j in b.sent && j !in b.marks && j !in b.marked
    case Reporting(outcome) => Outcomes(b, j, outcome)
    case Reported => true
  }

  ghost predicate Untouched(b: Batch, event: nat) {
    event !in b.published && event !in b.sent && event !in b.marks && event !in b.marked
  }

  ghost predicate OnceEach(s: seq<nat>) {
    forall i, j :: 0 <= i < j < |s| ==> s[i] != s[j]
  }

  ghost predicate ResultTells(b: Batch, k: nat)
    requires k < |b.results|
  {
    var r := b.results[k];
    r.event < |b.jobs| && b.jobs[r.event] == Reported && Outcomes(b, r.event, r.outcome)
  }

  ghost predicate OutcomesOk(b: Batch) {
    && (forall j :: 0 <= j < |b.jobs| ==> StageTells(b, j))
    && (forall event: nat :: event >= |b.jobs| ==> Untouched(b, event))
    && (forall k :: 0 <= k < |b.results| ==> ResultTells(b, k))
    && OnceEach(b.published)
  }

  lemma SubmitKeepsOutcomes(b: Batch, b': Batch)
    requires BatchOk(b) && OutcomesOk(b) && Submits(b, b')
    ensures OutcomesOk(b')
  {
    NeverRefused(b);
    hide BatchOk, Do;
    forall j | 0 <= j < |b'.jobs| ensures StageTells(b', j) {
      assert if j < |b.jobs| then StageTells(b, j) else Untouched(b, j);
    }
    forall k | 0 <= k < |b'.results| ensures ResultTells(b', k) {
      assert ResultTells(b, k);
    }
    forall event: nat | event >= |b'.jobs| ensures Untouched(b', event) {
      assert Untouched(b, event);
    }
  }

  /** Nothing happened to `event`. */
  ghost predicate SameCalls(b: Batch, event: nat, b': Batch) {
    && (event in b'.published <==> event in b.published) && (event in b'.sent <==> event in b.sent)
    && (event in b'.marks <==> event in b.marks) && (event in b'.marked <==> event in b.marked)
  }

  /** A job touches its own event only. */
  lemma JobTouchesOwn(b: Batch, i: nat, ok: bool, b': Batch, j: nat)
    requires RunsJob(b, i, ok, b') && j == JobOf(b, i) && b.eventOf[j] == j
    ensures |b'.jobs| == |b.jobs| && b'.canceled == b.canceled
    ensures forall e: nat :: e != j ==> SameCalls(b, e, b')
    ensures forall e: nat :: e != j && e < |b.jobs| ==> b'.jobs[e] == b.jobs[e]
    ensures b.jobs[j] == Reported ==> b'.jobs[j] == Reported && SameCalls(b, j, b')
    ensures b'.published == b.published || (b.jobs[j] == Fresh && b'.published == b.published + [j])
    ensures if b.jobs[j].Reporting? then b'.results == b.results + [Result(j, b.jobs[j].outcome)]
            else b'.results == b.results
  {
    hide Do, Enabled;
  }

  lemma JobTells(b: Batch, i: nat, ok: bool, b': Batch, j: nat)
    requires RunsJob(b, i, ok, b') && j == JobOf(b, i) && b.eventOf[j] == j && StageTells(b, j)
    ensures StageTells(b', j)
    ensures b.jobs[j].Reporting? ==> b'.jobs[j] == Reported && Outcomes(b', j, b.jobs[j].outcome)
  {
    hide Do, Enabled;
  }

  lemma JobKeepsOutcomes(b: Batch, i: nat, ok: bool, b': Batch)
    requires BatchOk(b) && OutcomesOk(b) && RunsJob(b, i, ok, b')
    ensures OutcomesOk(b')
  {
    var j := JobOf(b, i);
    assert b.eventOf[j] == j;
    hide BatchOk, Do, Enabled;
    assert StageTells(b, j);
    JobTouchesOwn(b, i, ok, b', j);
    JobTells(b, i, ok, b', j);
    hide RunsJob;
    forall e | 0 <= e < |b'.jobs| ensures StageTells(b', e) {
      assert e != j ==> StageTells(b, e) && SameCalls(b, e, b');
    }
    forall event: nat | event >= |b'.jobs| ensures Untouched(b', event) {
      assert Untouched(b, event) && SameCalls(b, event, b');
    }
    forall k | 0 <= k < |b'.results| ensures ResultTells(b', k) {
      if k < |b.results| {
        assert ResultTells(b, k) && SameCalls(b, b.results[k].event, b');
      }
    }
  }

  lemma StepKeepsOutcomes(b: Batch, op: BatchOp, b': Batch)
    requires BatchOk(b) && OutcomesOk(b) && BatchStep(b, op, b')
    ensures OutcomesOk(b')
  {
    match op
    case SubmitNext => SubmitKeepsOutcomes(b, b');
    case JobStep(i, ok) => JobKeepsOutcomes(b, i, ok, b');
    case _ => QuietKeepsOutcomes(b, b');
  }

  lemma QuietKeepsOutcomes(b: Batch, b': Batch)
    requires OutcomesOk(b) && b' == b.(pool := b'.pool, producing := b'.producing, canceled := b'.canceled)
    requires b.canceled ==> b'.canceled
    ensures OutcomesOk(b')
  {
    forall j | 0 <= j < |b'.jobs| ensures StageTells(b', j) { assert StageTells(b, j); }
    forall event: nat | event >= |b'.jobs| ensures Untouched(b', event) { assert Untouched(b, event); }
    forall k | 0 <= k < |b'.results| ensures ResultTells(b', k) { assert ResultTells(b, k); }
  }

  lemma {:induction false} OutcomesOnRuns(bs: seq<Batch>, ops: seq<BatchOp>, total: nat, concurrency: int, k: nat)
    requires IsBatchRun(bs, ops, total, concurrency) && k < |bs|
    ensures OutcomesOk(bs[k])
  {
    if k > 0 {
      hide BatchOk, OutcomesOk, BatchStep;
      OutcomesOnRuns(bs, ops, total, concurrency, k - 1);
      OkOnBatchRuns(bs, ops, total, concurrency, k - 1);
      StepKeepsOutcomes(bs[k - 1], ops[k - 1], bs[k]);
    }
  }

  /** Every result tells what happened to its event: whether Publish was called for it and returned no error, and
      whether MarkPublished was and did. A batch calls Publish at most once for an event. */
  lemma ResultsTruthful(bs: seq<Batch>, ops: seq<BatchOp>, total: nat, concurrency: int, k: nat, r: Result)
    requires IsBatchRun(bs, ops, total, concurrency) && k < |bs| && r in bs[k].results
    ensures r.outcome in {CanceledFirst, PublishFailed, MarkFailed, Delivered}
    ensures r.outcome == CanceledFirst ==> bs[k].canceled
    ensures r.event in bs[k].published <==> r.outcome != CanceledFirst
    ensures r.event in bs[k].sent <==> r.outcome == MarkFailed || r.outcome == Delivered
    ensures r.event in bs[k].marks <==> r.event in bs[k].sent
    ensures r.event in bs[k].marked <==> r.outcome == Delivered
    ensures forall i, j :: 0 <= i < j < |bs[k].published| ==> bs[k].published[i] != bs[k].published[j]
  {
    OutcomesOnRuns(bs, ops, total, concurrency, k);
    var i :| 0 <= i < |bs[k].results| && bs[k].results[i] == r;
    assert ResultTells(bs[k], i);
  }

  /** Once the context has ended the batch submits nothing more and calls Publish for nothing more. */
  lemma {:induction false} NothingPublishedAfterCancel(bs: seq<Batch>, ops: seq<BatchOp>, total: nat, concurrency: int,
                                                       k: nat, m: nat)
    requires IsBatchRun(bs, ops, total, concurrency) && k <= m < |bs| && bs[k].canceled
    ensures bs[m].canceled && bs[m].published == bs[k].published && bs[m].next == bs[k].next
    decreases m
  {
    if k < m {
      NothingPublishedAfterCancel(bs, ops, total, concurrency, k, m - 1);
      assert BatchStep(bs[m - 1], ops[m - 1], bs[m]);
    }
  }

  // ---- The batch ends ----

  function StepsLeft(stage: JobStage): nat {
    match stage
    case Fresh => 4
    case InPublish => 3
    case InMark => 2
    case Reporting(_) => 1
    case Reported => 0
  }

  function JobWork(jobs: seq<JobStage>): nat {
    if jobs == [] then 0 else JobWork(jobs[..|jobs| - 1]) + StepsLeft(jobs[|jobs| - 1])
  }

  function Remaining(b: Batch): int {
    9 * (b.total - b.next) + (if b.producing then 1 else 0) + Work(b.pool) + JobWork(b.jobs)
  }

  lemma {:induction false} JobWorkAfter(jobs: seq<JobStage>, j: nat, stage: JobStage)
    requires j < |jobs|
    ensures JobWork(jobs[j := stage]) == JobWork(jobs) + StepsLeft(stage) - StepsLeft(jobs[j])
  {
    var n := |jobs| - 1;
    if j == n {
      assert jobs[j := stage][..n] == jobs[..n];
    } else {
      JobWorkAfter(jobs[..n], j, stage);
      assert jobs[j := stage][..n] == jobs[..n][j := stage];
    }
  }

  lemma SubmitUsesWork(b: Batch, b': Batch)
    requires Submits(b, b')
    ensures Remaining(b') < Remaining(b)
  {
    assert (b.jobs + [Fresh])[..|b.jobs|] == b.jobs;
  }

  lemma JobUsesWork(b: Batch, i: nat, ok: bool, b': Batch)
    requires RunsJob(b, i, ok, b')
    ensures Remaining(b') < Remaining(b)
  {
    hide JobWork, Work;
    var j := JobOf(b, i);
    if b.jobs[j] == Reported {
      OpUsesWork(b.pool, EndJob(i));
    } else {
      JobWorkAfter(b.jobs, j, b'.jobs[j]);
      assert b'.jobs == b.jobs[j := b'.jobs[j]];
    }
  }

  lemma BatchStepUsesWork(b: Batch, op: BatchOp, b': Batch)
    requires BatchStep(b, op, b') && op != Cancel
    ensures Remaining(b') < Remaining(b)
  {
    hide Submits, RunsJob, JobWork;
    match op
    case SubmitNext => SubmitUsesWork(b, b');
    case Shutdown =>
    case PoolStep(p) => OpUsesWork(b.pool, p);
    case JobStep(i, ok) => JobUsesWork(b, i, ok, b');
  }

  /** A worker's next step: of its job, or of the pool when it has none. */
  lemma WorkerSteps(b: Batch, i: nat) returns (op: BatchOp, b': Batch)
    requires BatchOk(b) && b.pool.closed && i < |b.pool.workers| && b.pool.workers[i] != Exited
    ensures op != Cancel && BatchStep(b, op, b')
  {
    var p := WorkerCanStep(b.pool, i);
    if p == EndJob(i) {
      RunningJobTaken(b, i);
      var j := JobOf(b, i);
      op := JobStep(i, true);
      if b.jobs[j].Reporting? {
        ReportHasRoom(b, j);
      }
      b' := match b.jobs[j]
        case Fresh =>
          if b.canceled then b.(jobs := b.jobs[j := Reporting(CanceledFirst)])
          else b.(jobs := b.jobs[j := InPublish], published := b.published + [b.eventOf[j]])
        case InPublish => b.(jobs := b.jobs[j := InMark], sent := b.sent + {b.eventOf[j]})
        case InMark => b.(jobs := b.jobs[j := Reporting(Delivered)], marks := b.marks + [b.eventOf[j]],
                          marked := b.marked + {b.eventOf[j]})
        case Reporting(outcome) => b.(jobs := b.jobs[j := Reported],
                                      results := b.results + [Result(b.eventOf[j], outcome)])
        case Reported => b.(pool := Do(b.pool, p));
    } else {
      op, b' := PoolStep(p), b.(pool := Do(b.pool, p));
    }
  }

  /** The producer's next step, or the one its blocked send is waiting for. */
  lemma ProducerSteps(b: Batch) returns (op: BatchOp, b': Batch)
    requires BatchOk(b) && b.producing
    ensures op != Cancel && BatchStep(b, op, b')
  {
    if b.pool.sender.Sending? {
      var p := SendToQueue;
      if |b.pool.queue| >= b.pool.queueSize {
        var w := SomeoneFree(b.pool.workers);
        p := if b.pool.queue == [] then SendToWorker(w) else Receive(w);
      }
      op, b' := PoolStep(p), b.(pool := Do(b.pool, p));
    } else if b.next == b.total || b.canceled {
      op, b' := Shutdown, b.(producing := false, pool := Do(b.pool, Close));
    } else {
      NeverRefused(b);
      op := SubmitNext;
      b' := b.(pool := Do(b.pool, TakeSlot), next := b.next + 1, eventOf := b.eventOf + [b.next],
               jobs := b.jobs + [Fresh]);
    }
  }

  /** Until Shutdown has returned some step is possible, and every step but a cancellation uses up what
      remains: a batch ends, as soon as its publish and mark calls do. */
  lemma BatchProgress(bs: seq<Batch>, ops: seq<BatchOp>, total: nat, concurrency: int, k: nat)
    requires IsBatchRun(bs, ops, total, concurrency) && k < |bs|
    ensures ShutdownReturned(bs[k].pool) || exists op, b' :: op != Cancel && BatchStep(bs[k], op, b')
    ensures forall op, b' :: op != Cancel && BatchStep(bs[k], op, b') ==> 0 <= Remaining(b') < Remaining(bs[k])
  {
    OkOnBatchRuns(bs, ops, total, concurrency, k);
    var b := bs[k];
    if b.producing {
      var op, b' := ProducerSteps(b);
      assert BatchStep(b, op, b');
    } else if !ShutdownReturned(b.pool) {
      var w :| 0 <= w < |b.pool.workers| && b.pool.workers[w] != Exited;
      var op, b' := WorkerSteps(b, w);
      assert BatchStep(b, op, b');
    }
    forall op, b' | op != Cancel && BatchStep(b, op, b') ensures 0 <= Remaining(b') < Remaining(b) {
      BatchStepUsesWork(b, op, b');
      StepKeepsOk(b, op, b');
    }
  }
}
