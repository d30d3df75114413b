// Lease-based delivery of outbox rows (internal/repository/postgres/events.go,
// internal/service/outbox_worker.go): any number of workers claim rows under a
// 30-second lease, publish each claimed row at most once per claim, then mark it.
// Every statement is one step; workers may fail or die after any of them.

module OutboxDelivery {

  datatype Lease = NoTime | Until(at: int)

  /** The claim columns of an outbox row; `publishedAt` doubles as the end of the lease. */
  datatype OutboxRow = OutboxRow(createdAt: int, published: bool, publishedAt: Lease)

  /** 30 seconds, in the microseconds the claim statement adds. */
  const LEASE := 30_000_000

  predicate Claimable(row: OutboxRow, now: int) {
    !row.published && (row.publishedAt == NoTime || row.publishedAt.at <= now)
  }

  function Claimed(row: OutboxRow, now: int): OutboxRow {
    row.(publishedAt := Until(now + LEASE))
  }

  function Marked(row: OutboxRow, now: int): OutboxRow {
    row.(published := true, publishedAt := Until(now))
  }

  function InsertedRow(createdAt: int): OutboxRow {
    OutboxRow(createdAt, false, NoTime)
  }

  // ---- Any number of workers over one table and one clock ----

  /** What became of one claimed row: publish is called at most once, mark only after it succeeded. */
  datatype Stage = Held | Publishing | Sent | Over

  datatype Task = Task(row: nat, claimedAt: int, stage: Stage)

  datatype Delivery = Delivery(
    now: int, rows: seq<OutboxRow>, tasks: seq<Task>,
    calls: seq<nat>,      // the row of every Publish call, in order
    acked: set<nat>)      // rows with a successful Publish

  datatype Move =
    | Pass(elapsed: nat)
    | Insert(createdAt: int)
    | ClaimRow(row: nat)
    | BeginPublish(task: nat)
    | EndPublish(task: nat, ok: bool)
    | MarkPublished(task: nat, ok: bool)
    | Abandon(task: nat)

  ghost predicate Moves(d: Delivery, m: Move, d': Delivery) {
    match m
    case Pass(elapsed) => d' == d.(now := d.now + elapsed)
    case Insert(createdAt) => d' == d.(rows := d.rows + [InsertedRow(createdAt)])
    case ClaimRow(i) =>
      // A batch claim is any run of these at one clock reading; rows locked by another claim are skipped.
      && i < |d.rows| && Claimable(d.rows[i], d.now)
      && d' == d.(rows := d.rows[i := Claimed(d.rows[i], d.now)], tasks := d.tasks + [Task(i, d.now, Held)])
    case BeginPublish(k) =>
      && k < |d.tasks| && d.tasks[k].stage == Held
      && d' == d.(tasks := d.tasks[k := d.tasks[k].(stage := Publishing)], calls := d.calls + [d.tasks[k].row])
    case EndPublish(k, ok) =>
      && k < |d.tasks| && d.tasks[k].stage == Publishing
      && d' == d.(tasks := d.tasks[k := d.tasks[k].(stage := if ok then Sent else Over)],
                  acked := if ok then d.acked + {d.tasks[k].row} else d.acked)
    case MarkPublished(k, ok) =>
      && k < |d.tasks| && d.tasks[k].stage == Sent && d.tasks[k].row < |d.rows|
      && d' == d.(tasks := d.tasks[k := d.tasks[k].(stage := Over)],
                  rows := if ok then d.rows[d.tasks[k].row := Marked(d.rows[d.tasks[k].row], d.now)] else d.rows)
    case Abandon(k) =>
      k < |d.tasks| && d' == d.(tasks := d.tasks[k := d.tasks[k].(stage := Over)])
  }

  ghost predicate Start(d: Delivery) {
    d.rows == [] && d.tasks == [] && d.calls == [] && d.acked == {}
  }

  ghost predicate IsHistory(ds: seq<Delivery>, moves: seq<Move>) {
    && |ds| == |moves| + 1 && Start(ds[0])
    && forall i :: 0 <= i < |moves| ==> Moves(ds[i], moves[i], ds[i + 1])
  }

  // ---- Lease spacing ----

  /** Claim times of one row, oldest first. */
  ghost function ClaimTimes(tasks: seq<Task>, row: nat): seq<int> {
    if tasks == [] then []
    else
      var last := tasks[|tasks| - 1];
      ClaimTimes(tasks[..|tasks| - 1], row) + if last.row == row then [last.claimedAt] else []
  }

  ghost predicate Spaced(ts: seq<int>) {
    forall i :: 0 < i < |ts| ==> ts[i] >= ts[i - 1] + LEASE
  }

  /** How many tasks of `row` have called Publish, or might have. */
  ghost function Released(tasks: seq<Task>, row: nat): nat {
    if tasks == [] then 0
    else
      var last := tasks[|tasks| - 1];
      Released(tasks[..|tasks| - 1], row) + if last.row == row && last.stage != Held then 1 else 0
  }

  ghost function CallsOf(calls: seq<nat>, row: nat): nat {
    if calls == [] then 0
    else CallsOf(calls[..|calls| - 1], row) + if calls[|calls| - 1] == row then 1 else 0
  }

  /** The claim column of a row, as its claim times determine it. */
  ghost predicate RowFollowsClaims(row: OutboxRow, ts: seq<int>, now: int) {
    && Spaced(ts)
    && (ts != [] ==> ts[|ts| - 1] <= now)
    && (!row.published ==> row.publishedAt == if ts == [] then NoTime else Until(ts[|ts| - 1] + LEASE))
  }

  ghost predicate RowOk(d: Delivery, i: nat)
    requires i < |d.rows|
  {
    && RowFollowsClaims(d.rows[i], ClaimTimes(d.tasks, i), d.now)
    && (d.rows[i].published ==> i in d.acked)
  }

  ghost predicate CallsCovered(d: Delivery, i: nat) {
    CallsOf(d.calls, i) <= Released(d.tasks, i)
  }

  ghost predicate TaskOk(d: Delivery, k: nat)
    requires k < |d.tasks|
  {
    && d.tasks[k].row < |d.rows|
    && (d.tasks[k].stage == Sent ==> d.tasks[k].row in d.acked)
  }

  ghost predicate DeliveryOk(d: Delivery) {
    && (forall k :: 0 <= k < |d.tasks| ==> TaskOk(d, k))
    && (forall k :: 0 <= k < |d.calls| ==> d.calls[k] < |d.rows|)
    && (forall i :: 0 <= i < |d.rows| ==> RowOk(d, i))
    && (forall i: nat :: CallsCovered(d, i))
  }

  lemma {:induction false} StageChange(tasks: seq<Task>, k: nat, stage: Stage, row: nat)
    requires k < |tasks|
    ensures var tasks' := tasks[k := tasks[k].(stage := stage)];
            && ClaimTimes(tasks', row) == ClaimTimes(tasks, row)
            && (tasks[k].row == row && tasks[k].stage == Held && stage != Held ==>
                Released(tasks', row) == Released(tasks, row) + 1)
            && ((tasks[k].row != row || (tasks[k].stage != Held && stage != Held)) ==>
                Released(tasks', row) == Released(tasks, row))
  {
    var tasks' := tasks[k := tasks[k].(stage := stage)];
    var n := |tasks| - 1;
    if k == n {
      assert tasks'[..n] == tasks[..n];
    } else {
      StageChange(tasks[..n], k, stage, row);
      assert tasks'[..n] == tasks[..n][k := tasks[k].(stage := stage)];
    }
  }

  lemma {:induction false} NoClaimsYet(tasks: seq<Task>, row: nat)
    requires forall k :: 0 <= k < |tasks| ==> tasks[k].row < row
    ensures ClaimTimes(tasks, row) == [] && Released(tasks, row) == 0
  {
    if tasks != [] {
      NoClaimsYet(tasks[..|tasks| - 1], row);
    }
  }

  lemma NewTask(tasks: seq<Task>, t: Task, row: nat)
    ensures ClaimTimes(tasks + [t], row) == ClaimTimes(tasks, row) + if t.row == row then [t.claimedAt] else []
    ensures Released(tasks + [t], row) == Released(tasks, row) + if t.row == row && t.stage != Held then 1 else 0
  {
    assert (tasks + [t])[..|tasks|] == tasks;
  }

  lemma NewCall(calls: seq<nat>, c: nat, row: nat)
    ensures CallsOf(calls + [c], row) == CallsOf(calls, row) + if c == row then 1 else 0
  {
    assert (calls + [c])[..|calls|] == calls;
  }

  lemma TaskMoveKeepsRow(d: Delivery, m: Move, d': Delivery, i: nat)
    requires DeliveryOk(d) && Moves(d, m, d') && i < |d'.rows|
    requires m.BeginPublish? || m.EndPublish? || m.MarkPublished? || m.Abandon?
    ensures RowOk(d', i)
  {
    hide ClaimTimes, CallsCovered, Spaced;
    assert RowOk(d, i) && TaskOk(d, m.task);
    StageChange(d.tasks, m.task, d'.tasks[m.task].stage, i);
    assert ClaimTimes(d'.tasks, i) == ClaimTimes(d.tasks, i);
  }

  lemma MoveKeepsRow(d: Delivery, m: Move, d': Delivery, i: nat)
    requires DeliveryOk(d) && Moves(d, m, d') && i < |d'.rows|
    ensures RowOk(d', i)
  {
    hide ClaimTimes, CallsCovered;
    match m
    case Pass(_) => assert RowOk(d, i);
    case Insert(_) => InsertKeepsRow(d, d', i);
    case ClaimRow(j) =>
      NewTask(d.tasks, Task(j, d.now, Held), i);
      assert RowOk(d, i);
    case _ => TaskMoveKeepsRow(d, m, d', i);
  }

  lemma InsertKeepsRow(d: Delivery, d': Delivery, i: nat)
    requires DeliveryOk(d) && i < |d'.rows| && |d'.rows| == |d.rows| + 1 && d' == d.(rows := d'.rows)
    requires d'.rows[..|d.rows|] == d.rows && exists c :: d'.rows[|d.rows|] == InsertedRow(c)
    ensures RowOk(d', i)
  {
    hide ClaimTimes, CallsCovered;
    if i == |d.rows| {
      forall k | 0 <= k < |d.tasks| ensures d.tasks[k].row < i { assert TaskOk(d, k); }
      NoClaimsYet(d.tasks, i);
    } else {
      assert RowOk(d, i) && d'.rows[..|d.rows|][i] == d.rows[i];
    }
  }

  lemma MoveKeepsCalls(d: Delivery, m: Move, d': Delivery, i: nat)
    requires DeliveryOk(d) && Moves(d, m, d')
    ensures CallsCovered(d', i)
  {
    assert CallsCovered(d, i);
    match m
    case Pass(_) =>
    case Insert(_) =>
    case ClaimRow(j) => NewTask(d.tasks, Task(j, d.now, Held), i);
    case BeginPublish(k) =>
      NewCall(d.calls, d.tasks[k].row, i);
      StageChange(d.tasks, k, Publishing, i);
    case _ => StageChange(d.tasks, m.task, d'.tasks[m.task].stage, i);
  }

  lemma MoveKeepsTask(d: Delivery, m: Move, d': Delivery, k: nat)
    requires DeliveryOk(d) && Moves(d, m, d') && k < |d'.tasks|
    ensures TaskOk(d', k)
  {
    assert k < |d.tasks| ==> TaskOk(d, k);
  }

  lemma MoveKeepsOk(d: Delivery, m: Move, d': Delivery)
    requires DeliveryOk(d) && Moves(d, m, d')
    ensures DeliveryOk(d')
  {
    forall k | 0 <= k < |d'.tasks| ensures TaskOk(d', k) { MoveKeepsTask(d, m, d', k); }
    forall i | 0 <= i < |d'.rows| ensures RowOk(d', i) { MoveKeepsRow(d, m, d', i); }
    forall i: nat ensures CallsCovered(d', i) { MoveKeepsCalls(d, m, d', i); }
    assert m.BeginPublish? ==> TaskOk(d, m.task);
  }

  lemma {:induction false} OkOnHistories(ds: seq<Delivery>, moves: seq<Move>, i: nat)
    requires IsHistory(ds, moves) && i < |ds|
    ensures DeliveryOk(ds[i])
  {
    if i > 0 {
      OkOnHistories(ds, moves, i - 1);
      MoveKeepsOk(ds[i - 1], moves[i - 1], ds[i]);
    }
  }

  // ---- Main results ----

  /** Successive claims of one row are at least a lease apart. */
  lemma ClaimsSpaced(ds: seq<Delivery>, moves: seq<Move>, i: nat, row: nat, a: nat, b: nat)
    requires IsHistory(ds, moves) && i < |ds| && row < |ds[i].rows|
    requires a < b < |ClaimTimes(ds[i].tasks, row)|
    ensures var ts := ClaimTimes(ds[i].tasks, row); ts[b] >= ts[a] + (b - a) * 30_000_000
  {
    OkOnHistories(ds, moves, i);
    assert RowOk(ds[i], row);
    SpacedGrows(ClaimTimes(ds[i].tasks, row), a, b);
  }

  lemma {:induction false} SpacedGrows(ts: seq<int>, a: nat, b: nat)
    requires Spaced(ts) && a <= b < |ts|
    ensures ts[b] >= ts[a] + (b - a) * LEASE
    decreases b
  {
    if a < b {
      SpacedGrows(ts, a, b - 1);
    }
  }

  lemma {:induction false} ReleasedBounded(tasks: seq<Task>, row: nat)
    ensures Released(tasks, row) <= |ClaimTimes(tasks, row)|
  {
    if tasks != [] {
      ReleasedBounded(tasks[..|tasks| - 1], row);
    }
  }

  /** By time T a row first claimed at t0 has had at most 1 + floor((T - t0) / 30 s) Publish calls. */
  lemma DuplicatesBounded(ds: seq<Delivery>, moves: seq<Move>, i: nat, row: nat)
    requires IsHistory(ds, moves) && i < |ds| && row < |ds[i].rows|
    ensures var ts, calls := ClaimTimes(ds[i].tasks, row), CallsOf(ds[i].calls, row);
            if ts == [] then calls == 0 else calls <= 1 + (ds[i].now - ts[0]) / 30_000_000
  {
    OkOnHistories(ds, moves, i);
    var ts := ClaimTimes(ds[i].tasks, row);
    ReleasedBounded(ds[i].tasks, row);
    assert RowOk(ds[i], row) && CallsCovered(ds[i], row);
    if ts != [] {
      SpacedGrows(ts, 0, |ts| - 1);
    }
  }

  /** A row can be claimed exactly when it is unpublished and its last claim, if any, is 30 s old:
      whatever failed in between, no row is lost. */
  lemma ClaimableAgain(ds: seq<Delivery>, moves: seq<Move>, i: nat, row: nat, at: int)
    requires IsHistory(ds, moves) && i < |ds| && row < |ds[i].rows|
    ensures var ts := ClaimTimes(ds[i].tasks, row);
            Claimable(ds[i].rows[row], at)
            <==> !ds[i].rows[row].published && (ts == [] || at >= ts[|ts| - 1] + 30_000_000)
  {
    OkOnHistories(ds, moves, i);
    assert RowOk(ds[i], row);
  }

  lemma MoveKeepsPublished(d: Delivery, m: Move, d': Delivery, row: nat)
    requires Moves(d, m, d') && row < |d.rows| && d.rows[row].published
    ensures row < |d'.rows| && d'.rows[row].published && ClaimTimes(d'.tasks, row) == ClaimTimes(d.tasks, row)
  {
    match m
    case Pass(_) =>
    case Insert(_) =>
    case ClaimRow(j) => NewTask(d.tasks, Task(j, d.now, Held), row);
    case _ => StageChange(d.tasks, m.task, d'.tasks[m.task].stage, row);
  }

  /** Once published, a row stays published and is never claimed again. */
  lemma {:induction false} PublishedNeverClaimed(ds: seq<Delivery>, moves: seq<Move>, i: nat, j: nat, row: nat)
    requires IsHistory(ds, moves) && i <= j < |ds| && row < |ds[i].rows| && ds[i].rows[row].published
    ensures row < |ds[j].rows| && ds[j].rows[row].published
    ensures ClaimTimes(ds[j].tasks, row) == ClaimTimes(ds[i].tasks, row)
  {
    hide Moves, ClaimTimes;
    if i < j {
      PublishedNeverClaimed(ds, moves, i, j - 1, row);
      MoveKeepsPublished(ds[j - 1], moves[j - 1], ds[j], row);
    }
  }

  /** published = TRUE only after a successful Publish of that very row. */
  lemma PublishedWasAcked(ds: seq<Delivery>, moves: seq<Move>, i: nat, row: nat)
    requires IsHistory(ds, moves) && i < |ds| && row < |ds[i].rows| && ds[i].rows[row].published
    ensures row in ds[i].acked
  {
    OkOnHistories(ds, moves, i);
    assert RowOk(ds[i], row);
  }

  /** A MarkPublished that works ends the row's delivery: it is published and never claimed again. */
  lemma MarkSettles(ds: seq<Delivery>, moves: seq<Move>, i: nat, j: nat)
    requires IsHistory(ds, moves) && i < j < |ds| && moves[i].MarkPublished? && moves[i].ok
    ensures moves[i].task < |ds[i].tasks|
    ensures var row := ds[i].tasks[moves[i].task].row;
            && row < |ds[j].rows| && ds[j].rows[row].published
            && ClaimTimes(ds[j].tasks, row) == ClaimTimes(ds[i].tasks, row)
  {
    assert Moves(ds[i], moves[i], ds[i + 1]);
    var row := ds[i].tasks[moves[i].task].row;
    StageChange(ds[i].tasks, moves[i].task, Over, row);
    PublishedNeverClaimed(ds, moves, i + 1, j, row);
  }

  lemma MoveKeepsBirths(d: Delivery, m: Move, d': Delivery)
    requires Moves(d, m, d')
    ensures |d.rows| <= |d'.rows|
    ensures forall row :: 0 <= row < |d.rows| ==> d'.rows[row].createdAt == d.rows[row].createdAt
  {
  }

  /** A row inserted as created at `createdAt` can be claimed at once, and keeps its place and that time for good: no
      claim, mark or crash makes it older or younger than it is. */
  lemma {:induction false} InsertedStays(ds: seq<Delivery>, moves: seq<Move>, i: nat, j: nat)
    requires IsHistory(ds, moves) && i < j < |ds| && moves[i].Insert?
    ensures |ds[i].rows| < |ds[j].rows| && ds[j].rows[|ds[i].rows|].createdAt == moves[i].createdAt
    ensures |ds[i].rows| < |ds[i + 1].rows| && Claimable(ds[i + 1].rows[|ds[i].rows|], ds[i].now)
    decreases j
  {
    assert Moves(ds[i], moves[i], ds[i + 1]);
    if j > i + 1 {
      InsertedStays(ds, moves, i, j - 1);
      hide Moves;
      MoveKeepsBirths(ds[j - 1], moves[j - 1], ds[j]);
    }
  }
}
