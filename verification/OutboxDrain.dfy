// One worker draining the outbox: the claim statement as the repository issues it
// (internal/repository/postgres/events.go), a batch without errors
// (internal/service/outbox_worker.go), and how many rounds empty the table.

module OutboxDrain {
  import opened OutboxDelivery

  ghost function ClaimableIds(rows: seq<OutboxRow>, now: int): set<nat> {
    set i | 0 <= i < |rows| && Claimable(rows[i], now)
  }

  ghost function Unpublished(rows: seq<OutboxRow>): set<nat> {
    set i | 0 <= i < |rows| && !rows[i].published
  }

  ghost function Ids(s: seq<nat>): set<nat> {
    set i | i in s
  }

  function Min(a: nat, b: nat): nat {
    if a < b then a else b
  }

  /** No row left behind was created before one that was taken. */
  ghost predicate OldestFirst(rows: seq<OutboxRow>, taken: set<nat>, left: set<nat>) {
    forall c, u :: c in taken && u in left && c < |rows| && u < |rows| ==> rows[c].createdAt <= rows[u].createdAt
  }

  /** What the claim statement does: the oldest claimable rows, at most `limit` of them, leased. */
  ghost predicate Claims(rows: seq<OutboxRow>, limit: nat, now: int, ids: set<nat>, rows': seq<OutboxRow>) {
    && |rows'| == |rows| && ids <= ClaimableIds(rows, now)
    && |ids| == Min(limit, |ClaimableIds(rows, now)|)
    && OldestFirst(rows, ids, ClaimableIds(rows, now) - ids)
    && forall i :: 0 <= i < |rows| ==> rows'[i] == if i in ids then Claimed(rows[i], now) else rows[i]
  }

  /** What an error-free batch does: the oldest claimable rows, published and marked, and nothing else. */
  ghost predicate Round(rows: seq<OutboxRow>, batchSize: nat, now: int, rows': seq<OutboxRow>) {
    && |rows'| == |rows|
    && var done := Unpublished(rows) - Unpublished(rows');
       && done <= ClaimableIds(rows, now) && |done| == Min(batchSize, |ClaimableIds(rows, now)|)
       && OldestFirst(rows, done, ClaimableIds(rows, now) - done)
       && (forall i :: 0 <= i < |rows| ==>
             rows'[i].createdAt == rows[i].createdAt && (i !in done ==> rows'[i] == rows[i]))
  }

  class OutboxRepo {
    var rows: seq<OutboxRow>

    constructor ()
      ensures rows == []
    {
      rows := [];
    }

    method Create(createdAt: int)
      modifies this
      ensures rows == old(rows) + [OutboxRow(createdAt, false, NoTime)]
    {
      rows := rows + [OutboxRow(createdAt, false, NoTime)];
    }

    method MarkPublished(id: nat, now: int)
      modifies this
      ensures rows == if id < |old(rows)| then old(rows)[id := OutboxRow(old(rows)[id].createdAt, true, Until(now))]
                      else old(rows)
    {
      if id < |rows| {
        rows := rows[id := rows[id].(published := true, publishedAt := Until(now))];
      }
    }

    /** ORDER BY created_at: the oldest row that can be claimed now. */
    method Oldest(now: int) returns (found: bool, best: nat)
      ensures found ==> best in ClaimableIds(rows, now) && OldestFirst(rows, {best}, ClaimableIds(rows, now))
      ensures !found ==> ClaimableIds(rows, now) == {}
    {
      found, best := false, 0;
      for i := 0 to |rows|
        invariant found ==> best < i && Claimable(rows[best], now)
        invariant forall j :: 0 <= j < i && Claimable(rows[j], now) ==>
                    found && rows[best].createdAt <= rows[j].createdAt
      {
        if Claimable(rows[i], now) && (!found || rows[i].createdAt < rows[best].createdAt) {
          found, best := true, i;
        }
      }
    }

    method FetchUnpublished(limit: nat, now: int) returns (ids: seq<nat>)
      modifies this
      ensures Claims(old(rows), limit, now, Ids(ids), rows)
      ensures |Ids(ids)| == |ids|
    {
      ids := [];
      ghost var claimed: set<nat> := {};
      while |ids| < limit
        invariant claimed == Ids(ids)
        invariant |claimed| == |ids| <= limit
        invariant |rows| == |old(rows)| && claimed <= ClaimableIds(old(rows), now)
        invariant forall i :: 0 <= i < |rows| ==> rows[i] == if i in claimed then Claimed(old(rows)[i], now)
            else old(rows)[i]
        invariant OldestFirst(old(rows), claimed, ClaimableIds(old(rows), now) - claimed)
      {
        assert ClaimableIds(rows, now) == ClaimableIds(old(rows), now) - claimed;
        var found, best := Oldest(now);
        if !found {
          break;
        }
        rows := rows[best := rows[best].(publishedAt := Until(now + LEASE))];
        ids := ids + [best];
        claimed := claimed + {best};
      }
      SubsetCount(claimed, ClaimableIds(old(rows), now));
    }
  }

  lemma SubsetCount(a: set<nat>, b: set<nat>)
    requires a <= b
    ensures |a| <= |b| && (|a| == |b| ==> a == b)
  {
    assert b == a + (b - a);
  }

  /** processBatch with a publisher and a database that do not fail. */
  method ProcessBatch(repo: OutboxRepo, batchSize: nat, now: int) returns (published: seq<nat>)
    modifies repo
    ensures Round(old(repo.rows), batchSize, now, repo.rows)
    ensures Ids(published) == Unpublished(old(repo.rows)) - Unpublished(repo.rows)
    ensures |Ids(published)| == |published|
  {
    ghost var start := repo.rows;
    published := repo.FetchUnpublished(batchSize, now);
    ghost var leased := repo.rows;
    ghost var ids := Ids(published);
    for k := 0 to |published|
      invariant |repo.rows| == |start|
      invariant forall i :: 0 <= i < |start| ==>
        repo.rows[i] == if i in published[..k] then Marked(leased[i], now) else leased[i]
    {
      repo.MarkPublished(published[k], now);
      assert published[..k + 1] == published[..k] + [published[k]];
    }
    assert published[..|published|] == published;
    assert Unpublished(start) - Unpublished(repo.rows) == ids;
  }

  // ---- Rounds in a row ----

  /** Error-free rounds of one worker with no inserts; the clock never runs backwards. */
  ghost predicate IsDrain(tables: seq<seq<OutboxRow>>, times: seq<int>, batchSize: nat) {
    && |tables| == |times| + 1
    && (forall i :: 0 <= i < |times| ==> Round(tables[i], batchSize, times[i], tables[i + 1]))
    && (forall i, j :: 0 <= i <= j < |times| ==> times[i] <= times[j])
  }

  ghost predicate AllClaimable(rows: seq<OutboxRow>, now: int) {
    forall i :: 0 <= i < |rows| && !rows[i].published ==> Claimable(rows[i], now)
  }

  /** One round: the claimed rows are published, every other row is as it was. */
  lemma RoundFacts(rows: seq<OutboxRow>, batchSize: nat, now: int, rows': seq<OutboxRow>)
    requires Round(rows, batchSize, now, rows')
    ensures var done := Unpublished(rows) - Unpublished(rows');
            && Unpublished(rows') == Unpublished(rows) - done && done <= ClaimableIds(rows, now)
            && |Unpublished(rows)| == |Unpublished(rows')| + |done|
            && (|ClaimableIds(rows, now)| <= batchSize ==> done == ClaimableIds(rows, now))
    ensures forall i :: i in Unpublished(rows') ==> i in Unpublished(rows) && rows'[i] == rows[i]
  {
    var done := Unpublished(rows) - Unpublished(rows');
    forall i | i in Unpublished(rows') ensures i in Unpublished(rows) && rows'[i] == rows[i] {
      assert i !in done;
    }
    SubsetCount(done, ClaimableIds(rows, now));
    assert Unpublished(rows) == Unpublished(rows') + done;
  }

  /** The rows that could be claimed at the start and are still there: they can still be claimed. */
  ghost function Waiting(tables: seq<seq<OutboxRow>>, times: seq<int>, k: nat): set<nat>
    requires k < |tables| && 0 < |times|
  {
    ClaimableIds(tables[0], times[0]) * Unpublished(tables[k])
  }

  lemma {:induction false} DrainFrame(tables: seq<seq<OutboxRow>>, times: seq<int>, batchSize: nat, k: nat)
    requires IsDrain(tables, times, batchSize) && k <= |times|
    ensures |tables[k]| == |tables[0]| && Unpublished(tables[k]) <= Unpublished(tables[0])
    ensures forall i :: 0 <= i < |tables[0]| ==> tables[k][i].createdAt == tables[0][i].createdAt
    ensures forall i :: i in Unpublished(tables[k]) ==> tables[k][i] == tables[0][i]
  {
    if k > 0 {
      DrainFrame(tables, times, batchSize, k - 1);
      assert Round(tables[k - 1], batchSize, times[k - 1], tables[k]);
      RoundFacts(tables[k - 1], batchSize, times[k - 1], tables[k]);
    }
  }

  lemma WaitingClaimable(tables: seq<seq<OutboxRow>>, times: seq<int>, batchSize: nat, k: nat)
    requires IsDrain(tables, times, batchSize) && k < |times|
    ensures Waiting(tables, times, k) <= ClaimableIds(tables[k], times[k])
  {
    DrainFrame(tables, times, batchSize, k);
    assert times[0] <= times[k];
  }

  lemma {:induction false} DrainCount(tables: seq<seq<OutboxRow>>, times: seq<int>, batchSize: nat, k: nat)
    requires IsDrain(tables, times, batchSize) && k <= |times| && 0 < |times|
    ensures var published := |Unpublished(tables[0])| - |Unpublished(tables[k])|;
            0 <= published <= k * batchSize && (k * batchSize <= published || Waiting(tables, times, k) == {})
  {
    if k > 0 {
      DrainCount(tables, times, batchSize, k - 1);
      WaitingClaimable(tables, times, batchSize, k - 1);
      RoundCounts(tables[k - 1], batchSize, times[k - 1], tables[k], Waiting(tables, times, k - 1));
      OneRoundMore(k, batchSize);
      hide IsDrain, Unpublished, ClaimableIds;
    }
  }

  lemma OneRoundMore(k: nat, batchSize: nat)
    requires k > 0
    ensures k * batchSize == (k - 1) * batchSize + batchSize >= batchSize
  {
  }

  /** One round publishes a full batch, or every row that waits. */
  lemma RoundCounts(rows: seq<OutboxRow>, batchSize: nat, now: int, rows': seq<OutboxRow>, waiting: set<nat>)
    requires Round(rows, batchSize, now, rows') && waiting <= ClaimableIds(rows, now)
    ensures Unpublished(rows') <= Unpublished(rows)
    ensures 0 <= |Unpublished(rows)| - |Unpublished(rows')| <= batchSize
    ensures |Unpublished(rows)| - |Unpublished(rows')| == batchSize || waiting <= Unpublished(rows) - Unpublished(rows')
  {
    RoundFacts(rows, batchSize, now, rows');
  }

  lemma {:induction false} DrainOldestFirst(tables: seq<seq<OutboxRow>>, times: seq<int>, batchSize: nat, k: nat)
    requires IsDrain(tables, times, batchSize) && k <= |times| && 0 < |times|
    ensures OldestFirst(tables[0], Unpublished(tables[0]) - Unpublished(tables[k]), Waiting(tables, times, k))
  {
    if k > 0 {
      DrainFrame(tables, times, batchSize, k - 1);
      DrainOldestFirst(tables, times, batchSize, k - 1);
      WaitingClaimable(tables, times, batchSize, k - 1);
      assert Round(tables[k - 1], batchSize, times[k - 1], tables[k]);
      RoundFacts(tables[k - 1], batchSize, times[k - 1], tables[k]);
      var before, prev, left := tables[0], Unpublished(tables[k - 1]), Unpublished(tables[k]);
      forall c, u | c in Unpublished(before) - left && u in Waiting(tables, times, k)
        ensures before[c].createdAt <= before[u].createdAt
      {
        assert u in Waiting(tables, times, k - 1) && u !in prev - left;
        if c in prev {
          assert tables[k - 1][c].createdAt <= tables[k - 1][u].createdAt;
        }
      }
    }
  }

  /** From any table, with N rows claimable at the start: k rounds publish at least min(N, k * batchSize) rows and at
      most k * batchSize, and none of them was created after one of the N that is left. When no unpublished row is
      leased at the start, they publish exactly min(N, k * batchSize). */
  lemma DrainBound(tables: seq<seq<OutboxRow>>, times: seq<int>, batchSize: nat, k: nat)
    requires IsDrain(tables, times, batchSize) && k <= |times| && 0 < |times|
    ensures var claimable, left := ClaimableIds(tables[0], times[0]), Unpublished(tables[k]);
            var published := Unpublished(tables[0]) - left;
            && left <= Unpublished(tables[0])
            && Min(|claimable|, k * batchSize) <= |published| <= k * batchSize
            && OldestFirst(tables[0], published, claimable * left)
            && (AllClaimable(tables[0], times[0]) ==> |published| == Min(|claimable|, k * batchSize))
  {
    DrainFrame(tables, times, batchSize, k);
    DrainCount(tables, times, batchSize, k);
    DrainOldestFirst(tables, times, batchSize, k);
    ClaimableUnpublished(tables[0], times[0]);
    hide IsDrain, OldestFirst, ClaimableIds, Unpublished, AllClaimable;
    Counted(Unpublished(tables[0]), Unpublished(tables[k]), ClaimableIds(tables[0], times[0]), k * batchSize);
  }

  lemma Counted(all: set<nat>, left: set<nat>, claimable: set<nat>, bound: nat)
    requires left <= all && claimable <= all && |all| - |left| <= bound
    requires bound <= |all| - |left| || claimable * left == {}
    ensures Min(|claimable|, bound) <= |all - left| <= bound
    ensures claimable == all ==> |all - left| == Min(|claimable|, bound)
  {
    assert all == (all - left) + left;
    if claimable * left == {} {
      assert claimable <= all - left;
      SubsetCount(claimable, all - left);
    }
    SubsetCount(all - left, all);
  }

  lemma ClaimableUnpublished(rows: seq<OutboxRow>, now: int)
    ensures ClaimableIds(rows, now) <= Unpublished(rows)
    ensures AllClaimable(rows, now) ==> ClaimableIds(rows, now) == Unpublished(rows)
  {
  }

  lemma EnoughRounds(n: nat, batchSize: nat, rounds: nat)
    requires batchSize > 0 && rounds >= (n + batchSize - 1) / batchSize
    ensures rounds * batchSize >= n
  {
    var q := (n + batchSize - 1) / batchSize;
    assert n + batchSize - 1 < q * batchSize + batchSize;
    assert (rounds - q) * batchSize >= 0;
    assert rounds * batchSize == q * batchSize + (rounds - q) * batchSize;
  }

  /** With U unpublished rows, ceil(U / batchSize) rounds publish every row that could be claimed at the start; when
      that was every unpublished row, they empty the table. */
  lemma DrainFinishes(tables: seq<seq<OutboxRow>>, times: seq<int>, batchSize: nat)
    requires IsDrain(tables, times, batchSize) && batchSize > 0 && 0 < |times|
    requires |times| >= (|Unpublished(tables[0])| + batchSize - 1) / batchSize
    ensures ClaimableIds(tables[0], times[0]) * Unpublished(tables[|times|]) == {}
    ensures AllClaimable(tables[0], times[0]) ==> Unpublished(tables[|times|]) == {}
  {
    var n := |times|;
    DrainFrame(tables, times, batchSize, n);
    DrainCount(tables, times, batchSize, n);
    EnoughRounds(|Unpublished(tables[0])|, batchSize, n);
    if AllClaimable(tables[0], times[0]) {
      assert ClaimableIds(tables[0], times[0]) == Unpublished(tables[0]);
    }
  }

  /** Leases of dead workers do not last: 30 s after its last claim every unpublished row can be claimed. */
  lemma ClaimableOnceLeasesEnd(ds: seq<Delivery>, moves: seq<Move>, i: nat, at: int)
    requires IsHistory(ds, moves) && i < |ds|
    requires forall row: nat :: row < |ds[i].rows| ==>
               var ts := ClaimTimes(ds[i].tasks, row); ts == [] || at >= ts[|ts| - 1] + 30_000_000
    ensures AllClaimable(ds[i].rows, at)
  {
    forall row: nat | row < |ds[i].rows| && !ds[i].rows[row].published ensures Claimable(ds[i].rows[row], at) {
      ClaimableAgain(ds, moves, i, row, at);
    }
  }

  // ---- A batch claim is a run of single claims of the delivery protocol ----

  ghost function ClaimAll(d: Delivery, ids: seq<nat>): (d': Delivery)
    requires forall k :: 0 <= k < |ids| ==> ids[k] < |d.rows|
    ensures |d'.rows| == |d.rows|
  {
    if ids == [] then d
    else
      var e, i := ClaimAll(d, ids[..|ids| - 1]), ids[|ids| - 1];
      e.(rows := e.rows[i := Claimed(e.rows[i], d.now)], tasks := e.tasks + [Task(i, d.now, Held)])
  }

  /** Every prefix of the batch is one more ClaimRow move, and the whole batch leaves the rows
      the claim statement leaves. */
  lemma {:induction false} BatchClaimIsMoves(d: Delivery, ids: seq<nat>)
    requires forall k :: 0 <= k < |ids| ==> ids[k] < |d.rows| && Claimable(d.rows[ids[k]], d.now)
    requires forall j, k :: 0 <= j < k < |ids| ==> ids[j] != ids[k]
    ensures var d' := ClaimAll(d, ids);
            && d'.now == d.now && d'.calls == d.calls && d'.acked == d.acked
            && forall i :: 0 <= i < |d.rows| ==> d'.rows[i] == if i in ids then Claimed(d.rows[i], d.now) else d.rows[i]
    ensures ids != [] ==> Moves(ClaimAll(d, ids[..|ids| - 1]), ClaimRow(ids[|ids| - 1]), ClaimAll(d, ids))
    decreases |ids|
  {
    if ids != [] {
      var front, last := ids[..|ids| - 1], ids[|ids| - 1];
      BatchClaimIsMoves(d, front);
      assert last !in front;
      assert ClaimAll(d, front).rows[last] == d.rows[last];
      forall i | 0 <= i < |d.rows| ensures i in ids <==> i in front || i == last {
        assert ids == front + [last];
      }
    }
  }
}
