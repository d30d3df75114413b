// The Redis coordination of idempotent requests (internal/middleware/idempotency_store.go,
// idempotency_check.lua, idempotency_middleware.go) with its two TTLs, on a clock.

module IdempotencyStores {

  const IN_PROGRESS_TTL := 60_000       // milliseconds
  const COMPLETED_TTL := 86_400_000

  // ---- The key encoding ----

  const PREFIX := "idempotency:{"

  function Tail(merchantId: string, key: string): string {
    merchantId + "}:" + key
  }

  function RedisKey(merchantId: string, key: string): string {
    PREFIX + Tail(merchantId, key)
  }

  lemma SameKeySameTail(m1: string, k1: string, m2: string, k2: string)
    requires RedisKey(m1, k1) == RedisKey(m2, k2)
    ensures Tail(m1, k1) == Tail(m2, k2)
  {
    assert RedisKey(m1, k1)[|PREFIX|..] == Tail(m1, k1);
    assert RedisKey(m2, k2)[|PREFIX|..] == Tail(m2, k2);
  }

  /** The merchant ID ends at the first closing brace. */
  lemma TailParts(m: string, k: string)
    ensures RedisKey(m, k) == "idempotency:{" + m + "}:" + k
    ensures Tail(m, k)[|m|] == '}' && Tail(m, k)[..|m|] == m && Tail(m, k)[|m| + 2..] == k
    ensures forall i :: 0 <= i < |m| ==> Tail(m, k)[i] == m[i]
  {
  }

  /** Pairs of one store never share an entry when merchant IDs hold no closing brace. */
  lemma KeyInjective(m1: string, k1: string, m2: string, k2: string)
    requires '}' !in m1 && '}' !in m2
    requires RedisKey(m1, k1) == RedisKey(m2, k2)
    ensures m1 == m2 && k1 == k2
  {
    SameKeySameTail(m1, k1, m2, k2);
    TailParts(m1, k1);
    TailParts(m2, k2);
    assert !(|m1| < |m2|) && !(|m2| < |m1|);
  }

  ghost predicate CanCollide(m1: string, m2: string) {
    exists k1, k2 :: RedisKey(m1, k1) == RedisKey(m2, k2)
  }

  /** Two merchants can share an entry exactly when one ID, closed by "}:", starts the other. */
  lemma CollideIffPrefix(m1: string, m2: string)
    ensures CanCollide(m1, m2) <==> m1 + "}:" <= m2 + "}:" || m2 + "}:" <= m1 + "}:"
  {
    var a, b := m1 + "}:", m2 + "}:";
    if CanCollide(m1, m2) {
      var k1, k2 :| RedisKey(m1, k1) == RedisKey(m2, k2);
      SameKeySameTail(m1, k1, m2, k2);
      assert Tail(m1, k1) == a + k1 && Tail(m2, k2) == b + k2;
      if |a| <= |b| {
        assert a == (a + k1)[..|a|] == (b + k2)[..|a|] == b[..|a|];
      } else {
        assert b == (b + k2)[..|b|] == (a + k1)[..|b|] == a[..|b|];
      }
    }
    if a <= b {
      assert a + b[|a|..] == b + "";
      assert RedisKey(m1, b[|a|..]) == RedisKey(m2, "");
    }
    if b <= a {
      assert b + a[|b|..] == a + "";
      assert RedisKey(m2, a[|b|..]) == RedisKey(m1, "");
    }
  }

  // ---- The store ----

  datatype Entry = InProgress(expireAt: int) | Completed(expireAt: int, statusCode: int, body: seq<char>)

  datatype Decision = Proceed | Busy | Replay(statusCode: int, body: seq<char>)

  predicate Present(redis: map<string, Entry>, rk: string, now: int) {
    rk in redis && now < redis[rk].expireAt
  }

  function Decide(redis: map<string, Entry>, rk: string, now: int): Decision {
    if !Present(redis, rk, now) then Proceed
    else match redis[rk]
      case InProgress(_) => Busy
      case Completed(_, statusCode, body) => Replay(statusCode, body)
  }

  function AfterCheck(redis: map<string, Entry>, rk: string, now: int): map<string, Entry> {
    if Present(redis, rk, now) then redis else redis[rk := InProgress(now + IN_PROGRESS_TTL)]
  }

  function AfterStore(redis: map<string, Entry>, rk: string, now: int, statusCode: int, body: seq<char>):
    map<string, Entry>
  {
    redis[rk := Completed(now + COMPLETED_TTL, statusCode, body)]
  }

  class IdempotencyStore {
    var redis: map<string, Entry>

    constructor ()
      ensures redis == map[]
    {
      redis := map[];
    }

    /** An empty merchant ID or key bypasses Redis altogether. */
    method Check(merchantId: string, key: string, now: int) returns (d: Decision)
      modifies this
      ensures merchantId == "" || key == "" ==> d == Proceed && redis == old(redis)
      ensures merchantId != "" && key != "" ==>
                d == Decide(old(redis), RedisKey(merchantId, key), now) &&
                    redis == AfterCheck(old(redis), RedisKey(merchantId, key), now)
    {
      if merchantId == "" || key == "" {
        return Proceed;
      }
      var rk := RedisKey(merchantId, key);
      if rk in redis && now < redis[rk].expireAt {
        match redis[rk] {
          case Completed(_, statusCode, body) => return Replay(statusCode, body);
          case InProgress(_) => return Busy;
        }
      }
      redis := redis[rk := InProgress(now + IN_PROGRESS_TTL)];
      return Proceed;
    }

    method StoreCompleted(merchantId: string, key: string, statusCode: int, body: seq<char>, now: int)
      modifies this
      ensures redis == if merchantId == "" || key == "" then old(redis)
                       else AfterStore(old(redis), RedisKey(merchantId, key), now, statusCode, body)
    {
      if merchantId == "" || key == "" {
        return;
      }
      redis := redis[RedisKey(merchantId, key) := Completed(now + COMPLETED_TTL, statusCode, body)];
    }

    method Release(merchantId: string, key: string)
      modifies this
      ensures redis == if merchantId == "" || key == "" then old(redis) else old(redis) - {RedisKey(merchantId, key)}
    {
      if merchantId == "" || key == "" {
        return;
      }
      redis := redis - {RedisKey(merchantId, key)};
    }
  }

  // ---- Handler runs behind a Redis that answers ----

  /** A handler run let through by Check, which will store or release. */
  datatype HandlerRun = HandlerRun(merchantId: string, key: string, startedAt: int)

  datatype Coordinator = Coordinator(now: int, redis: map<string, Entry>, runs: map<int, HandlerRun>)

  datatype Turn =
    | Wait(elapsed: nat)
    | Request(r: int, merchantId: string, key: string)
    | Finish(r: int, statusCode: int, body: seq<char>)

  predicate Is2xx(statusCode: int) {
    200 <= statusCode < 300
  }

  function DecisionFor(c: Coordinator, merchantId: string, key: string): Decision {
    if merchantId == "" || key == "" then Proceed else Decide(c.redis, RedisKey(merchantId, key), c.now)
  }

  function AfterFinish(c: Coordinator, run: HandlerRun, statusCode: int, body: seq<char>): map<string, Entry> {
    if run.merchantId == "" || run.key == "" then c.redis
    else if Is2xx(statusCode) then AfterStore(c.redis, RedisKey(run.merchantId, run.key), c.now, statusCode, body)
    else c.redis - {RedisKey(run.merchantId, run.key)}
  }

  ghost predicate Takes(c: Coordinator, t: Turn, c': Coordinator) {
    match t
    case Wait(elapsed) => c' == c.(now := c.now + elapsed)
    case Request(r, merchantId, key) =>
      && r !in c.runs
      && c' == c.(redis := if merchantId == "" || key == "" then c.redis
                  else AfterCheck(c.redis, RedisKey(merchantId, key), c.now),
                  runs := if DecisionFor(c, merchantId, key) == Proceed
                          then c.runs[r := HandlerRun(merchantId, key, c.now)] else c.runs)
    case Finish(r, statusCode, body) =>
      && r in c.runs
      && c' == c.(redis := AfterFinish(c, c.runs[r], statusCode, body), runs := c.runs - {r})
  }

  ghost predicate IsSchedule(cs: seq<Coordinator>, ts: seq<Turn>) {
    && |cs| == |ts| + 1 && cs[0].redis == map[] && cs[0].runs == map[]
    && forall i :: 0 <= i < |ts| ==> Takes(cs[i], ts[i], cs[i + 1])
  }

  predicate Coordinated(run: HandlerRun) {
    run.merchantId != "" && run.key != ""
  }

  function KeyOf(run: HandlerRun): string {
    RedisKey(run.merchantId, run.key)
  }

  // ---- The runs under one Redis key; no other run matters to them ----

  ghost predicate Under(c: Coordinator, r: int, rk: string) {
    r in c.runs && Coordinated(c.runs[r]) && KeyOf(c.runs[r]) == rk
  }

  /** A request for this entry. */
  ghost predicate Asks(t: Turn, rk: string) {
    t.Request? && t.merchantId != "" && t.key != "" && RedisKey(t.merchantId, t.key) == rk
  }

  /** No two of them are in flight together. */
  ghost predicate Sole(c: Coordinator, rk: string) {
    forall q, r :: Under(c, q, rk) && Under(c, r, rk) ==> q == r
  }

  /** A run in flight still has the in-progress entry its own Check created. */
  ghost predicate OwnsEntry(c: Coordinator, rk: string) {
    forall r :: Under(c, r, rk) ==> rk in c.redis && c.redis[rk] == InProgress(c.runs[r].startedAt + IN_PROGRESS_TTL)
  }

  /** None of them has outlived the in-progress TTL of 60 s. */
  ghost predicate InTime(c: Coordinator, rk: string) {
    forall r :: Under(c, r, rk) ==> c.now < c.runs[r].startedAt + 60_000
  }

  /** A run of this entry has outlived the 60 s, and another request for it arrives. */
  ghost predicate LateArrival(c: Coordinator, t: Turn, rk: string) {
    Asks(t, rk) && exists q :: Under(c, q, rk) && c.now >= c.runs[q].startedAt + 60_000
  }

  lemma TurnKeepsOwnership(c: Coordinator, t: Turn, c': Coordinator, rk: string)
    requires Takes(c, t, c') && Sole(c, rk) && OwnsEntry(c, rk) && Sole(c', rk)
    ensures OwnsEntry(c', rk)
  {
    hide RedisKey, Is2xx;
    forall r | Under(c', r, rk)
      ensures rk in c'.redis && c'.redis[rk] == InProgress(c'.runs[r].startedAt + IN_PROGRESS_TTL)
    {
      if Under(c, r, rk) {
        OwnerKeepsEntry(c, t, c', rk, r);
      }
    }
  }

  lemma OwnerKeepsEntry(c: Coordinator, t: Turn, c': Coordinator, rk: string, r: int)
    requires Takes(c, t, c') && Sole(c, rk) && OwnsEntry(c, rk) && Sole(c', rk) && Under(c, r, rk) && Under(c', r, rk)
    ensures rk in c'.redis && c'.redis[rk] == InProgress(c'.runs[r].startedAt + IN_PROGRESS_TTL)
  {
    hide RedisKey, Is2xx;
    if t.Request? {
      assert !Under(c', t.r, rk);
    } else if t.Finish? {
      assert t.r != r && !Under(c, t.r, rk);
    }
  }

  lemma {:induction false} OwnershipOnSchedules(cs: seq<Coordinator>, ts: seq<Turn>, i: nat, rk: string)
    requires IsSchedule(cs, ts) && i < |cs| && forall k :: 0 <= k <= i ==> Sole(cs[k], rk)
    ensures OwnsEntry(cs[i], rk)
  {
    if i > 0 {
      hide Takes, Sole;
      OwnershipOnSchedules(cs, ts, i - 1, rk);
      TurnKeepsOwnership(cs[i - 1], ts[i - 1], cs[i], rk);
    }
  }

  /** A second run is let in exactly when the one in flight has outlived the TTL. */
  lemma SecondRunIffLate(c: Coordinator, t: Turn, c': Coordinator, rk: string)
    requires Takes(c, t, c') && Sole(c, rk) && OwnsEntry(c, rk)
    ensures Sole(c', rk) <==> !LateArrival(c, t, rk)
  {
    hide RedisKey, Is2xx;
    if LateArrival(c, t, rk) {
      var q :| Under(c, q, rk) && c.now >= c.runs[q].startedAt + 60_000;
      assert Under(c', q, rk) && Under(c', t.r, rk) && q != t.r;
    } else {
      forall q, r | Under(c', q, rk) && Under(c', r, rk) ensures q == r {
        assert !t.Request? ==> Under(c, q, rk) && Under(c, r, rk);
        assert t.Request? && q != t.r ==> Under(c, q, rk);
        assert t.Request? && r != t.r ==> Under(c, r, rk);
      }
    }
  }

  // ---- Main results ----

  /** Two runs under one Redis key are ever in flight together if and only if, at some point, a request for it
      arrives while one of its runs has outlived the in-progress TTL. */
  lemma {:induction false} OverlapIffLateArrival(cs: seq<Coordinator>, ts: seq<Turn>, i: nat, rk: string)
    requires IsSchedule(cs, ts) && i < |cs|
    ensures (forall k :: 0 <= k <= i ==> Sole(cs[k], rk)) <==>
        (forall k :: 0 <= k < i ==> !LateArrival(cs[k], ts[k], rk))
  {
    hide Takes, Sole, LateArrival;
    if i == 0 {
      NobodyRuns(cs[0], rk);
    } else {
      OverlapIffLateArrival(cs, ts, i - 1, rk);
      if forall k :: 0 <= k <= i - 1 ==> Sole(cs[k], rk) {
        OwnershipOnSchedules(cs, ts, i - 1, rk);
        assert Takes(cs[i - 1], ts[i - 1], cs[i]);
        SecondRunIffLate(cs[i - 1], ts[i - 1], cs[i], rk);
      }
    }
  }

  lemma NobodyRuns(c: Coordinator, rk: string)
    requires c.runs == map[]
    ensures Sole(c, rk)
  {
  }

  /** As long as the runs under one Redis key finish in time, at most one of them is in flight. */
  lemma OneRunInFlight(cs: seq<Coordinator>, ts: seq<Turn>, i: nat, rk: string, q: int, r: int)
    requires IsSchedule(cs, ts) && i < |cs| && forall k :: 0 <= k < i ==> InTime(cs[k], rk)
    requires Under(cs[i], q, rk) && Under(cs[i], r, rk)
    ensures q == r
  {
    hide Takes, Under;
    forall k | 0 <= k < i ensures !LateArrival(cs[k], ts[k], rk) {
      assert InTime(cs[k], rk);
    }
    OverlapIffLateArrival(cs, ts, i, rk);
    assert Sole(cs[i], rk);
  }

  /** A run that finishes in time replaces the entry its own Check created by its 2xx, for 24 h, or removes it, and
      never touches another's. */
  lemma FinishTouchesOwnEntry(cs: seq<Coordinator>, ts: seq<Turn>, i: nat, rk: string)
    requires IsSchedule(cs, ts) && i < |ts| && ts[i].Finish? && Under(cs[i], ts[i].r, rk)
    requires forall k :: 0 <= k <= i ==> InTime(cs[k], rk)
    ensures Present(cs[i].redis, rk, cs[i].now)
            && cs[i].redis[rk] == InProgress(cs[i].runs[ts[i].r].startedAt + 60_000)
    ensures if 200 <= ts[i].statusCode <= 299
            then rk in cs[i + 1].redis
                 && cs[i + 1].redis[rk] == Completed(cs[i].now + 86_400_000, ts[i].statusCode, ts[i].body)
            else rk !in cs[i + 1].redis
    ensures forall other :: other in cs[i].redis && other != rk ==>
              other in cs[i + 1].redis && cs[i + 1].redis[other] == cs[i].redis[other]
  {
    hide Takes, Under;
    forall k | 0 <= k < i ensures !LateArrival(cs[k], ts[k], rk) {
      assert InTime(cs[k], rk);
    }
    OverlapIffLateArrival(cs, ts, i, rk);
    OwnershipOnSchedules(cs, ts, i, rk);
    assert InTime(cs[i], rk);
    FinishTouchesOne(cs[i], ts[i], cs[i + 1], rk);
  }

  lemma FinishTouchesOne(c: Coordinator, t: Turn, c': Coordinator, rk: string)
    requires Takes(c, t, c') && t.Finish? && Under(c, t.r, rk)
    ensures if 200 <= t.statusCode <= 299
            then rk in c'.redis && c'.redis[rk] == Completed(c.now + 86_400_000, t.statusCode, t.body)
            else rk !in c'.redis
    ensures forall other :: other in c.redis && other != rk ==> other in c'.redis && c'.redis[other] == c.redis[other]
  {
    hide RedisKey;
  }

  /** The 2xx of a run that has its entry to itself. */
  ghost predicate StoresAlone(c: Coordinator, t: Turn, rk: string) {
    t.Finish? && 200 <= t.statusCode <= 299 && Under(c, t.r, rk) && Sole(c, rk)
  }

  ghost predicate Holds(c: Coordinator, rk: string, e: Entry) {
    rk in c.redis && c.redis[rk] == e && forall r :: !Under(c, r, rk)
  }

  lemma StoreHolds(c: Coordinator, t: Turn, c': Coordinator, rk: string)
    requires Takes(c, t, c') && StoresAlone(c, t, rk)
    ensures Holds(c', rk, Completed(c.now + COMPLETED_TTL, t.statusCode, t.body))
  {
    hide RedisKey;
    forall r ensures !Under(c', r, rk) {
      assert Under(c', r, rk) ==> Under(c, r, rk);
    }
  }

  lemma TurnKeepsStored(c: Coordinator, t: Turn, c': Coordinator, rk: string, e: Entry)
    requires Takes(c, t, c') && Holds(c, rk, e) && e.Completed? && c'.now < e.expireAt
    ensures Holds(c', rk, e)
  {
    hide RedisKey, Is2xx;
    forall r ensures !Under(c', r, rk) {
      assert !Under(c, r, rk);
    }
    if t.Finish? && Coordinated(c.runs[t.r]) {
      assert !Under(c, t.r, rk);
    }
  }

  lemma {:induction false} StoredEntryStays(cs: seq<Coordinator>, ts: seq<Turn>, i: nat, j: nat, rk: string)
    requires IsSchedule(cs, ts) && i < |ts| && i < j < |cs| && StoresAlone(cs[i], ts[i], rk)
    requires cs[j].now < cs[i].now + COMPLETED_TTL
    ensures Holds(cs[j], rk, Completed(cs[i].now + COMPLETED_TTL, ts[i].statusCode, ts[i].body))
    decreases j
  {
    assert Takes(cs[j - 1], ts[j - 1], cs[j]);
    if j > i + 1 {
      StoredEntryStays(cs, ts, i, j - 1, rk);
      hide Takes, StoresAlone;
      TurnKeepsStored(cs[j - 1], ts[j - 1], cs[j], rk,
                      Completed(cs[i].now + COMPLETED_TTL, ts[i].statusCode, ts[i].body));
    } else {
      hide Takes, StoresAlone;
      StoreHolds(cs[i], ts[i], cs[j], rk);
    }
  }

  /** For 24 h after a 2xx stored by a run that had its entry to itself, every request under that Redis key gets that
      status and body, and no handler runs. What other runs do, and how long they take, does not matter. */
  lemma ExactReplay(cs: seq<Coordinator>, ts: seq<Turn>, i: nat, j: nat, rk: string)
    requires IsSchedule(cs, ts) && i < j < |ts| && StoresAlone(cs[i], ts[i], rk)
    requires Asks(ts[j], rk) && cs[j].now < cs[i].now + 86_400_000
    ensures DecisionFor(cs[j], ts[j].merchantId, ts[j].key) == Replay(ts[i].statusCode, ts[i].body)
    ensures cs[j + 1].runs == cs[j].runs && cs[j + 1].redis == cs[j].redis
  {
    hide StoresAlone, RedisKey;
    StoredEntryStays(cs, ts, i, j, rk);
    assert Takes(cs[j], ts[j], cs[j + 1]);
  }

  /** Turn `i` is a run under this Redis key storing its 2xx. */
  ghost predicate Stores(cs: seq<Coordinator>, ts: seq<Turn>, i: nat, rk: string) {
    && i < |ts| && i < |cs| && ts[i].Finish? && 200 <= ts[i].statusCode <= 299 && ts[i].r in cs[i].runs
    && Coordinated(cs[i].runs[ts[i].r]) && KeyOf(cs[i].runs[ts[i].r]) == rk
  }

  lemma {:induction false} StoredBy(cs: seq<Coordinator>, ts: seq<Turn>, j: nat, rk: string) returns (i: nat)
    requires IsSchedule(cs, ts) && j < |cs| && rk in cs[j].redis && cs[j].redis[rk].Completed?
    ensures i < j && Stores(cs, ts, i, rk)
    ensures cs[j].redis[rk] == Completed(cs[i].now + COMPLETED_TTL, ts[i].statusCode, ts[i].body)
  {
    assert Takes(cs[j - 1], ts[j - 1], cs[j]);
    if rk in cs[j - 1].redis && cs[j].redis[rk] == cs[j - 1].redis[rk] {
      i := StoredBy(cs, ts, j - 1, rk);
    } else {
      i := j - 1;
    }
  }

  /** The converse: a replayed status and body come from a 2xx stored in the last 24 h under the same
      Redis key, and, for merchant IDs without a closing brace, by a run for the same merchant and key. */
  lemma ReplayOnlyAfterStore(cs: seq<Coordinator>, ts: seq<Turn>, j: nat) returns (i: nat)
    requires IsSchedule(cs, ts) && j < |ts| && ts[j].Request?
    requires DecisionFor(cs[j], ts[j].merchantId, ts[j].key).Replay?
    ensures i < j && Stores(cs, ts, i, RedisKey(ts[j].merchantId, ts[j].key)) && cs[j].now < cs[i].now + 86_400_000
    ensures DecisionFor(cs[j], ts[j].merchantId, ts[j].key) == Replay(ts[i].statusCode, ts[i].body)
    ensures '}' !in ts[j].merchantId && '}' !in cs[i].runs[ts[i].r].merchantId ==>
              cs[i].runs[ts[i].r].merchantId == ts[j].merchantId && cs[i].runs[ts[i].r].key == ts[j].key
  {
    var rk := RedisKey(ts[j].merchantId, ts[j].key);
    i := StoredBy(cs, ts, j, rk);
    var run := cs[i].runs[ts[i].r];
    if '}' !in ts[j].merchantId && '}' !in run.merchantId {
      KeyInjective(run.merchantId, run.key, ts[j].merchantId, ts[j].key);
    }
  }

  /** While a run for a pair is in flight, in time, a second request for it is let through exactly when the pair
      has no identity: an empty merchant ID or key bypasses Redis. */
  lemma SecondRunIffNoIdentity(c: Coordinator, q: int, r: int, c': Coordinator)
    requires q in c.runs && OwnsEntry(c, KeyOf(c.runs[q])) && InTime(c, KeyOf(c.runs[q]))
    requires Takes(c, Request(r, c.runs[q].merchantId, c.runs[q].key), c')
    ensures r in c'.runs <==> c.runs[q].merchantId == "" || c.runs[q].key == ""
  {
    assert Coordinated(c.runs[q]) ==> Under(c, q, KeyOf(c.runs[q]));
  }

  // ---- A failed run frees its key, and a busy answer means a run ----

  /** The turns that can change this entry: requests for it, and the end of one of its runs. */
  ghost predicate Touches(c: Coordinator, t: Turn, rk: string) {
    Asks(t, rk) || (t.Finish? && Under(c, t.r, rk))
  }

  lemma UntouchedStaysGone(c: Coordinator, t: Turn, c': Coordinator, rk: string)
    requires Takes(c, t, c') && !Touches(c, t, rk) && rk !in c.redis
    ensures rk !in c'.redis
  {
    hide RedisKey, Is2xx;
  }

  lemma {:induction false} StaysGone(cs: seq<Coordinator>, ts: seq<Turn>, i: nat, j: nat, rk: string)
    requires IsSchedule(cs, ts) && i <= j < |cs| && rk !in cs[i].redis
    requires forall k :: i <= k < j ==> !Touches(cs[k], ts[k], rk)
    ensures rk !in cs[j].redis
    decreases j
  {
    hide Takes, Touches;
    if i < j {
      StaysGone(cs, ts, i, j - 1, rk);
      UntouchedStaysGone(cs[j - 1], ts[j - 1], cs[j], rk);
    }
  }

  /** A run that ends outside 200..299 frees its key: the next request for it runs the handler, however soon. */
  lemma FailedRunFreesKey(cs: seq<Coordinator>, ts: seq<Turn>, i: nat, j: nat, rk: string)
    requires IsSchedule(cs, ts) && i < j < |ts|
    requires ts[i].Finish? && Under(cs[i], ts[i].r, rk) && (ts[i].statusCode < 200 || ts[i].statusCode >= 300)
    requires Asks(ts[j], rk) && forall k :: i < k < j ==> !Touches(cs[k], ts[k], rk)
    ensures DecisionFor(cs[j], ts[j].merchantId, ts[j].key) == Proceed && ts[j].r in cs[j + 1].runs
  {
    hide RedisKey, Under, Touches;
    FinishTouchesOne(cs[i], ts[i], cs[i + 1], rk);
    StaysGone(cs, ts, i + 1, j, rk);
    assert Takes(cs[j], ts[j], cs[j + 1]);
  }

  /** The run under this key that began the entry which lasts until `expireAt`. */
  ghost predicate Began(c: Coordinator, r: int, rk: string, expireAt: int) {
    Under(c, r, rk) && c.runs[r].startedAt + 60_000 == expireAt && c.runs[r].startedAt <= c.now
  }

  ghost predicate HasRunner(c: Coordinator, rk: string) {
    rk in c.redis && c.redis[rk].InProgress? ==> exists r :: Began(c, r, rk, c.redis[rk].expireAt)
  }

  lemma TurnKeepsRunner(c: Coordinator, t: Turn, c': Coordinator, rk: string)
    requires Takes(c, t, c') && HasRunner(c, rk)
    ensures HasRunner(c', rk)
  {
    hide RedisKey;
    if rk in c'.redis && c'.redis[rk].InProgress? {
      if rk in c.redis && c.redis[rk] == c'.redis[rk] && !Touches(c, t, rk) {
        var r :| Began(c, r, rk, c.redis[rk].expireAt);
        assert Began(c', r, rk, c.redis[rk].expireAt);
      } else if t.Request? && DecisionFor(c, t.merchantId, t.key) == Proceed {
        assert Began(c', t.r, rk, c'.redis[rk].expireAt);
      } else if t.Request? {
        var r :| Began(c, r, rk, c.redis[rk].expireAt);
        assert Began(c', r, rk, c.redis[rk].expireAt);
      } else {
        FinishTouchesOne(c, t, c', rk);
      }
    }
  }

  lemma {:induction false} RunnerOnSchedules(cs: seq<Coordinator>, ts: seq<Turn>, i: nat, rk: string)
    requires IsSchedule(cs, ts) && i < |cs|
    ensures HasRunner(cs[i], rk)
  {
    if i > 0 {
      hide Takes, HasRunner;
      RunnerOnSchedules(cs, ts, i - 1, rk);
      TurnKeepsRunner(cs[i - 1], ts[i - 1], cs[i], rk);
    }
  }

  /** On every schedule a busy answer means a handler run under that key that began less than 60 s ago and has not
      ended. */
  lemma BusyMeansRunning(cs: seq<Coordinator>, ts: seq<Turn>, j: nat) returns (r: int)
    requires IsSchedule(cs, ts) && j < |ts| && ts[j].Request?
    requires DecisionFor(cs[j], ts[j].merchantId, ts[j].key) == Busy
    ensures Under(cs[j], r, RedisKey(ts[j].merchantId, ts[j].key))
    ensures cs[j].now - 60_000 < cs[j].runs[r].startedAt <= cs[j].now
  {
    var rk := RedisKey(ts[j].merchantId, ts[j].key);
    hide RedisKey, Takes;
    RunnerOnSchedules(cs, ts, j, rk);
    r :| Began(cs[j], r, rk, cs[j].redis[rk].expireAt);
  }

  /** As long as its runs never overlapped, a request for a key is told to wait exactly while one of them is in flight
      and younger than 60 s. */
  lemma BusyIffRunning(cs: seq<Coordinator>, ts: seq<Turn>, j: nat, rk: string)
    requires IsSchedule(cs, ts) && j < |ts| && Asks(ts[j], rk)
    requires forall k :: 0 <= k < j ==> !LateArrival(cs[k], ts[k], rk)
    ensures DecisionFor(cs[j], ts[j].merchantId, ts[j].key) == Busy
       <==> exists r :: Under(cs[j], r, rk) && cs[j].now < cs[j].runs[r].startedAt + 60_000
  {
    hide Takes, Under, LateArrival, RedisKey;
    if DecisionFor(cs[j], ts[j].merchantId, ts[j].key) == Busy {
      var r := BusyMeansRunning(cs, ts, j);
    }
    OverlapIffLateArrival(cs, ts, j, rk);
    OwnershipOnSchedules(cs, ts, j, rk);
  }

  /** The promise of one run at a time really fails for a slow handler: from an empty store a request is let through,
      a minute passes, and a second one for the same merchant and key is let through beside it. */
  lemma SlowRunOverlaps(merchantId: string, key: string) returns (cs: seq<Coordinator>, ts: seq<Turn>)
    requires merchantId != "" && key != ""
    ensures IsSchedule(cs, ts) && !Sole(cs[|ts|], RedisKey(merchantId, key))
    ensures forall t :: t in ts ==> t.Wait? || (t.Request? && t.merchantId == merchantId && t.key == key)
  {
    hide RedisKey;
    var rk := RedisKey(merchantId, key);
    var first, second := HandlerRun(merchantId, key, 0), HandlerRun(merchantId, key, 60_000);
    var c0 := Coordinator(0, map[], map[]);
    var c1 := Coordinator(0, map[rk := InProgress(60_000)], map[1 := first]);
    var c2 := c1.(now := 60_000);
    var c3 := Coordinator(60_000, map[rk := InProgress(120_000)], map[1 := first, 2 := second]);
    ts := [Request(1, merchantId, key), Wait(60_000), Request(2, merchantId, key)];
    cs := [c0, c1, c2, c3];
    assert Takes(c0, ts[0], c1) && Takes(c1, ts[1], c2) && Takes(c2, ts[2], c3);
    assert Under(c3, 1, rk) && Under(c3, 2, rk);
  }
}
