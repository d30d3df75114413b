// Exactly when the gateway keeps its promise of one transaction per idempotency key: the
// runs that break it, step by step, and the condition on the requests that rules them out
// (internal/middleware/idempotency_middleware.go, internal/handler/handlers.go).

module KeyMixing {
  import opened Domain
  import opened CircuitBreaking
  import opened Retrying
  import opened Ledger
  import opened LedgerProgress
  import opened OnePayment
  import IdempotencyStores

  // ---- The promise and its condition ----

  ghost predicate From(y: Gateway, requests: set<HttpRequest>) {
    forall p :: p in y.fronts ==> y.fronts[p].http in requests
  }

  ghost predicate SameTransaction(y: Gateway, q: int, r: int) {
    Succeeded(y, q) && Succeeded(y, r) && ServiceKey(y.fronts[q].http) == ServiceKey(y.fronts[r].http) != ""
    ==> y.fronts[q].response.tx.id == y.fronts[r].response.tx.id
  }

  /** On every run that receives only these requests, each any number of times, every two successes for one
      key carry the same transaction. */
  ghost predicate PromiseKept(requests: set<HttpRequest>) {
    forall ys, acts, i: nat, q, r ::
      IsGatewayRun(ys, acts) && i < |ys| && From(ys[i], requests) ==> SameTransaction(ys[i], q, r)
  }

  predicate Payable(h: HttpRequest) {
    Acceptable(h.amountCents, h.currency)
  }

  /** Two requests of one key can be answered with what payable requests of different keys stored. */
  ghost predicate KeysMix(requests: set<HttpRequest>) {
    exists g1, h1, g2, h2 ::
      g1 in requests && h1 in requests && g2 in requests && h2 in requests && Mix(g1, h1, g2, h2)
  }

  predicate Mix(g1: HttpRequest, h1: HttpRequest, g2: HttpRequest, h2: HttpRequest) {
    && Payable(g1) && Feeds(g1, h1) && Payable(g2) && Feeds(g2, h2)
    && ServiceKey(h1) == ServiceKey(h2) != "" && ServiceKey(g1) != ServiceKey(g2)
  }

  lemma FeederHasKey(g: HttpRequest, h: HttpRequest)
    requires Feeds(g, h) && ServiceKey(h) != ""
    ensures ServiceKey(g) != ""
  {
  }

  lemma KeptUnlessMixed(ys: seq<Gateway>, acts: seq<Act>, i: nat, q: int, r: int, requests: set<HttpRequest>)
    requires IsGatewayRun(ys, acts) && i < |ys| && From(ys[i], requests) && !KeysMix(requests)
    ensures SameTransaction(ys[i], q, r)
  {
    var y := ys[i];
    if Succeeded(y, q) && Succeeded(y, r) && ServiceKey(y.fronts[q].http) == ServiceKey(y.fronts[r].http) != "" {
      hide Acts, Feeds;
      var a := SuccessHasMaker(ys, acts, i, q);
      var b := SuccessHasMaker(ys, acts, i, r);
      FeederHasKey(y.fronts[a].http, y.fronts[q].http);
      assert !Mix(y.fronts[a].http, y.fronts[q].http, y.fronts[b].http, y.fronts[r].http);
      OneRowPerKey(ys, acts, i, y.fronts[q].response.tx.id, y.fronts[r].response.tx.id);
    }
  }

  // ---- Building runs ----

  ghost predicate Path(ys: seq<Gateway>, acts: seq<Act>) {
    && |ys| == |acts| + 1
    && forall i :: 0 <= i < |acts| ==> Acts(ys[i], acts[i], ys[i + 1])
  }

  ghost predicate Runs(y0: Gateway, y: Gateway) {
    exists ys, acts: seq<Act> :: Path(ys, acts) && ys[0] == y0 && ys[|acts|] == y
  }

  lemma StayRuns(y: Gateway)
    ensures Runs(y, y)
  {
    var ys, acts: seq<Act> := [y], [];
    assert Path(ys, acts) && ys[|acts|] == y;
  }

  lemma ActRuns(y0: Gateway, y: Gateway, act: Act, y': Gateway)
    requires Runs(y0, y) && Acts(y, act, y')
    ensures Runs(y0, y')
  {
    hide Acts;
    var ys, acts: seq<Act> :| Path(ys, acts) && ys[0] == y0 && ys[|acts|] == y;
    var ys', acts' := ys + [y'], acts + [act];
    assert Path(ys', acts') && ys'[0] == y0 && ys'[|acts'|] == y';
  }

  /** Every request but possibly `r` has been answered. */
  ghost predicate Calm(s: State, r: int) {
    forall q :: q in s.reqs && q != r ==> s.reqs[q].pc.Replied?
  }

  lemma {:induction false} DriveRuns(y0: Gateway, y: Gateway, r: int, o: Oracle, n: nat)
    requires Runs(y0, y) && r in y.ledger.reqs && Calm(y.ledger, r)
    ensures Runs(y0, y.(ledger := AfterDrive(y.ledger, r, o, n)))
    decreases n
  {
    hide Advance, Drive;
    if n == 0 {
      NoDrive(y.ledger, r, o);
    } else {
      DriveRuns(y0, y, r, o, n - 1);
      DriveStep(y.ledger, r, o, n - 1);
      var before, after := AfterDrive(y.ledger, r, o, n - 1), AfterDrive(y.ledger, r, o, n);
      assert Step(before, Run(r, o), after);
      ActRuns(y0, y.(ledger := before), Inner(Run(r, o)), y.(ledger := after));
    }
  }

  lemma NoDrive(s: State, r: int, o: Oracle)
    requires r in s.reqs
    ensures AfterDrive(s, r, o, 0) == s
  {
  }

  function Luck(id: TxId): Oracle {
    Oracle(false, Database.NO_FAULT, false, 0, None, id, Live, Live)
  }

  function PaidFor(id: TxId, h: HttpRequest): Transaction {
    NewTransaction(id, InputOf(h), Completed)
  }

  function Remembered(redis: map<string, Entry>, h: HttpRequest, tx: Transaction): map<string, Entry> {
    if Coordinated(h) then redis[EntryKey(h) := Done(tx)] else redis
  }

  lemma RememberedTwice(redis: map<string, Entry>, h: HttpRequest, tx: Transaction)
    ensures Remembered(Remembered(redis, h, tx), h, tx) == Remembered(redis, h, tx)
  {
  }

  /** The ledger takes `h` on a fresh key, under ID `id`. */
  ghost predicate CanPay(s: State, h: HttpRequest, id: TxId) {
    && Payable(h) && h.amountCents <= s.cfg.maxTransactionCents
    && h.merchantId in s.world.db.merchants && s.world.db.merchants[h.merchantId].active
    && s.world.db.merchants[h.merchantId].balanceCents >= 0
    && (ServiceKey(h) == "" || ServiceKey(h) !in s.world.db.keyIndex) && id !in s.world.db.txns
    && s.world.breaker.state == CircuitClosed
  }

  /** What a payment leaves of the ledger, as far as the next one is concerned. */
  ghost predicate PaidBy(s: State, r: int, h: HttpRequest, id: TxId, s': State) {
    && s'.cfg == s.cfg && s'.reqs.Keys == s.reqs.Keys + {r} && Calm(s', r)
    && r in s'.reqs && s'.reqs[r].pc == Replied(Reply(Some(PaidFor(id, h)), None))
    && s'.world.db.txns == s.world.db.txns[id := PaidFor(id, h)]
    && s'.world.db.keyIndex == Indexed(s.world.db.keyIndex, ServiceKey(h), id)
    && h.merchantId in s.world.db.merchants
    && s'.world.db.merchants == Paid(s.world.db.merchants, h.merchantId, h.amountCents)
    && s'.world.breaker.state == CircuitClosed
  }

  lemma LedgerPays(s: State, r: int, h: HttpRequest, id: TxId) returns (s': State)
    requires CanPay(s, h, id) && r in s.reqs && s.reqs[r] == Request(Create(InputOf(h)), CheckKey) && Calm(s, r)
    ensures s' == AfterDrive(s, r, Luck(id), 9) && PaidBy(s, r, h, id, s')
  {
    hide Advance, Drive, Paid;
    PaymentGoesThrough(s.cfg, s.world, InputOf(h), Luck(id));
    s' := AfterDrive(s, r, Luck(id), 9);
  }

  /** Received and passed on to the ledger. */
  lemma Forwarded(y0: Gateway, y: Gateway, r: int, h: HttpRequest) returns (y': Gateway)
    requires Runs(y0, y) && Calm(y.ledger, r) && r !in y.fronts && r !in y.ledger.reqs && EntryKey(h) !in y.redis
    ensures Runs(y0, y') && y'.ledger == y.ledger.(reqs := y.ledger.reqs[r := Request(Create(InputOf(h)), CheckKey)])
    ensures y'.fronts == y.fronts[r := Waiting(h, MiddlewareKey(h) != "")]
    ensures y'.redis == if Coordinated(h) then y.redis[EntryKey(h) := InProgress] else y.redis
  {
    hide EntryKey, MiddlewareKey, ServiceKey;
    var y1 := y.(fronts := y.fronts[r := Arrived(h)]);
    ActRuns(y0, y, Receive(r, h), y1);
    y' := Gateway(y.ledger.(reqs := y.ledger.reqs[r := Request(Create(InputOf(h)), CheckKey)]),
                  if Coordinated(h) then y.redis[EntryKey(h) := InProgress] else y.redis,
                  y.fronts[r := Waiting(h, MiddlewareKey(h) != "")]);
    assert y'.fronts == y1.fronts[r := Waiting(h, MiddlewareKey(h) != "")];
    ActRuns(y0, y1, Check(r, Works), y');
  }

  /** The ledger has answered; the handler's response is stored and sent. */
  lemma Finished(y0: Gateway, y: Gateway, r: int, h: HttpRequest, tx: Transaction) returns (y': Gateway)
    requires Runs(y0, y) && r in y.fronts && y.fronts[r] == Waiting(h, MiddlewareKey(h) != "")
    requires r in y.ledger.reqs && y.ledger.reqs[r].pc == Replied(Reply(Some(tx), None))
    ensures Runs(y0, y')
    ensures y' == y.(fronts := y.fronts[r := Answered(h, Success(tx))], redis := Remembered(y.redis, h, tx))
  {
    hide EntryKey, MiddlewareKey;
    y' := y.(fronts := y.fronts[r := Answered(h, Success(tx))], redis := Remembered(y.redis, h, tx));
    NotWrapped(h);
    ActRuns(y0, y, Finish(r, Works, Works), y');
  }

  lemma NotWrapped(h: HttpRequest)
    ensures Coordinated(h) ==> MiddlewareKey(h) != ""
  {
  }

  /** A request served all the way: forwarded, paid, stored in Redis, answered. */
  lemma Served(y0: Gateway, y: Gateway, r: int, h: HttpRequest, id: TxId) returns (y': Gateway)
    requires Runs(y0, y) && Calm(y.ledger, r) && r !in y.fronts && r !in y.ledger.reqs && EntryKey(h) !in y.redis
    requires CanPay(y.ledger, h, id)
    ensures Runs(y0, y') && PaidBy(y.ledger, r, h, id, y'.ledger)
    ensures y'.fronts == y.fronts[r := Answered(h, Success(PaidFor(id, h)))]
    ensures y'.redis == Remembered(y.redis, h, PaidFor(id, h))
  {
    hide AfterDrive, EntryKey, MiddlewareKey, ServiceKey, Acts, PaidFor, Indexed, Paid;
    var y1 := Forwarded(y0, y, r, h);
    assert CanPay(y1.ledger, h, id);
    hide CanPay;
    var paid := LedgerPays(y1.ledger, r, h, id);
    DriveRuns(y0, y1, r, Luck(id), 9);
    var y2 := y1.(ledger := paid);
    y' := Finished(y0, y2, r, h, PaidFor(id, h));
  }

  /** A request answered from Redis. */
  lemma Replayed(y0: Gateway, y: Gateway, r: int, h: HttpRequest, tx: Transaction) returns (y': Gateway)
    requires Runs(y0, y) && r !in y.fronts && r !in y.ledger.reqs
    requires Coordinated(h) && EntryKey(h) in y.redis && y.redis[EntryKey(h)] == Done(tx)
    ensures Runs(y0, y') && y' == y.(fronts := y.fronts[r := Answered(h, Success(tx))])
  {
    hide EntryKey;
    var y1 := y.(fronts := y.fronts[r := Arrived(h)]);
    ActRuns(y0, y, Receive(r, h), y1);
    y' := y.(fronts := y.fronts[r := Answered(h, Success(tx))]);
    assert y'.fronts == y1.fronts[r := Answered(h, Success(tx))];
    ActRuns(y0, y1, Check(r, Works), y');
  }

  /** Request `h` is answered with what `g` has just stored: its own answer, or a replay. */
  lemma Fed(y0: Gateway, y: Gateway, r: int, g: HttpRequest, s: int, h: HttpRequest, tx: Transaction)
      returns (y': Gateway, q: int)
    requires Runs(y0, y) && Feeds(g, h)
    requires r in y.fronts && y.fronts[r] == Answered(g, Success(tx)) && y.redis == Remembered(y.redis, g, tx)
    requires s !in y.fronts && s !in y.ledger.reqs
    ensures Runs(y0, y') && y'.ledger == y.ledger && y'.redis == y.redis
    ensures q in {r, s} && y'.fronts.Keys <= y.fronts.Keys + {s} && q in y'.fronts &&
        y'.fronts[q] == Answered(h, Success(tx))
    ensures forall p :: p in y.fronts ==> p in y'.fronts && y'.fronts[p] == y.fronts[p]
    ensures forall p :: p in y'.fronts && p !in y.fronts ==> y'.fronts[p].http == h
  {
    hide EntryKey;
    if g == h {
      y', q := y, r;
    } else {
      y' := Replayed(y0, y, s, h, tx);
      q := s;
    }
  }

  function Opening(a: MerchantId, b: MerchantId): map<MerchantId, Merchant> {
    map[a := Merchant(0, true), b := Merchant(0, true)]
  }

  function Larger(a: int, b: int): int {
    if a < b then b else a
  }

  lemma SecondCanPay(s: State, s': State, g1: HttpRequest, g2: HttpRequest)
    requires s == FreshState(Config(Larger(g1.amountCents, g2.amountCents), 1), Opening(g1.merchantId, g2.merchantId))
    requires PaidBy(s, 0, g1, "1", s') && Payable(g1) && Payable(g2) && ServiceKey(g1) != ServiceKey(g2)
    ensures CanPay(s', g2, "2")
  {
    hide ServiceKey;
  }

  lemma Forgets(y0: Gateway, y: Gateway, key: string) returns (y': Gateway)
    requires Runs(y0, y)
    ensures Runs(y0, y') && y' == y.(redis := y.redis - {key})
  {
    y' := y.(redis := y.redis - {key});
    ActRuns(y0, y, Lose(key), y');
  }

  /** `r` has been answered with a success carrying `tx`. */
  ghost predicate Got(y: Gateway, r: int, h: HttpRequest, tx: Transaction) {
    r in y.fronts && y.fronts[r] == Answered(h, Success(tx))
  }

  /** The first half of the run: `g1` pays and stores, `h1` is answered with that, and Redis loses an entry. */
  lemma FirstHalf(y0: Gateway, g1: HttpRequest, h1: HttpRequest, g2: HttpRequest) returns (y: Gateway, q: int)
    requires y0 == Gateway(FreshState(Config(Larger(g1.amountCents, g2.amountCents), 1),
                                      Opening(g1.merchantId, g2.merchantId)), map[], map[])
    requires Payable(g1) && Payable(g2) && Feeds(g1, h1) && ServiceKey(g1) != ServiceKey(g2)
    ensures Runs(y0, y) && Got(y, q, h1, PaidFor("1", g1)) && From(y, {g1, h1}) && y.fronts.Keys <= {0, 1}
    ensures EntryKey(g2) !in y.redis && y.ledger.reqs.Keys == {0} && Calm(y.ledger, 2) && CanPay(y.ledger, g2, "2")
  {
    assert CanPay(y0.ledger, g1, "1");
    hide EntryKey, ServiceKey, Acts, CanPay, Feeds, Remembered, PaidFor, Indexed;
    StayRuns(y0);
    var y1 := Served(y0, y0, 0, g1, "1");
    assert Calm(y1.ledger, 2);
    SecondCanPay(y0.ledger, y1.ledger, g1, g2);
    RememberedTwice(y0.redis, g1, PaidFor("1", g1));
    hide PaidBy;
    var y2; y2, q := Fed(y0, y1, 0, g1, 1, h1, PaidFor("1", g1));
    y := Forgets(y0, y2, EntryKey(g2));
  }

  /** The second half: `g2` pays and stores under its own key, `h2` is answered with that. */
  lemma SecondHalf(y0: Gateway, y: Gateway, g2: HttpRequest, h2: HttpRequest) returns (y': Gateway, r: int)
    requires Runs(y0, y) && y.fronts.Keys <= {0, 1} && y.ledger.reqs.Keys == {0} && Calm(y.ledger, 2)
    requires EntryKey(g2) !in y.redis && CanPay(y.ledger, g2, "2") && Feeds(g2, h2)
    ensures Runs(y0, y') && Got(y', r, h2, PaidFor("2", g2))
    ensures forall p :: p in y.fronts ==> p in y'.fronts && y'.fronts[p] == y.fronts[p]
    ensures forall p :: p in y'.fronts && p !in y.fronts ==> y'.fronts[p].http in {g2, h2}
  {
    hide EntryKey, ServiceKey, Acts, CanPay, Feeds, Remembered, PaidFor;
    var y1 := Served(y0, y, 2, g2, "2");
    RememberedTwice(y.redis, g2, PaidFor("2", g2));
    hide PaidBy, Calm;
    y', r := Fed(y0, y1, 2, g2, 3, h2, PaidFor("2", g2));
  }

  /** A real run that ends in two successes for one key with different transactions. */
  lemma MixedKeysSplit(g1: HttpRequest, h1: HttpRequest, g2: HttpRequest, h2: HttpRequest)
    returns (ys: seq<Gateway>, acts: seq<Act>, q: int, r: int)
    requires Mix(g1, h1, g2, h2)
    ensures IsGatewayRun(ys, acts) && From(ys[|acts|], {g1, h1, g2, h2})
    ensures !SameTransaction(ys[|acts|], q, r)
  {
    var s0 := FreshState(Config(Larger(g1.amountCents, g2.amountCents), 1), Opening(g1.merchantId, g2.merchantId));
    var y0 := Gateway(s0, map[], map[]);
    assert Init(s0);
    hide EntryKey, Acts, CanPay, Init, Calm, FreshState;
    var y1, y2;
    y1, q := FirstHalf(y0, g1, h1, g2);
    y2, r := SecondHalf(y0, y1, g2, h2);
    ys, acts :| Path(ys, acts) && ys[0] == y0 && ys[|acts|] == y2;
    assert Got(y2, q, h1, PaidFor("1", g1));
  }

  // ---- Main results ----

  /** The promise is kept on every run of these requests if and only if their keys do not mix. */
  lemma PromiseKeptIffKeysDoNotMix(requests: set<HttpRequest>)
    ensures PromiseKept(requests) <==> !KeysMix(requests)
  {
    if KeysMix(requests) {
      var g1, h1, g2, h2 :| g1 in requests && h1 in requests && g2 in requests && h2 in requests && Mix(g1, h1, g2, h2);
      var ys, acts, q, r := MixedKeysSplit(g1, h1, g2, h2);
      assert From(ys[|acts|], requests) && |acts| < |ys|;
    } else {
      forall ys, acts, i: nat, q, r | IsGatewayRun(ys, acts) && i < |ys| && From(ys[i], requests)
        ensures SameTransaction(ys[i], q, r)
      {
        KeptUnlessMixed(ys, acts, i, q, r, requests);
      }
    }
  }

  /** A caller's way to be safe: headers that agree, and merchant IDs without a closing brace. */
  lemma PlainRequestsKeepPromise(requests: set<HttpRequest>)
    requires forall h :: h in requests ==> HeadersAgree(h) && '}' !in h.merchantId
    ensures PromiseKept(requests)
  {
    if KeysMix(requests) {
      var g1, h1, g2, h2 :| g1 in requests && h1 in requests && g2 in requests && h2 in requests && Mix(g1, h1, g2, h2);
      PlainRequestsNeverMix(g1, h1);
      PlainRequestsNeverMix(g2, h2);
      assert false;
    }
    PromiseKeptIffKeysDoNotMix(requests);
  }

  /** First way to break it: one request has contradicting headers. */
  lemma DisagreeingHeadersSplitAKey(m: MerchantId)
    requires m != ""
    ensures !PromiseKept({HttpRequest("a", "", m, 1, "CAD", ""), HttpRequest("a", "b", m, 1, "CAD", "")})
  {
    var g, h := HttpRequest("a", "", m, 1, "CAD", ""), HttpRequest("a", "b", m, 1, "CAD", "");
    assert Mix(g, h, h, h);
    PromiseKeptIffKeysDoNotMix({g, h});
  }

  /** Second way, with every header agreeing: two merchants whose Redis keys collide. */
  lemma CollidingMerchantsSplitAKey()
    ensures var g, h := HttpRequest("b}:k", "", "a", 1, "CAD", ""), HttpRequest("k", "", "a}:b", 1, "CAD", "");
            HeadersAgree(g) && HeadersAgree(h) && !PromiseKept({g, h})
  {
    var g, h := HttpRequest("b}:k", "", "a", 1, "CAD", ""), HttpRequest("k", "", "a}:b", 1, "CAD", "");
    assert IdempotencyStores.Tail("a", "b}:k") == "a}:b}:k" == IdempotencyStores.Tail("a}:b", "k");
    assert EntryKey(g) == EntryKey(h);
    assert Mix(g, h, h, h);
    PromiseKeptIffKeysDoNotMix({g, h});
  }
}
