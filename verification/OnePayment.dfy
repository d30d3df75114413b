// Many HTTP requests with one idempotency key, behind a Redis that may lose an entry,
// expire it or fail at any moment (internal/middleware/idempotency_middleware.go),
// in front of the ledger's check-then-insert (internal/service/payment.go), which the
// unique index of migrations/0002_create_transactions.sql closes.

module OnePayment {
  import opened Domain
  import opened Database
  import opened Retrying
  import opened Ledger
  import opened LedgerSafety
  import opened Answers
  import IdempotencyStores

  // ---- Which key a request carries ----

  /** The two idempotency headers, and what the handler passes on. */
  datatype HttpRequest = HttpRequest(
    plain: string,      // Idempotency-Key
    x: string,          // X-Idempotency-Key
    merchantId: MerchantId, amountCents: int, currency: string, description: string)

  /** The middleware prefers Idempotency-Key. */
  function MiddlewareKey(h: HttpRequest): string {
    if h.plain != "" then h.plain else h.x
  }

  /** The handler reads X-Idempotency-Key, which the middleware fills in only when it is empty. */
  function ServiceKey(h: HttpRequest): string {
    if h.x != "" then h.x else MiddlewareKey(h)
  }

  predicate HeadersAgree(h: HttpRequest) {
    h.plain == "" || h.x == "" || h.plain == h.x
  }

  lemma KeysAgreeIffHeadersAgree(h: HttpRequest)
    ensures MiddlewareKey(h) == ServiceKey(h) <==> HeadersAgree(h)
  {
  }

  function InputOf(h: HttpRequest): Input {
    Input(h.merchantId, h.amountCents, h.currency, ServiceKey(h), h.description)
  }

  /** Only these requests have a Redis entry. */
  predicate Coordinated(h: HttpRequest) {
    h.merchantId != "" && MiddlewareKey(h) != ""
  }

  function EntryKey(h: HttpRequest): string {
    IdempotencyStores.RedisKey(h.merchantId, MiddlewareKey(h))
  }

  predicate ShareEntry(g: HttpRequest, h: HttpRequest) {
    Coordinated(g) && Coordinated(h) && EntryKey(g) == EntryKey(h)
  }

  /** What `g` stored may come back as the answer to `h`. */
  predicate Feeds(g: HttpRequest, h: HttpRequest) {
    g == h || ShareEntry(g, h)
  }

  // ---- The gateway ----

  datatype Entry = InProgress | Done(tx: Transaction)

  datatype Response = Success(tx: Transaction) | Conflict | Failure

  datatype Front =
    | Arrived(http: HttpRequest)
    | Waiting(http: HttpRequest, wrapped: bool)
    | Answered(http: HttpRequest, response: Response)

  datatype Gateway = Gateway(ledger: State, redis: map<string, Entry>, fronts: map<int, Front>)

  /** A Redis call answers, or returns an error without or with its effect. */
  datatype RedisCall = Works | FailsUndone | FailsDone

  datatype Act =
    | Receive(r: int, http: HttpRequest)
    | Check(r: int, call: RedisCall)
    | Inner(a: Action)
    | Finish(r: int, store: RedisCall, release: RedisCall)
    | Lose(key: string)

  ghost predicate Forward(y: Gateway, r: int, wrapped: bool, redis: map<string, Entry>, y': Gateway) {
    && r in y.fronts
    && Step(y.ledger, Arrive(r, Create(InputOf(y.fronts[r].http))), y'.ledger)
    && y'.redis == redis && y'.fronts == y.fronts[r := Waiting(y.fronts[r].http, wrapped)]
  }

  /** What the script leaves when it takes effect on a missing entry. */
  function Begun(redis: map<string, Entry>, h: HttpRequest): map<string, Entry> {
    if EntryKey(h) in redis then redis else redis[EntryKey(h) := InProgress]
  }

  ghost predicate Checks(y: Gateway, r: int, call: RedisCall, y': Gateway) {
    && r in y.fronts && y.fronts[r].Arrived?
    && var h := y.fronts[r].http;
       if MiddlewareKey(h) == "" then Forward(y, r, false, y.redis, y')
       else if h.merchantId == "" then Forward(y, r, true, y.redis, y')
       else if call != Works then Forward(y, r, false, if call == FailsDone then Begun(y.redis, h) else y.redis, y')
       else if EntryKey(h) !in y.redis then Forward(y, r, true, Begun(y.redis, h), y')
       else y' == y.(fronts := y.fronts[r := Answered(h,
              match y.redis[EntryKey(h)]
              case InProgress => Conflict
              case Done(tx) => Success(tx))])
  }

  function ResponseTo(reply: Reply): Response {
    if reply.err == None && reply.tx.Some? then Success(reply.tx.value) else Failure
  }

  /** What StoreCompleted and Release leave behind: a success is stored, and released again when the store
      returned an error; anything else is released. */
  function RedisAfter(redis: map<string, Entry>, h: HttpRequest, response: Response, store: RedisCall,
                      release: RedisCall):
    map<string, Entry>
  {
    if !Coordinated(h) then redis
    else
      var stored := if response.Success? && store != FailsUndone then redis[EntryKey(h) := Done(response.tx)]
          else redis;
      if (response.Success? && store == Works) || release == FailsUndone then stored else stored - {EntryKey(h)}
  }

  ghost predicate Acts(y: Gateway, act: Act, y': Gateway) {
    match act
    case Receive(r, h) => r !in y.fronts && r !in y.ledger.reqs && y' == y.(fronts := y.fronts[r := Arrived(h)])
    case Check(r, call) => Checks(y, r, call, y')
    case Inner(a) =>
      && (a.Arrive? ==> a.call.Refund? && a.r !in y.fronts)
      && Step(y.ledger, a, y'.ledger) && y' == y.(ledger := y'.ledger)
    case Finish(r, store, release) =>
      && r in y.fronts && y.fronts[r].Waiting? && r in y.ledger.reqs && y.ledger.reqs[r].pc.Replied?
      && var Waiting(h, wrapped) := y.fronts[r];
         var response := ResponseTo(y.ledger.reqs[r].pc.reply);
         y' == y.(fronts := y.fronts[r := Answered(h, response)],
                  redis := if wrapped then RedisAfter(y.redis, h, response, store, release) else y.redis)
    case Lose(key) => y' == y.(redis := y.redis - {key})
  }

  ghost predicate IsGatewayRun(ys: seq<Gateway>, acts: seq<Act>) {
    && |ys| == |acts| + 1 && Init(ys[0].ledger) && ys[0].redis == map[] && ys[0].fronts == map[]
    && forall i :: 0 <= i < |acts| ==> Acts(ys[i], acts[i], ys[i + 1])
  }

  // ---- What every step keeps, whatever the headers say and whichever entries collide ----

  /** `tx` is a stored transaction, made for some request that feeds `h`. */
  ghost predicate MadeFor(y: Gateway, tx: Transaction, h: HttpRequest) {
    && Stored(y.ledger.world.db, tx)
    && exists p :: p in y.fronts && Serves(tx, InputOf(y.fronts[p].http)) && Feeds(y.fronts[p].http, h)
  }

  ghost predicate FrontOk(y: Gateway, r: int)
    requires r in y.fronts
  {
    match y.fronts[r]
    case Arrived(_) => r !in y.ledger.reqs
    case Waiting(h, wrapped) =>
      && r in y.ledger.reqs && y.ledger.reqs[r].call == Create(InputOf(h)) && (wrapped ==> MiddlewareKey(h) != "")
    case Answered(h, response) => response.Success? ==> MadeFor(y, response.tx, h)
  }

  /** Request `p`, answered, is one that stored `tx` under this Redis key. */
  ghost predicate Wrote(y: Gateway, p: int, key: string, tx: Transaction) {
    && p in y.fronts && y.fronts[p].Answered? && Serves(tx, InputOf(y.fronts[p].http))
    && Coordinated(y.fronts[p].http) && EntryKey(y.fronts[p].http) == key
  }

  /** What an entry replays was made for a request with this very Redis key. */
  ghost predicate EntryOk(y: Gateway, key: string)
    requires key in y.redis
  {
    y.redis[key].Done? ==>
      && Stored(y.ledger.world.db, y.redis[key].tx)
      && exists p :: Wrote(y, p, key, y.redis[key].tx)
  }

  ghost predicate GatewayOk(y: Gateway, opening: map<MerchantId, Merchant>) {
    && Inv(y.ledger, opening) && AnswersOk(y.ledger)
    && (forall r :: r in y.fronts ==> FrontOk(y, r))
    && (forall key :: key in y.redis ==> EntryOk(y, key))
  }

  /** No request is forgotten, and no row loses the transaction it stores. */
  ghost predicate Grows(y: Gateway, y': Gateway) {
    && KeepsRows(y.ledger.world.db, y'.ledger.world.db)
    && (forall p :: p in y.fronts ==>
          p in y'.fronts && y'.fronts[p].http == y.fronts[p].http && (y.fronts[p].Answered? ==> y'.fronts[p].Answered?))
  }

  lemma MadeForStays(y: Gateway, y': Gateway, tx: Transaction, h: HttpRequest)
    requires Grows(y, y') && MadeFor(y, tx, h)
    ensures MadeFor(y', tx, h)
  {
    hide Stored, Serves, Feeds;
    var p :| p in y.fronts && Serves(tx, InputOf(y.fronts[p].http)) && Feeds(y.fronts[p].http, h);
    assert p in y'.fronts;
  }

  lemma EntryStays(y: Gateway, y': Gateway, key: string)
    requires Grows(y, y') && key in y.redis && key in y'.redis && y'.redis[key] == y.redis[key] && EntryOk(y, key)
    ensures EntryOk(y', key)
  {
    hide Stored, Serves, Coordinated, EntryKey;
    if y.redis[key].Done? {
      var p :| Wrote(y, p, key, y.redis[key].tx);
      assert Wrote(y', p, key, y.redis[key].tx);
    }
  }

  lemma AnsweredStays(y: Gateway, y': Gateway, r: int)
    requires Grows(y, y') && r in y.fronts && y.fronts[r].Answered? && FrontOk(y, r) && y'.fronts[r] == y.fronts[r]
    ensures FrontOk(y', r)
  {
    hide MadeFor, Grows;
    if y.fronts[r].response.Success? {
      MadeForStays(y, y', y.fronts[r].response.tx, y.fronts[r].http);
    }
  }

  lemma {:induction false} SameRowsKept(db: Db)
    ensures KeepsRows(db, db)
  {
  }

  lemma InnerKeepsOk(y: Gateway, a: Action, y': Gateway, opening: map<MerchantId, Merchant>)
    requires GatewayOk(y, opening) && Acts(y, Inner(a), y')
    ensures GatewayOk(y', opening)
  {
    hide Inv, Advance, Stored, KeyOk, MadeFor, EntryOk;
    StepKeepsInv(y.ledger, a, y'.ledger, opening);
    StepKeepsAnswers(y.ledger, a, y'.ledger, opening);
    assert Grows(y, y');
    forall r | r in y'.fronts ensures FrontOk(y', r) {
      assert FrontOk(y, r);
      if y.fronts[r].Answered? {
        AnsweredStays(y, y', r);
      }
    }
    forall key | key in y'.redis ensures EntryOk(y', key) {
      EntryStays(y, y', key);
    }
  }

  /** A request forwarded to the ledger. */
  lemma ForwardKeepsOk(y: Gateway, r: int, wrapped: bool, redis: map<string, Entry>, y': Gateway,
                       opening: map<MerchantId, Merchant>)
    requires GatewayOk(y, opening) && Forward(y, r, wrapped, redis, y') && y.fronts[r].Arrived?
    requires wrapped ==> MiddlewareKey(y.fronts[r].http) != ""
    requires forall key :: key in redis ==> redis[key] == InProgress || (key in y.redis && redis[key] == y.redis[key])
    ensures GatewayOk(y', opening)
  {
    hide Inv, Advance, Stored, KeyOk, MadeFor, MiddlewareKey;
    var h := y.fronts[r].http;
    StepKeepsInv(y.ledger, Arrive(r, Create(InputOf(h))), y'.ledger, opening);
    StepKeepsAnswers(y.ledger, Arrive(r, Create(InputOf(h))), y'.ledger, opening);
    assert Grows(y, y');
    forall q | q in y'.fronts ensures FrontOk(y', q) {
      if q != r {
        assert FrontOk(y, q);
        if y.fronts[q].Answered? {
          AnsweredStays(y, y', q);
        }
      }
    }
    forall key | key in y'.redis ensures EntryOk(y', key) {
      if key in y.redis && redis[key] == y.redis[key] {
        EntryStays(y, y', key);
      }
    }
  }

  /** A request answered with what its Redis entry holds. */
  lemma ReplayIsMadeFor(y: Gateway, h: HttpRequest)
    requires Coordinated(h) && EntryKey(h) in y.redis && y.redis[EntryKey(h)].Done? && EntryOk(y, EntryKey(h))
    ensures MadeFor(y, y.redis[EntryKey(h)].tx, h)
  {
    hide Stored, Serves, EntryKey;
    var key := EntryKey(h);
    var p :| Wrote(y, p, key, y.redis[key].tx);
    assert p in y.fronts && Feeds(y.fronts[p].http, h);
  }

  lemma ReplayKeepsOk(y: Gateway, r: int, response: Response, y': Gateway, opening: map<MerchantId, Merchant>)
    requires GatewayOk(y, opening) && r in y.fronts
    requires y' == y.(fronts := y.fronts[r := Answered(y.fronts[r].http, response)])
    requires response.Success? ==> MadeFor(y, response.tx, y.fronts[r].http)
    ensures GatewayOk(y', opening)
  {
    hide Inv, AnswersOk, Stored, MadeFor, EntryOk;
    assert Grows(y, y') by { SameRowsKept(y.ledger.world.db); }
    forall q | q in y'.fronts ensures FrontOk(y', q) {
      if q != r {
        assert FrontOk(y, q);
        if y.fronts[q].Answered? {
          AnsweredStays(y, y', q);
        }
      } else if response.Success? {
        MadeForStays(y, y', response.tx, y.fronts[r].http);
      }
    }
    forall key | key in y'.redis ensures EntryOk(y', key) {
      EntryStays(y, y', key);
    }
  }

  lemma CheckKeepsOk(y: Gateway, r: int, call: RedisCall, y': Gateway, opening: map<MerchantId, Merchant>)
    requires GatewayOk(y, opening) && Acts(y, Check(r, call), y')
    ensures GatewayOk(y', opening)
  {
    hide GatewayOk, Forward, MadeFor, EntryOk;
    var h := y.fronts[r].http;
    if MiddlewareKey(h) == "" {
      ForwardKeepsOk(y, r, false, y.redis, y', opening);
    } else if h.merchantId == "" {
      ForwardKeepsOk(y, r, true, y.redis, y', opening);
    } else if call != Works {
      ForwardKeepsOk(y, r, false, if call == FailsDone then Begun(y.redis, h) else y.redis, y', opening);
    } else if EntryKey(h) !in y.redis {
      ForwardKeepsOk(y, r, true, Begun(y.redis, h), y', opening);
    } else {
      EntryIsOk(y, opening, EntryKey(h));
      if y.redis[EntryKey(h)].Done? {
        ReplayIsMadeFor(y, h);
      }
      ReplayKeepsOk(y, r, y'.fronts[r].response, y', opening);
    }
  }

  lemma EntryIsOk(y: Gateway, opening: map<MerchantId, Merchant>, key: string)
    requires GatewayOk(y, opening) && key in y.redis
    ensures EntryOk(y, key)
  {
  }

  lemma AnswerIsMadeFor(y: Gateway, r: int, opening: map<MerchantId, Merchant>)
    requires GatewayOk(y, opening) && r in y.fronts && y.fronts[r].Waiting? && r in y.ledger.reqs &&
        y.ledger.reqs[r].pc.Replied?
    requires ResponseTo(y.ledger.reqs[r].pc.reply).Success?
    ensures MadeFor(y, ResponseTo(y.ledger.reqs[r].pc.reply).tx, y.fronts[r].http)
    ensures Serves(ResponseTo(y.ledger.reqs[r].pc.reply).tx, InputOf(y.fronts[r].http))
    ensures Stored(y.ledger.world.db, ResponseTo(y.ledger.reqs[r].pc.reply).tx)
    ensures y.fronts[r].wrapped ==> MiddlewareKey(y.fronts[r].http) != ""
  {
    hide Inv, Stored, Serves;
    assert FrontOk(y, r) && KeyOk(y.ledger.world.db, y.ledger.reqs[r]);
  }

  lemma FinishKeepsOk(y: Gateway, r: int, store: RedisCall, release: RedisCall, y': Gateway,
                      opening: map<MerchantId, Merchant>)
    requires GatewayOk(y, opening) && Acts(y, Finish(r, store, release), y')
    ensures GatewayOk(y', opening)
  {
    hide Inv, AnswersOk, Stored, Serves, MadeFor, MiddlewareKey, EntryKey;
    var Waiting(h, wrapped) := y.fronts[r];
    var response := ResponseTo(y.ledger.reqs[r].pc.reply);
    if response.Success? {
      AnswerIsMadeFor(y, r, opening);
    }
    var mid := y.(fronts := y'.fronts);
    ReplayKeepsOk(y, r, response, mid, opening);
    forall q | q in y'.fronts ensures FrontOk(y', q) {
      assert FrontOk(mid, q);
      SameFronts(mid, y', q);
    }
    forall key | key in y'.redis ensures EntryOk(y', key) {
      if key in mid.redis && y'.redis[key] == mid.redis[key] {
        assert Grows(mid, y') by { SameRowsKept(y.ledger.world.db); }
        EntryStays(mid, y', key);
      } else {
        assert Wrote(y', r, key, response.tx);
      }
    }
  }

  lemma SameFronts(y: Gateway, y': Gateway, q: int)
    requires q in y.fronts && FrontOk(y, q) && y' == y.(redis := y'.redis)
    ensures FrontOk(y', q)
  {
    hide Stored, Serves, Feeds;
  }

  lemma LoseKeepsOk(y: Gateway, key: string, y': Gateway, opening: map<MerchantId, Merchant>)
    requires GatewayOk(y, opening) && Acts(y, Lose(key), y')
    ensures GatewayOk(y', opening)
  {
    hide Inv, AnswersOk, EntryOk, FrontOk;
    forall q | q in y'.fronts ensures FrontOk(y', q) {
      SameFronts(y, y', q);
    }
    assert Grows(y, y') by { SameRowsKept(y.ledger.world.db); }
    forall k | k in y'.redis ensures EntryOk(y', k) {
      EntryStays(y, y', k);
    }
  }

  lemma ReceiveKeepsOk(y: Gateway, r: int, h: HttpRequest, y': Gateway, opening: map<MerchantId, Merchant>)
    requires GatewayOk(y, opening) && Acts(y, Receive(r, h), y')
    ensures GatewayOk(y', opening)
  {
    hide Inv, AnswersOk, EntryOk, MadeFor;
    assert Grows(y, y') by { SameRowsKept(y.ledger.world.db); }
    forall q | q in y'.fronts ensures FrontOk(y', q) {
      if q != r {
        assert FrontOk(y, q);
        if y.fronts[q].Answered? {
          AnsweredStays(y, y', q);
        }
      }
    }
    forall k | k in y'.redis ensures EntryOk(y', k) {
      EntryStays(y, y', k);
    }
  }

  lemma ActKeepsOk(y: Gateway, act: Act, y': Gateway, opening: map<MerchantId, Merchant>)
    requires GatewayOk(y, opening) && Acts(y, act, y')
    ensures GatewayOk(y', opening)
  {
    hide GatewayOk, Checks, Step;
    match act
    case Receive(r, h) => ReceiveKeepsOk(y, r, h, y', opening);
    case Check(r, call) => CheckKeepsOk(y, r, call, y', opening);
    case Inner(a) => InnerKeepsOk(y, a, y', opening);
    case Finish(r, store, release) => FinishKeepsOk(y, r, store, release, y', opening);
    case Lose(key) => LoseKeepsOk(y, key, y', opening);
  }

  lemma GatewayOkAtStart(y: Gateway)
    requires Init(y.ledger) && y.redis == map[] && y.fronts == map[]
    ensures GatewayOk(y, y.ledger.world.db.merchants)
  {
    InvAtStart(y.ledger);
  }

  lemma {:induction false} OkOnGatewayRuns(ys: seq<Gateway>, acts: seq<Act>, i: nat)
    requires IsGatewayRun(ys, acts) && i < |ys|
    ensures GatewayOk(ys[i], ys[0].ledger.world.db.merchants)
  {
    hide GatewayOk, Acts, Init;
    if i == 0 {
      GatewayOkAtStart(ys[0]);
    } else {
      OkOnGatewayRuns(ys, acts, i - 1);
      ActKeepsOk(ys[i - 1], acts[i - 1], ys[i], ys[0].ledger.world.db.merchants);
    }
  }

  // ---- Main results ----

  /** One key, one row, one bank stage, one credit, whatever Redis loses and whatever the headers say:
      the unique index decides. */
  lemma OneRowPerKey(ys: seq<Gateway>, acts: seq<Act>, i: nat, a: TxId, b: TxId)
    requires IsGatewayRun(ys, acts) && i < |ys|
    requires var txns := ys[i].ledger.world.db.txns;
             a in txns && b in txns && txns[a].idempotencyKey == txns[b].idempotencyKey != ""
    ensures a == b && ys[i].ledger.world.stages[a] <= 1 && ys[i].ledger.world.credits[a] <= 1
  {
    OkOnGatewayRuns(ys, acts, i);
    assert LedgerSafety.RowOk(RowOf(ys[i].ledger.world, a), a, Attempts(ys[i].ledger.cfg.maxAttempts));
  }

  ghost predicate Succeeded(y: Gateway, r: int) {
    r in y.fronts && y.fronts[r].Answered? && y.fronts[r].response.Success?
  }

  /** Every success on every run carries a stored transaction that was made for the request itself or for one
      with the same Redis entry, under that request's key. */
  lemma SuccessHasMaker(ys: seq<Gateway>, acts: seq<Act>, i: nat, r: int) returns (p: int)
    requires IsGatewayRun(ys, acts) && i < |ys| && Succeeded(ys[i], r)
    ensures p in ys[i].fronts && Feeds(ys[i].fronts[p].http, ys[i].fronts[r].http)
    ensures var tx, g, txns := ys[i].fronts[r].response.tx, ys[i].fronts[p].http, ys[i].ledger.world.db.txns;
            && tx.id in txns && txns[tx.id].idempotencyKey == tx.idempotencyKey == ServiceKey(g)
            && Acceptable(g.amountCents, g.currency)
  {
    hide Inv, Feeds;
    OkOnGatewayRuns(ys, acts, i);
    var y := ys[i];
    var tx := y.fronts[r].response.tx;
    assert FrontOk(y, r) && MadeFor(y, tx, y.fronts[r].http);
    p :| p in y.fronts && Serves(tx, InputOf(y.fronts[p].http)) && Feeds(y.fronts[p].http, y.fronts[r].http);
    RowAcceptable(y.ledger, ys[0].ledger.world.db.merchants, tx.id);
  }

  lemma RowAcceptable(s: State, opening: map<MerchantId, Merchant>, id: TxId)
    requires Inv(s, opening) && id in s.world.db.txns
    ensures Acceptable(s.world.db.txns[id].amountCents, s.world.db.txns[id].currency)
  {
    assert LedgerSafety.RowOk(RowOf(s.world, id), id, Attempts(s.cfg.maxAttempts));
  }

  /** Two requests that share a Redis entry but not the key the handler uses. */
  predicate Mixed(g: HttpRequest, h: HttpRequest) {
    ShareEntry(g, h) && ServiceKey(g) != ServiceKey(h)
  }

  /** Every successful response for one key carries the same transaction, and it is the stored one, unless
      one of the two shares its Redis entry with a request of another key. Other requests do not matter. */
  lemma SameTransactionForKey(ys: seq<Gateway>, acts: seq<Act>, i: nat, q: int, r: int)
    requires IsGatewayRun(ys, acts) && i < |ys| && Succeeded(ys[i], q) && Succeeded(ys[i], r)
    requires ServiceKey(ys[i].fronts[q].http) == ServiceKey(ys[i].fronts[r].http) != ""
    requires forall p :: p in ys[i].fronts ==> !Mixed(ys[i].fronts[p].http, ys[i].fronts[q].http)
                                               && !Mixed(ys[i].fronts[p].http, ys[i].fronts[r].http)
    ensures ys[i].fronts[q].response.tx.id == ys[i].fronts[r].response.tx.id
    ensures ys[i].fronts[q].response.tx.id in ys[i].ledger.world.db.txns
  {
    hide Inv, Acts, ShareEntry;
    var a := SuccessHasMaker(ys, acts, i, q);
    var b := SuccessHasMaker(ys, acts, i, r);
    assert !Mixed(ys[i].fronts[a].http, ys[i].fronts[q].http) && !Mixed(ys[i].fronts[b].http, ys[i].fronts[r].http);
    OneRowPerKey(ys, acts, i, ys[i].fronts[q].response.tx.id, ys[i].fronts[r].response.tx.id);
  }

  /** What a caller can check: agreeing headers and merchant IDs without a closing brace never mix keys. */
  lemma PlainRequestsNeverMix(g: HttpRequest, h: HttpRequest)
    requires HeadersAgree(g) && HeadersAgree(h) && '}' !in g.merchantId && '}' !in h.merchantId
    ensures !Mixed(g, h)
  {
    if ShareEntry(g, h) {
      IdempotencyStores.KeyInjective(g.merchantId, MiddlewareKey(g), h.merchantId, MiddlewareKey(h));
      KeysAgreeIffHeadersAgree(g);
      KeysAgreeIffHeadersAgree(h);
    }
  }

  /** On every run a replay was stored by an earlier request under the same Redis key, and carries the handler's key
      if and only if that request had it. Beside a plain one, that is if and only if the headers agree. */
  lemma ReplayMatchesIffHeadersAgree(ys: seq<Gateway>, acts: seq<Act>, i: nat, r: int) returns (p: int)
    requires IsGatewayRun(ys, acts) && i < |acts| && acts[i] == Check(r, Works) && Succeeded(ys[i + 1], r)
    ensures p in ys[i].fronts && ys[i].fronts[p].Answered? && ShareEntry(ys[i].fronts[p].http, ys[i + 1].fronts[r].http)
    ensures var g, h := ys[i].fronts[p].http, ys[i + 1].fronts[r].http;
            var match' := ys[i + 1].fronts[r].response.tx.idempotencyKey == ServiceKey(h);
            && (match' <==> ServiceKey(g) == ServiceKey(h))
            && (HeadersAgree(g) && '}' !in g.merchantId && '}' !in h.merchantId ==> (match' <==> HeadersAgree(h)))
  {
    hide Inv, Stored, Step;
    var y, h := ys[i], ys[i].fronts[r].http;
    OkOnGatewayRuns(ys, acts, i);
    assert Checks(y, r, Works, ys[i + 1]);
    EntryIsOk(y, ys[0].ledger.world.db.merchants, EntryKey(h));
    p :| Wrote(y, p, EntryKey(h), y.redis[EntryKey(h)].tx);
    var g := y.fronts[p].http;
    if '}' !in g.merchantId && '}' !in h.merchantId {
      IdempotencyStores.KeyInjective(g.merchantId, MiddlewareKey(g), h.merchantId, MiddlewareKey(h));
      KeysAgreeIffHeadersAgree(g);
      KeysAgreeIffHeadersAgree(h);
    }
  }

  // ---- What a repeated request is told ----

  /** The acts that can change this Redis entry: a loss, a check that finds none, and the end of a request for it. */
  ghost predicate Disturbs(y: Gateway, act: Act, key: string) {
    match act
    case Lose(k) => k == key
    case Check(r, _) =>
      key !in y.redis && r in y.fronts && Coordinated(y.fronts[r].http) && EntryKey(y.fronts[r].http) == key
    case Finish(r, _, _) => r in y.fronts && Coordinated(y.fronts[r].http) && EntryKey(y.fronts[r].http) == key
    case _ => false
  }

  lemma {:induction false} EntryUndisturbed(ys: seq<Gateway>, acts: seq<Act>, i: nat, j: nat, key: string)
    requires IsGatewayRun(ys, acts) && i <= j < |ys|
    requires forall k :: i <= k < j ==> !Disturbs(ys[k], acts[k], key)
    ensures key in ys[i].redis <==> key in ys[j].redis
    ensures key in ys[i].redis ==> ys[j].redis[key] == ys[i].redis[key]
    decreases j
  {
    hide EntryKey, MiddlewareKey, Step;
    if i < j {
      EntryUndisturbed(ys, acts, i, j - 1, key);
      hide Disturbs, IsGatewayRun;
      ActLeavesEntry(ys[j - 1], acts[j - 1], ys[j], key);
    }
  }

  lemma ActLeavesEntry(y: Gateway, act: Act, y': Gateway, key: string)
    requires Acts(y, act, y') && !Disturbs(y, act, key)
    ensures key in y.redis <==> key in y'.redis
    ensures key in y.redis ==> y'.redis[key] == y.redis[key]
  {
    hide EntryKey, Step, ServiceKey;
  }

  /** A request that ends, behind its Redis entry, with calls that work. */
  ghost predicate EndsBehindEntry(y: Gateway, act: Act, h: HttpRequest) {
    act.Finish? && act.store == Works && act.release == Works
    && act.r in y.fronts && y.fronts[act.r] == Waiting(h, true) && Coordinated(h)
  }

  /** The end of a request: its answer is a success exactly when the ledger's is. Behind its entry a success is stored,
      and removed again where the store returned an error; a failure removes the entry. Without one Redis is left
      alone, as is every other entry. */
  lemma FinishDecides(y: Gateway, r: int, store: RedisCall, release: RedisCall, y': Gateway)
    requires Acts(y, Finish(r, store, release), y')
    ensures r in y.fronts && y.fronts[r].Waiting? && r in y'.fronts && r in y.ledger.reqs
            && y.ledger.reqs[r].pc.Replied? && y'.ledger == y.ledger
    ensures var Waiting(h, wrapped) := y.fronts[r]; var Reply(tx, err) := y.ledger.reqs[r].pc.reply;
            var success, key := err == None && tx.Some?, EntryKey(h);
            && y'.fronts[r] == Answered(h, if success then Success(tx.value) else Failure)
            && (!wrapped || !Coordinated(h) ==> y'.redis == y.redis)
            && (wrapped && Coordinated(h) && success && store == Works ==>
                  key in y'.redis && y'.redis[key] == Done(tx.value))
            && (wrapped && Coordinated(h) && !(success && store == Works) && release != FailsUndone ==>
                  key !in y'.redis)
            && (forall k :: k in y.redis && k != key ==> k in y'.redis && y'.redis[k] == y.redis[k])
  {
    hide EntryKey;
  }

  lemma EndDecidesEntry(y: Gateway, act: Act, y': Gateway, h: HttpRequest)
    requires Acts(y, act, y') && EndsBehindEntry(y, act, h)
    ensures act.r in y'.fronts && y'.fronts[act.r].Answered?
    ensures var response := y'.fronts[act.r].response;
            if response.Success? then EntryKey(h) in y'.redis && y'.redis[EntryKey(h)] == Done(response.tx)
            else EntryKey(h) !in y'.redis
  {
    hide EntryKey;
  }

  /** Once a request has ended in a success and until its entry is lost or rewritten, every request that shares the
      entry is answered with that very response, and the ledger does not hear of it. */
  lemma RepeatIsReplayed(ys: seq<Gateway>, acts: seq<Act>, i: nat, j: nat, h: HttpRequest, q: int)
    requires IsGatewayRun(ys, acts) && i < j < |acts| && EndsBehindEntry(ys[i], acts[i], h)
    requires acts[i].r in ys[i + 1].fronts && ys[i + 1].fronts[acts[i].r].Answered?
             && ys[i + 1].fronts[acts[i].r].response.Success?
    requires forall k :: i < k < j ==> !Disturbs(ys[k], acts[k], EntryKey(h))
    requires acts[j] == Check(q, Works) && q in ys[j].fronts && ShareEntry(h, ys[j].fronts[q].http)
    ensures q in ys[j + 1].fronts
            && ys[j + 1].fronts[q] == Answered(ys[j].fronts[q].http, ys[i + 1].fronts[acts[i].r].response)
    ensures ys[j + 1].ledger == ys[j].ledger
  {
    hide EntryKey, Step;
    EndDecidesEntry(ys[i], acts[i], ys[i + 1], h);
    EntryUndisturbed(ys, acts, i + 1, j, EntryKey(h));
    assert Acts(ys[j], acts[j], ys[j + 1]);
  }

  /** Once a request has ended in a failure, the next request that shares the entry reaches the ledger. */
  lemma FailureFreesEntry(ys: seq<Gateway>, acts: seq<Act>, i: nat, j: nat, h: HttpRequest, q: int)
    requires IsGatewayRun(ys, acts) && i < j < |acts| && EndsBehindEntry(ys[i], acts[i], h)
    requires acts[i].r in ys[i + 1].fronts && ys[i + 1].fronts[acts[i].r] == Answered(h, Failure)
    requires forall k :: i < k < j ==> !Disturbs(ys[k], acts[k], EntryKey(h))
    requires acts[j] == Check(q, Works) && q in ys[j].fronts && ShareEntry(h, ys[j].fronts[q].http)
    ensures q in ys[j + 1].fronts && ys[j + 1].fronts[q] == Waiting(ys[j].fronts[q].http, true)
    ensures q in ys[j + 1].ledger.reqs
            && ys[j + 1].ledger.reqs[q] == Request(Create(InputOf(ys[j].fronts[q].http)), CheckKey)
  {
    hide EntryKey, ServiceKey;
    EndDecidesEntry(ys[i], acts[i], ys[i + 1], h);
    EntryUndisturbed(ys, acts, i + 1, j, EntryKey(h));
    assert Acts(ys[j], acts[j], ys[j + 1]);
  }

  /** A request that finds its entry is answered from it and never reaches the ledger; one that finds none, has no
      identity or whose check fails always does, with its own fields and the key the handler reads. */
  lemma CheckDecides(y: Gateway, r: int, call: RedisCall, y': Gateway)
    requires Acts(y, Check(r, call), y')
    ensures r in y.fronts && r in y'.fronts
    ensures var h := y.fronts[r].http;
            && (Coordinated(h) && call == Works && EntryKey(h) in y.redis ==>
                  && y'.ledger == y.ledger && y'.redis == y.redis
                  && y'.fronts[r] == Answered(h, if y.redis[EntryKey(h)] == InProgress then Conflict
                                                 else Success(y.redis[EntryKey(h)].tx)))
            && (!Coordinated(h) || call != Works || EntryKey(h) !in y.redis ==>
                  && r in y'.ledger.reqs && y'.ledger.world == y.ledger.world
                  && y'.fronts[r] == Waiting(h, (h.plain != "" || h.x != "") && (h.merchantId == "" || call == Works))
                  && var key := if h.x != "" then h.x else h.plain;
                     y'.ledger.reqs[r] == Request(Create(Input(h.merchantId, h.amountCents, h.currency, key,
                                                               h.description)), CheckKey))
  {
    hide EntryKey;
  }
}
