// The in-process token buckets (internal/concurrency/patterns.go,
// internal/middleware/middleware.go): what the incremental state means in terms of
// the whole history of calls. Tokens and seconds are reals.

module TokenBuckets {

  function MinReal(a: real, b: real): real {
    if a < b then a else b
  }

  function Unit(b: bool): real {
    if b then 1.0 else 0.0
  }

  /** Tokens the refill has produced by time `t`, counted from time zero. */
  function Accrued(rate: real, t: real): real {
    t * rate
  }

  function Gain(elapsed: real, rate: real): real {
    elapsed * rate
  }

  lemma Refill(rate: real, from: real, to: real)
    ensures Gain(to - from, rate) == Accrued(rate, to) - Accrued(rate, from)
  {
  }

  /** The tokens call `n` sees after refilling, for calls at times `ts`. */
  function Seen(rate: real, burst: real, ts: seq<real>, n: nat): real
    requires n < |ts|
    decreases n, 0
  {
    if n == 0 then burst
    else MinReal(burst, Left(rate, burst, ts, n - 1) + (Accrued(rate, ts[n]) - Accrued(rate, ts[n - 1])))
  }

  predicate Admits(rate: real, burst: real, ts: seq<real>, n: nat)
    requires n < |ts|
  {
    Seen(rate, burst, ts, n) >= 1.0
  }

  function Left(rate: real, burst: real, ts: seq<real>, n: nat): real
    requires n < |ts|
    decreases n, 1
  {
    Seen(rate, burst, ts, n) - Unit(Seen(rate, burst, ts, n) >= 1.0)
  }

  /** Calls admitted from call `j` up to and not including call `n`. */
  function Used(rate: real, burst: real, ts: seq<real>, j: nat, n: nat): (u: real)
    requires j <= n < |ts|
    ensures u >= 0.0
    decreases n
  {
    if j == n then 0.0 else Used(rate, burst, ts, j, n - 1) + Unit(Admits(rate, burst, ts, n - 1))
  }

  /** What a window from call `j` to call `n` still allows. */
  function Window(rate: real, burst: real, ts: seq<real>, j: nat, n: nat): real
    requires j <= n < |ts|
  {
    burst + (Accrued(rate, ts[n]) - Accrued(rate, ts[j])) - Used(rate, burst, ts, j, n)
  }

  lemma WindowGrows(rate: real, burst: real, ts: seq<real>, j: nat, n: nat)
    requires j <= n && n + 1 < |ts|
    ensures Window(rate, burst, ts, j, n + 1)
         == Window(rate, burst, ts, j, n) +
             (Accrued(rate, ts[n + 1]) - Accrued(rate, ts[n])) - Unit(Admits(rate, burst, ts, n))
  {
  }

  /** Closed form: the tokens seen are the minimum over all windows ending at the call. */
  lemma {:induction false} SeenIsMinimum(rate: real, burst: real, ts: seq<real>, n: nat)
    requires n < |ts|
    ensures forall j :: 0 <= j <= n ==> Seen(rate, burst, ts, n) <= Window(rate, burst, ts, j, n)
    ensures exists j :: 0 <= j <= n && Seen(rate, burst, ts, n) == Window(rate, burst, ts, j, n)
  {
    assert Window(rate, burst, ts, n, n) == burst;
    if n > 0 {
      SeenIsMinimum(rate, burst, ts, n - 1);
      forall j | 0 <= j < n ensures Seen(rate, burst, ts, n) <= Window(rate, burst, ts, j, n) {
        WindowGrows(rate, burst, ts, j, n - 1);
      }
      var j :| 0 <= j <= n - 1 && Seen(rate, burst, ts, n - 1) == Window(rate, burst, ts, j, n - 1);
      WindowGrows(rate, burst, ts, j, n - 1);
    }
  }

  /** A call is admitted exactly when no window ending at it would then hold more than
      burst + rate * length admissions. */
  lemma AdmittedIffEveryWindowFits(rate: real, burst: real, ts: seq<real>, n: nat)
    requires n < |ts|
    ensures Admits(rate, burst, ts, n) <==>
              forall j :: 0 <= j <= n ==> Used(rate, burst, ts, j, n) + 1.0 <= burst + (ts[n] - ts[j]) * rate
  {
    SeenIsMinimum(rate, burst, ts, n);
    forall j | 0 <= j <= n
      ensures Window(rate, burst, ts, j, n) == burst + Gain(ts[n] - ts[j], rate) - Used(rate, burst, ts, j, n)
    {
      Refill(rate, ts[j], ts[n]);
    }
  }

  /** The past decides: later calls do not change what an earlier one saw. */
  lemma {:induction false} SeenOfPrefix(rate: real, burst: real, ts: seq<real>, more: seq<real>, n: nat)
    requires n < |ts|
    ensures Seen(rate, burst, ts + more, n) == Seen(rate, burst, ts, n)
  {
    if n > 0 {
      SeenOfPrefix(rate, burst, ts, more, n - 1);
    }
  }

  /** The state of a bucket after the calls at `ts`. */
  ghost predicate Tracks(tokens: real, lastCheck: real, rate: real, burst: real, ts: seq<real>) {
    ts != [] ==> tokens == Left(rate, burst, ts, |ts| - 1) && lastCheck == ts[|ts| - 1]
  }

  lemma NextCall(rate: real, burst: real, ts: seq<real>, now: real)
    ensures var ts' := ts + [now];
            Seen(rate, burst, ts', |ts|)
              == if ts == [] then burst else Refilled(Left(rate, burst, ts, |ts| - 1), ts[|ts| - 1], rate, burst, now)
  {
    if ts != [] {
      var ts', n := ts + [now], |ts|;
      SeenOfPrefix(rate, burst, ts, [now], n - 1);
      assert Left(rate, burst, ts', n - 1) == Left(rate, burst, ts, n - 1);
      Refill(rate, ts[n - 1], now);
    }
  }

  lemma GainNonNegative(elapsed: real, rate: real)
    requires elapsed >= 0.0 && rate >= 0.0
    ensures Gain(elapsed, rate) >= 0.0
  {
  }

  /** Refilling and capping as the methods below do it. */
  function Refilled(tokens: real, lastCheck: real, rate: real, burst: real, now: real): real {
    MinReal(burst, tokens + Gain(now - lastCheck, rate))
  }

  /** A bucket that tracks its calls refills to what the next call sees. */
  lemma RefilledIsSeen(tokens: real, lastCheck: real, rate: real, burst: real, ts: seq<real>, now: real)
    requires Tracks(tokens, lastCheck, rate, burst, ts)
    requires ts == [] ==> tokens == burst && Gain(now - lastCheck, rate) >= 0.0
    ensures Refilled(tokens, lastCheck, rate, burst, now) == Seen(rate, burst, ts + [now], |ts|)
  {
    NextCall(rate, burst, ts, now);
    Refill(rate, lastCheck, now);
  }

  class TokenBucket {
    var tokens: real
    var maxTokens: real
    var rate: real
    var lastCheck: real
    ghost var calls: seq<real>

    /** With a rate that does not drain the bucket, its state is the closed form of its history. */
    ghost predicate Valid()
      reads this
    {
      rate >= 0.0 ==>
        && (calls == [] ==> tokens == maxTokens)
        && Tracks(tokens, lastCheck, rate, maxTokens, calls)
    }

    constructor (rate: real, burst: real, now: real)
      ensures Valid() && calls == [] && tokens == burst && this.rate == rate && maxTokens == burst && lastCheck == now
    {
      tokens := burst;
      maxTokens := burst;
      this.rate := rate;
      lastCheck := now;
      calls := [];
    }

    method Allow(now: real) returns (allowed: bool)
      requires Valid() && now >= lastCheck
      modifies this
      ensures Valid() && rate == old(rate) && maxTokens == old(maxTokens)
      ensures calls == old(calls) + [now] && lastCheck == now
      ensures var full := old(tokens) + (now - old(lastCheck)) * rate;
              var seen := if full > maxTokens then maxTokens else full;
              (allowed <==> seen >= 1.0) && tokens == if seen >= 1.0 then seen - 1.0 else seen
      ensures rate >= 0.0 ==> (allowed <==> Admits(rate, maxTokens, calls, |calls| - 1))
    {
      if rate >= 0.0 {
        GainNonNegative(now - lastCheck, rate);
        RefilledIsSeen(tokens, lastCheck, rate, maxTokens, calls, now);
      }
      ghost var seen := Refilled(tokens, lastCheck, rate, maxTokens, now);
      var elapsed := now - lastCheck;
      tokens := tokens + Gain(elapsed, rate);
      if tokens > maxTokens {
        tokens := maxTokens;
      }
      assert tokens == seen;
      lastCheck := now;
      calls := calls + [now];
      if tokens < 1.0 {
        return false;
      }
      tokens := tokens - 1.0;
      return true;
    }
  }

  /** One client's bucket. */
  class Bucket {
    var tokens: real
    var lastCheck: real

    constructor (tokens: real, lastCheck: real)
      ensures this.tokens == tokens && this.lastCheck == lastCheck
    {
      this.tokens := tokens;
      this.lastCheck := lastCheck;
    }

    /** Refill, cap, and take one token if there is one. */
    method Take(rate: real, burst: real, now: real) returns (allowed: bool)
      modifies this
      ensures var seen := Refilled(old(tokens), old(lastCheck), rate, burst, now);
              lastCheck == now && (allowed <==> seen >= 1.0) && tokens == if seen >= 1.0 then seen - 1.0 else seen
    {
      var elapsed := now - lastCheck;
      tokens := tokens + Gain(elapsed, rate);
      if tokens > burst {
        tokens := burst;
      }
      lastCheck := now;
      if tokens < 1.0 {
        return false;
      }
      tokens := tokens - 1.0;
      return true;
    }
  }

  class RateLimiter {
    var buckets: map<string, Bucket>
    const rate: real
    const burst: real
    ghost var calls: map<string, seq<real>>   // call times, per key

    ghost function Buckets(): set<Bucket>
      reads this
    {
      set k | k in buckets :: buckets[k]
    }

    ghost predicate Valid()
      reads this, Buckets()
    {
      && calls.Keys == buckets.Keys
      && (forall k, l :: k in buckets && l in buckets && k != l ==> buckets[k] != buckets[l])
      && (forall k :: k in buckets ==>
            calls[k] != [] && Tracks(buckets[k].tokens, buckets[k].lastCheck, rate, burst, calls[k]))
    }

    ghost function Calls(key: string): seq<real>
      reads this
    {
      if key in calls then calls[key] else []
    }

    constructor (rps: int, burst: int)
      ensures Valid() && calls == map[] && this.rate == rps as real && this.burst == burst as real
    {
      buckets := map[];
      this.rate := rps as real;
      this.burst := burst as real;
      calls := map[];
    }

    /** The decision depends on this key's own calls only, and only this key's history grows. */
    method Allow(key: string, now: real) returns (allowed: bool)
      requires Valid()
      modifies this, Buckets()
      ensures Valid() && fresh(Buckets() - old(Buckets()))
      ensures calls == old(calls)[key := old(Calls(key)) + [now]]
      ensures allowed <==> Admits(rate, burst, calls[key], |calls[key]| - 1)
    {
      ghost var ts := Calls(key);
      if key !in buckets {
        var b := new Bucket(burst, now);
        buckets := buckets[key := b];
      }
      var b := buckets[key];
      assert Gain(0.0, rate) == 0.0;
      RefilledIsSeen(b.tokens, b.lastCheck, rate, burst, ts, now);
      label taking:
      allowed := b.Take(rate, burst, now);
      calls := calls[key := ts + [now]];
      assert Tracks(b.tokens, b.lastCheck, rate, burst, calls[key]);
      forall k | k in buckets && k != key
        ensures Tracks(buckets[k].tokens, buckets[k].lastCheck, rate, burst, calls[k])
      {
        assert unchanged@taking(buckets[k]);
      }
    }
  }
}
