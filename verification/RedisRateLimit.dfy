// The Lua token bucket (internal/middleware/rate_limit.lua). Its key expires 60 s
// after its last call, so it forgets; the question is when forgetting can be seen.

module RedisRateLimit {
  import opened TokenBuckets

  const EXPIRY := 60.0

  /** The key is gone after `gap` seconds without a call. Whether it is gone at exactly 60 s is left open, as `edge`:
      every result below holds either way. */
  predicate Gone(gap: real, edge: bool) {
    gap > EXPIRY || (edge && gap == EXPIRY)
  }

  ghost predicate NonDecreasing(ts: seq<real>) {
    forall i, j :: 0 <= i <= j < |ts| ==> ts[i] <= ts[j]
  }

  /** What call `n` sees: a full bucket on a missing key, else the refilled one. */
  function LuaSeen(rate: real, burst: real, edge: bool, ts: seq<real>, n: nat): real
    requires n < |ts|
    decreases n, 0
  {
    if n == 0 || Gone(ts[n] - ts[n - 1], edge) then burst
    else if ts[n] - ts[n - 1] > 0.0
    then MinReal(burst, LuaLeft(rate, burst, edge, ts, n - 1) + (Accrued(rate, ts[n]) - Accrued(rate, ts[n - 1])))
    else LuaLeft(rate, burst, edge, ts, n - 1)
  }

  predicate LuaAdmits(rate: real, burst: real, edge: bool, ts: seq<real>, n: nat)
    requires n < |ts|
  {
    LuaSeen(rate, burst, edge, ts, n) >= 1.0
  }

  function LuaLeft(rate: real, burst: real, edge: bool, ts: seq<real>, n: nat): real
    requires n < |ts|
    decreases n, 1
  {
    LuaSeen(rate, burst, edge, ts, n) - Unit(LuaSeen(rate, burst, edge, ts, n) >= 1.0)
  }

  lemma {:induction false} LuaSeenOfPrefix(rate: real, burst: real, edge: bool, ts: seq<real>, more: seq<real>, n: nat)
    requires n < |ts|
    ensures LuaSeen(rate, burst, edge, ts + more, n) == LuaSeen(rate, burst, edge, ts, n)
  {
    if n > 0 {
      LuaSeenOfPrefix(rate, burst, edge, ts, more, n - 1);
    }
  }

  datatype Entry = Missing | Entry(tokens: real, last: real)

  /** The Redis hash behind one client's key, and the script that runs on it. */
  class RedisBucket {
    var entry: Entry
    var expireAt: real
    const rate: real
    const burst: real
    const edge: bool
    ghost var calls: seq<real>

    ghost predicate Valid()
      reads this
    {
      if calls == [] then entry == Missing
      else entry == Entry(LuaLeft(rate, burst, edge, calls, |calls| - 1), calls[|calls| - 1])
           && expireAt == calls[|calls| - 1] + EXPIRY
    }

    constructor (rate: real, burst: real, edge: bool)
      ensures Valid() && calls == [] && this.rate == rate && this.burst == burst && this.edge == edge
    {
      entry, expireAt, calls := Missing, 0.0, [];
      this.rate := rate;
      this.burst := burst;
      this.edge := edge;
    }

    method Run(now: real) returns (allowed: bool)
      requires Valid()
      modifies this
      ensures Valid() && calls == old(calls) + [now]
      ensures allowed <==> LuaAdmits(rate, burst, edge, calls, |calls| - 1)
    {
      if calls != [] {
        LuaSeenOfPrefix(rate, burst, edge, calls, [now], |calls| - 1);
        assert LuaLeft(rate, burst, edge, calls + [now], |calls| - 1) == LuaLeft(rate, burst, edge, calls, |calls| - 1);
      }
      if calls != [] {
        Refill(rate, calls[|calls| - 1], now);
      }
      ghost var seen := LuaSeen(rate, burst, edge, calls + [now], |calls|);
      if entry != Missing && (now > expireAt || (edge && now == expireAt)) {
        entry := Missing;
      }
      var tokens: real;
      match entry {
        case Missing =>
          tokens := burst;
        case Entry(stored, last) =>
          tokens := stored;
          var elapsed := now - last;
          if elapsed > 0.0 {
            tokens := tokens + Gain(elapsed, rate);
            if tokens > burst {
              tokens := burst;
            }
          }
      }
      assert tokens == seen;
      allowed := tokens >= 1.0;
      if allowed {
        tokens := tokens - 1.0;
      }
      entry := Entry(tokens, now);
      expireAt := now + EXPIRY;
      calls := calls + [now];
    }
  }

  // ---- Against a bucket that never forgets ----

  lemma {:induction false} SeenAtMostBurst(rate: real, burst: real, edge: bool, ts: seq<real>, n: nat)
    requires n < |ts|
    ensures Seen(rate, burst, ts, n) <= burst && LuaSeen(rate, burst, edge, ts, n) <= burst
  {
    if n > 0 {
      SeenAtMostBurst(rate, burst, edge, ts, n - 1);
    }
  }

  lemma Accrues(rate: real, from: real, to: real)
    requires rate >= 0.0 && from <= to
    ensures Accrued(rate, to) - Accrued(rate, from) >= 0.0
    ensures to - from >= EXPIRY ==> Accrued(rate, to) - Accrued(rate, from) >= Gain(EXPIRY, rate)
  {
    Refill(rate, from, to);
    GainNonNegative(to - from, rate);
    if to - from >= EXPIRY {
      GainNonNegative(to - from - EXPIRY, rate);
      Refill(rate, EXPIRY, to - from);
    }
  }

  lemma {:induction false} SameTokens(rate: real, burst: real, edge: bool, ts: seq<real>, n: nat)
    requires NonDecreasing(ts) && n < |ts| && Gain(EXPIRY, rate) >= burst >= 0.0
    ensures LuaSeen(rate, burst, edge, ts, n) == Seen(rate, burst, ts, n) >= 0.0
  {
    if n > 0 {
      SameTokens(rate, burst, edge, ts, n - 1);
      SeenAtMostBurst(rate, burst, edge, ts, n - 1);
      Accrues(rate, ts[n - 1], ts[n]);
    }
  }

  /** Whenever 60 * rate >= burst, forgetting is invisible: every decision of every sequence is
      the one a bucket that never expires would make. */
  lemma ForgettingInvisible(rate: real, burst: real, edge: bool, ts: seq<real>, n: nat)
    requires NonDecreasing(ts) && n < |ts| && 60.0 * rate >= burst
    ensures LuaAdmits(rate, burst, edge, ts, n) <==> Admits(rate, burst, ts, n)
  {
    if burst >= 0.0 {
      SameTokens(rate, burst, edge, ts, n);
    } else {
      SeenAtMostBurst(rate, burst, edge, ts, n);
    }
  }

  /** What the script remembers: its decision is that of a bucket that never forgets and was full at the last call
      that came more than 60 s after its predecessor, or at the first call. */
  lemma {:induction false} RemembersSinceLastGap(rate: real, burst: real, edge: bool, ts: seq<real>, g: nat, n: nat)
    requires NonDecreasing(ts) && g <= n < |ts|
    requires g == 0 || ts[g] - ts[g - 1] > 60.0 || (edge && ts[g] - ts[g - 1] == 60.0)
    requires forall k :: g < k <= n ==> ts[k] - ts[k - 1] < 60.0 || (!edge && ts[k] - ts[k - 1] == 60.0)
    ensures LuaSeen(rate, burst, edge, ts, n) == Seen(rate, burst, ts[g..], n - g)
    ensures LuaAdmits(rate, burst, edge, ts, n) <==> Admits(rate, burst, ts[g..], n - g)
    decreases n
  {
    if g < n {
      RemembersSinceLastGap(rate, burst, edge, ts, g, n - 1);
      SeenAtMostBurst(rate, burst, edge, ts, n - 1);
      assert ts[n - 1] <= ts[n];
    }
  }

  /** `burst` calls at once, `gap` seconds of silence, and `burst` calls at once. */
  function TwoBursts(burst: nat, gap: real): (ts: seq<real>)
    ensures |ts| == 2 * burst
  {
    seq(2 * burst, i => if i < burst then 0.0 else gap)
  }

  lemma {:induction false} LuaAdmitsBothBursts(rate: real, burst: nat, edge: bool, gap: real, n: nat)
    requires n < 2 * burst && gap > EXPIRY
    ensures LuaSeen(rate, burst as real, edge, TwoBursts(burst, gap), n) ==
        (burst - if n < burst then n else n - burst) as real
  {
    if n > 0 {
      LuaAdmitsBothBursts(rate, burst, edge, gap, n - 1);
    }
  }

  lemma {:induction false} AllUsed(rate: real, burst: real, ts: seq<real>, n: nat)
    requires n < |ts| && forall k :: 0 <= k < n ==> Admits(rate, burst, ts, k)
    ensures Used(rate, burst, ts, 0, n) == n as real
  {
    if n > 0 {
      AllUsed(rate, burst, ts, n - 1);
    }
  }

  /** A bucket that never forgets can admit both bursts only if the gap refills it. */
  lemma BothBurstsNeedRefill(rate: real, burst: nat, b: real, gap: real)
    requires burst >= 1 && b == burst as real
    requires forall n :: 0 <= n < 2 * burst ==> Admits(rate, b, TwoBursts(burst, gap), n)
    ensures Gain(gap, rate) >= b
  {
    var ts, last := TwoBursts(burst, gap), 2 * burst - 1;
    AllUsed(rate, b, ts, last);
    SeenIsMinimum(rate, b, ts, last);
    assert Seen(rate, b, ts, last) <= Window(rate, b, ts, 0, last);
    assert Accrued(rate, ts[last]) == Gain(gap, rate) && Accrued(rate, ts[0]) == 0.0;
    assert Admits(rate, b, ts, last) && last as real == 2.0 * b - 1.0;
  }

  ghost predicate SameDecisions(rate: real, burst: real, edge: bool) {
    forall ts: seq<real>, n: nat ::
      NonDecreasing(ts) && n < |ts| ==> (LuaAdmits(rate, burst, edge, ts, n) <==> Admits(rate, burst, ts, n))
  }

  /** A silence longer than a minute that still does not refill the bucket. */
  lemma SomeShortGap(rate: real, b: real) returns (gap: real)
    requires b > 0.0 && Gain(EXPIRY, rate) < b
    ensures gap > EXPIRY && Gain(gap, rate) < b
  {
    if rate <= 0.0 {
      gap := EXPIRY + 1.0;
    } else {
      var half := (b - Gain(EXPIRY, rate)) / 2.0;
      gap := EXPIRY + half / rate;
      assert Gain(gap, rate) == Gain(EXPIRY, rate) + half;
    }
  }

  /** With a smaller rate forgetting shows: the Lua bucket admits two bursts just over a minute apart, the other does
      not. */
  lemma ForgettingVisible(rate: real, burst: nat, b: real, edge: bool)
    requires burst >= 1 && b == burst as real && 60.0 * rate < b
    ensures !SameDecisions(rate, b, edge)
  {
    var gap := SomeShortGap(rate, b);
    var ts := TwoBursts(burst, gap);
    if forall n :: 0 <= n < 2 * burst ==> Admits(rate, b, ts, n) {
      BothBurstsNeedRefill(rate, burst, b, gap);
    } else {
      var n: nat :| n < 2 * burst && !Admits(rate, b, ts, n);
      LuaAdmitsBothBursts(rate, burst, edge, gap, n);
      assert LuaAdmits(rate, b, edge, ts, n);
      assert NonDecreasing(ts);
    }
  }

  /** For the whole bursts the server is configured with, forgetting is invisible on every sequence
      if and only if 60 * rate >= burst. */
  lemma InvisibleIffRefilledInTime(rate: real, burst: nat, b: real, edge: bool)
    requires burst >= 1 && b == burst as real
    ensures SameDecisions(rate, b, edge) <==> 60.0 * rate >= b
  {
    if Gain(EXPIRY, rate) >= b {
      forall ts: seq<real>, n: nat | NonDecreasing(ts) && n < |ts|
        ensures LuaAdmits(rate, b, edge, ts, n) <==> Admits(rate, b, ts, n)
      {
        ForgettingInvisible(rate, b, edge, ts, n);
      }
    } else {
      ForgettingVisible(rate, burst, b, edge);
    }
  }
}
