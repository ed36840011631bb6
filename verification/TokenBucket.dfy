/**
 The token bucket of gtt_v2/shared/redis/rate_limiter.py.

 The script stores two numbers per endpoint, `tokens` and `last_refill`. This module shows
 that those two numbers say exactly as much as the whole history of calls: a call is let
 through if and only if it fits every window that ends at it.

 Tokens are counted in ten-thousandths, so every configured refill rate is a whole number of
 units per millisecond and no rounding is involved.
 */
module TokenBucket {

  const TOKEN := 10_000
  const KEY_TTL_MS := 60_000

  /** `max` whole tokens; `rate` in ten-thousandths of a token per millisecond. */
  datatype Limit = Limit(max: nat, rate: nat)

  datatype Endpoint =
    | GttPlace | GttGet | GttCancel | LtpFetch | OrderHistory | PortfolioWsAuth | Unlisted

  function LimitOf(e: Endpoint): Limit {
    match e
    case GttPlace => Limit(5, 20)
    case GttGet => Limit(10, 50)
    case GttCancel => Limit(5, 20)
    case LtpFetch => Limit(20, 100)
    case OrderHistory => Limit(10, 50)
    case PortfolioWsAuth => Limit(3, 1)
    case Unlisted => Limit(10, 50)
  }

  /** The Redis hash of one endpoint. */
  datatype Key = Absent | Present(tokens: int, last: int)

  function Min(a: int, b: int): int { if a <= b then a else b }

  /** What a bucket gains in `ms` milliseconds. */
  function Gain(lim: Limit, ms: int): int { ms * lim.rate }

  lemma GainIs(lim: Limit, ms: int)
    ensures Gain(lim, ms) == lim.rate * ms
  {
  }

  lemma GainAdds(lim: Limit, a: int, b: int)
    ensures Gain(lim, a + b) == Gain(lim, a) + Gain(lim, b) && Gain(lim, 0) == 0
  {
  }

  lemma GainMonotone(lim: Limit, a: int, b: int)
    requires a <= b
    ensures Gain(lim, a) <= Gain(lim, b)
  {
  }

  function Refilled(lim: Limit, key: Key, now: int): int {
    match key
    case Absent => lim.max * TOKEN
    case Present(tokens, last) => Min(lim.max * TOKEN, tokens + Gain(lim, now - last))
  }

  function Admits(lim: Limit, key: Key, now: int): bool {
    Refilled(lim, key, now) >= TOKEN
  }

  function Next(lim: Limit, key: Key, now: int): Key {
    Present(Refilled(lim, key, now) - (if Admits(lim, key, now) then TOKEN else 0), now)
  }

  // ----- Whole histories: `times[i]` is the clock reading of call i -----

  function KeyAfter(lim: Limit, times: seq<int>): Key {
    if times == [] then Absent
    else
      var before := times[..|times| - 1];
      Next(lim, KeyAfter(lim, before), times[|before|])
  }

  predicate Granted(lim: Limit, times: seq<int>, i: nat)
    requires i < |times|
  {
    Admits(lim, KeyAfter(lim, times[..i]), times[i])
  }

  /** How many of the calls i, ..., j-1 were let through. */
  function Count(lim: Limit, times: seq<int>, i: nat, j: nat): nat
    requires i <= j <= |times|
    decreases j
  {
    if i == j then 0
    else Count(lim, times, i, j - 1) + (if Granted(lim, times, j - 1) then 1 else 0)
  }

  /** What the window from call i to now has left: its budget less what it has spent. */
  function Allowance(lim: Limit, times: seq<int>, i: nat, now: int): int
    requires i < |times|
  {
    lim.max * TOKEN + lim.rate * (now - times[i]) - TOKEN * Count(lim, times, i, |times|)
  }

  lemma AllowanceIs(lim: Limit, times: seq<int>, i: nat, now: int)
    requires i < |times|
    ensures Allowance(lim, times, i, now)
         == lim.max * TOKEN + Gain(lim, now - times[i]) - TOKEN * Count(lim, times, i, |times|)
  {
    GainIs(lim, now - times[i]);
    hide Gain, Count;
  }

  predicate NonDecreasing(times: seq<int>) {
    forall i, j :: 0 <= i <= j < |times| ==> times[i] <= times[j]
  }

  lemma {:induction false} CountPrefix(lim: Limit, times: seq<int>, n: nat, i: nat, j: nat)
    requires i <= j <= n <= |times|
    ensures Count(lim, times[..n], i, j) == Count(lim, times, i, j)
    decreases j
  {
    if i < j {
      CountPrefix(lim, times, n, i, j - 1);
      assert times[..n][..j - 1] == times[..j - 1];
    }
  }

  /** One more call moves every window's allowance by the same amount. */
  lemma AllowanceStep(lim: Limit, times: seq<int>, last: int, i: nat, now: int)
    requires i < |times|
    ensures Allowance(lim, times + [last], i, now)
         == Allowance(lim, times, i, last) + Gain(lim, now - last)
            - (if Admits(lim, KeyAfter(lim, times), last) then TOKEN else 0)
  {
    hide Gain, Refilled, KeyAfter, Allowance;
    var longer := times + [last];
    assert longer[..|times|] == times;
    CountPrefix(lim, longer, |times|, i, |times|);
    GainAdds(lim, last - times[i], now - last);
    AllowanceIs(lim, longer, i, now);
    AllowanceIs(lim, times, i, last);
  }

  lemma AllowanceOfLatest(lim: Limit, times: seq<int>, last: int, now: int)
    ensures Allowance(lim, times + [last], |times|, now)
         == lim.max * TOKEN + Gain(lim, now - last)
            - (if Admits(lim, KeyAfter(lim, times), last) then TOKEN else 0)
  {
    hide Gain, Refilled, KeyAfter, Allowance;
    var longer := times + [last];
    assert longer[..|times|] == times;
    assert Count(lim, longer, |times|, |times|) == 0;
    AllowanceIs(lim, longer, |times|, now);
  }

  lemma {:induction false} LeastAllowance(lim: Limit, times: seq<int>, now: int)
    ensures var refilled := Refilled(lim, KeyAfter(lim, times), now);
      && refilled <= lim.max * TOKEN
      && (forall i :: 0 <= i < |times| ==> refilled <= Allowance(lim, times, i, now))
      && (refilled == lim.max * TOKEN || exists i :: 0 <= i < |times| && refilled == Allowance(lim, times, i, now))
  {
    hide Gain, Allowance;
    if times != [] {
      var before, last := times[..|times| - 1], times[|times| - 1];
      assert times == before + [last];
      LeastAllowance(lim, before, last);
      AllowanceOfLatest(lim, before, last, now);
      forall i | 0 <= i < |before|
        ensures Allowance(lim, times, i, now) == Allowance(lim, before, i, last)
                + Gain(lim, now - last) - (if Admits(lim, KeyAfter(lim, before), last) then TOKEN else 0)
      {
        AllowanceStep(lim, before, last, i, now);
      }
      var earlier := Refilled(lim, KeyAfter(lim, before), last);
      if earlier != lim.max * TOKEN {
        var i :| 0 <= i < |before| && earlier == Allowance(lim, before, i, last);
        assert Refilled(lim, KeyAfter(lim, times), now) in {lim.max * TOKEN, Allowance(lim, times, i, now)};
      }
    }
  }

  /**
   The refilled count is the least, over all earlier calls, of the maximum and what was refilled since the call,
   less what was granted from it on; and never more than the maximum.
   */
  lemma RefillIsLeastAllowance(lim: Limit, times: seq<int>, now: int)
    ensures var refilled := Refilled(lim, KeyAfter(lim, times), now);
      && refilled <= lim.max * TOKEN
      && (forall i :: 0 <= i < |times| ==>
            refilled <= lim.max * TOKEN + lim.rate * (now - times[i]) - TOKEN * Count(lim, times, i, |times|))
      && (refilled == lim.max * TOKEN ||
          exists i :: 0 <= i < |times| &&
            refilled == lim.max * TOKEN + lim.rate * (now - times[i]) - TOKEN * Count(lim, times, i, |times|))
  {
    LeastAllowance(lim, times, now);
    hide Refilled, Count, KeyAfter;
    forall i | 0 <= i < |times|
      ensures Allowance(lim, times, i, now)
           == lim.max * TOKEN + lim.rate * (now - times[i]) - TOKEN * Count(lim, times, i, |times|)
    {
    }
  }

  /** So many grants within so many milliseconds are within a full bucket and what it gains. */
  predicate FitsIn(lim: Limit, grants: nat, ms: int) { TOKEN * grants <= lim.max * TOKEN + lim.rate * ms }

  /** Call `now` fits every window ending at it: granting it keeps each within its budget. */
  predicate FitsEveryWindow(lim: Limit, times: seq<int>, now: int) {
    && 1 <= lim.max
    && forall i :: 0 <= i < |times| ==>
         FitsIn(lim, Count(lim, times, i, |times|) + 1, now - times[i])
  }

  lemma AdmitsIffFits(lim: Limit, times: seq<int>, now: int)
    ensures Admits(lim, KeyAfter(lim, times), now) <==> FitsEveryWindow(lim, times, now)
  {
    hide Gain;
    RefillIsLeastAllowance(lim, times, now);
  }

  /** A refused call spends nothing, so the bound carries over from the call before it. */
  lemma {:induction false} WindowBoundAux(lim: Limit, times: seq<int>, i: nat, j: nat)
    requires NonDecreasing(times)
    requires i <= j < |times|
    ensures TOKEN * Count(lim, times, i, j) <= lim.max * TOKEN + Gain(lim, times[j] - times[i])
    decreases j, 0
  {
    hide Gain;
    if i < j {
      WindowBound(lim, times, i, j - 1);
      GainIs(lim, times[j - 1] - times[i]);
      GainMonotone(lim, times[j - 1] - times[i], times[j] - times[i]);
    } else {
      GainAdds(lim, 0, 0);
    }
  }

  /** Sliding windows: between any two calls of any run, at most max + rate * length grants. */
  lemma {:induction false} WindowBound(lim: Limit, times: seq<int>, i: nat, j: nat)
    requires NonDecreasing(times)
    requires i <= j < |times|
    ensures TOKEN * Count(lim, times, i, j + 1) <= lim.max * TOKEN + lim.rate * (times[j] - times[i])
    decreases j, 1
  {
    hide Gain;
    GainIs(lim, times[j] - times[i]);
    if !Granted(lim, times, j) {
      WindowBoundAux(lim, times, i, j);
    } else {
      AdmitsIffFits(lim, times[..j], times[j]);
      GainAdds(lim, 0, 0);
      if i < j {
        CountPrefix(lim, times, j, i, j);
      }
    }
  }

  // ----- The table, in its own numbers -----

  /** So many grants within so many milliseconds are within the endpoint's tokens and its refill per second. */
  predicate Within(e: Endpoint, grants: nat, ms: int) {
    match e
    case GttPlace => 1000 * grants <= 5000 + 2 * ms
    case GttGet => 1000 * grants <= 10_000 + 5 * ms
    case GttCancel => 1000 * grants <= 5000 + 2 * ms
    case LtpFetch => 1000 * grants <= 20_000 + 10 * ms
    case OrderHistory => 1000 * grants <= 10_000 + 5 * ms
    case PortfolioWsAuth => 10_000 * grants <= 30_000 + ms
    case Unlisted => 1000 * grants <= 10_000 + 5 * ms
  }

  lemma WithinIs(e: Endpoint, grants: nat, ms: int)
    ensures Within(e, grants, ms) <==> FitsIn(LimitOf(e), grants, ms)
    ensures LimitOf(e).max >= 1
  {
  }

  /** Of the calls of any run between any two moments, no more are granted than the table says. */
  lemma EndpointBound(e: Endpoint, times: seq<int>, i: nat, j: nat)
    requires NonDecreasing(times) && i <= j < |times|
    ensures Within(e, Count(LimitOf(e), times, i, j + 1), times[j] - times[i])
  {
    WindowBound(LimitOf(e), times, i, j);
    WithinIs(e, Count(LimitOf(e), times, i, j + 1), times[j] - times[i]);
    hide Within, LimitOf, Count;
  }

  /** And no fewer: a call is refused only where granting it would break one of these bounds. */
  lemma EndpointExact(e: Endpoint, times: seq<int>, j: nat)
    requires j < |times|
    ensures Granted(LimitOf(e), times, j) <==>
      forall i :: 0 <= i < j ==> Within(e, Count(LimitOf(e), times, i, j) + 1, times[j] - times[i])
  {
    hide Within, LimitOf, Count, KeyAfter, Admits, FitsIn;
    var lim := LimitOf(e);
    AdmitsIffFits(lim, times[..j], times[j]);
    WithinIs(e, 0, 0);
    forall i | 0 <= i < j
      ensures Count(lim, times[..j], i, |times[..j]|) == Count(lim, times, i, j)
      ensures Within(e, Count(lim, times, i, j) + 1, times[j] - times[i])
          <==> FitsIn(lim, Count(lim, times, i, j) + 1, times[j] - times[i])
    {
      CountPrefix(lim, times, j, i, j);
      WithinIs(e, Count(lim, times, i, j) + 1, times[j] - times[i]);
    }
  }

  lemma KeyAfterOneMore(lim: Limit, times: seq<int>, now: int)
    ensures KeyAfter(lim, times + [now]) == Next(lim, KeyAfter(lim, times), now)
  {
    assert (times + [now])[..|times|] == times;
  }

  // ----- Expiry of the key after a minute without calls -----

  /** Redis may drop the key before call i only when the key's time to live has run out. */
  predicate MayDrop(times: seq<int>, drops: set<nat>) {
    forall i :: i in drops && 0 < i < |times| ==> times[i] - times[i - 1] >= KEY_TTL_MS
  }

  function KeyAfterWithDrops(lim: Limit, times: seq<int>, drops: set<nat>): Key {
    if times == [] then Absent
    else
      var n := |times| - 1;
      Next(lim, if n in drops then Absent else KeyAfterWithDrops(lim, times[..n], drops), times[n])
  }

  lemma {:induction false} TokensNeverNegative(lim: Limit, times: seq<int>)
    requires NonDecreasing(times)
    ensures KeyAfter(lim, times).Present? ==> KeyAfter(lim, times).tokens >= 0
  {
    hide Gain;
    if times != [] {
      var n := |times| - 1;
      TokensNeverNegative(lim, times[..n]);
      LastIsLatest(lim, times[..n]);
      if n > 0 {
        GainMonotone(lim, 0, times[n] - times[n - 1]);
        GainAdds(lim, 0, 0);
      }
    }
  }

  lemma LastIsLatest(lim: Limit, times: seq<int>)
    ensures times != [] ==> KeyAfter(lim, times).Present? && KeyAfter(lim, times).last == times[|times| - 1]
  {
  }

  /** After a whole TTL a bucket is full again, whatever it held. */
  lemma FullAfterTtl(lim: Limit, key: Key, now: int)
    requires lim.rate * KEY_TTL_MS >= lim.max * TOKEN
    requires key.Present? ==> key.tokens >= 0 && now - key.last >= KEY_TTL_MS
    ensures Refilled(lim, key, now) == lim.max * TOKEN
  {
    hide Gain;
    GainIs(lim, KEY_TTL_MS);
    if key.Present? {
      GainMonotone(lim, KEY_TTL_MS, now - key.last);
    }
  }

  /** So dropping the key changes nothing. */
  lemma {:induction false} ExpiryUnobservable(lim: Limit, times: seq<int>, drops: set<nat>)
    requires lim.rate * KEY_TTL_MS >= lim.max * TOKEN
    requires NonDecreasing(times) && MayDrop(times, drops)
    ensures KeyAfterWithDrops(lim, times, drops) == KeyAfter(lim, times)
  {
    hide Gain;
    if times != [] {
      var n := |times| - 1;
      ExpiryUnobservable(lim, times[..n], drops);
      if n in drops {
        TokensNeverNegative(lim, times[..n]);
        LastIsLatest(lim, times[..n]);
        FullAfterTtl(lim, KeyAfter(lim, times[..n]), times[n]);
      }
    }
  }

  predicate GrantedWithDrops(lim: Limit, times: seq<int>, drops: set<nat>, i: nat)
    requires i < |times|
  {
    Admits(lim, if i in drops then Absent else KeyAfterWithDrops(lim, times[..i], drops), times[i])
  }

  /**
   Every endpoint of the table, and the default, refills fully within the key's TTL: a bucket
   whose key expires grants exactly the calls that one kept for ever would grant.
   */
  lemma ConfiguredExpiryUnobservable(e: Endpoint, times: seq<int>, drops: set<nat>, i: nat)
    requires NonDecreasing(times) && MayDrop(times, drops) && i < |times|
    ensures GrantedWithDrops(LimitOf(e), times, drops, i) == Granted(LimitOf(e), times, i)
  {
    var lim, before := LimitOf(e), times[..i];
    ExpiryUnobservable(lim, before, drops);
    if i in drops {
      TokensNeverNegative(lim, before);
      LastIsLatest(lim, before);
      FullAfterTtl(lim, KeyAfter(lim, before), times[i]);
    }
  }

  /** The script's two fields. `calls` is the history they summarise. */
  class Bucket {
    const lim: Limit
    var tokens: int
    var last: int
    var present: bool
    ghost var calls: seq<int>

    function Key(): Key
      reads this
    {
      if present then Present(tokens, last) else Absent
    }

    ghost predicate Valid()
      reads this
    {
      Key() == KeyAfter(lim, calls)
    }

    constructor (lim: Limit)
      ensures Valid() && this.lim == lim && calls == []
    {
      this.lim := lim;
      tokens, last, present, calls := 0, 0, false, [];
    }

    method Acquire(now: int) returns (ok: bool)
      requires Valid()
      modifies this
      ensures Valid() && calls == old(calls) + [now]
      ensures ok <==> FitsEveryWindow(lim, old(calls), now)
    {
      KeyAfterOneMore(lim, calls, now);
      GainAdds(lim, 0, 0);
      hide Gain, KeyAfter, FitsEveryWindow;
      AdmitsIffFits(lim, calls, now);
      var t, l := tokens, last;
      if !present {
        t := lim.max * TOKEN;
        l := now;
      }
      t := Min(lim.max * TOKEN, t + Gain(lim, now - l));
      calls := calls + [now];
      if t < TOKEN {
        tokens, last, present := t, now, true;
        return false;
      }
      t := t - TOKEN;
      tokens, last, present := t, now, true;
      return true;
    }
  }
}
