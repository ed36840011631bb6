/**
 Volume-weighted fill prices: gtt_v2/shared/db/order_updates.py. Prices are whole hundredths, as
 the NUMERIC(10,2) column holds them.
 */
module Vwap {
  import opened Options

  datatype Trade = Trade(orderId: int, tradeId: int, quantity: nat, price: int)

  /** INSERT ... ON CONFLICT DO NOTHING against the unique index on trade_id. */
  predicate Seen(trades: seq<Trade>, tradeId: int) {
    exists i :: 0 <= i < |trades| && trades[i].tradeId == tradeId
  }

  function Insert(trades: seq<Trade>, t: Trade): seq<Trade> {
    if Seen(trades, t.tradeId) then trades else trades + [t]
  }

  function ForOrder(trades: seq<Trade>, orderId: int): seq<Trade> {
    if trades == [] then []
    else
      var n := |trades| - 1;
      ForOrder(trades[..n], orderId) + (if trades[n].orderId == orderId then [trades[n]] else [])
  }

  function TotalQuantity(trades: seq<Trade>): nat {
    if trades == [] then 0 else TotalQuantity(trades[..|trades| - 1]) + trades[|trades| - 1].quantity
  }

  function Times(a: int, b: int): int { a * b }

  function Value(t: Trade): int { Times(t.price, t.quantity) }

  function TotalValue(trades: seq<Trade>): int {
    if trades == [] then 0 else TotalValue(trades[..|trades| - 1]) + Value(trades[|trades| - 1])
  }

  /** Decimal's round to whole hundredths: to the nearest, ties to even. */
  function RoundHalfEven(num: int, den: int): int
    requires den > 0
  {
    var q, r := num / den, num % den;
    if 2 * r < den then q else if 2 * r > den then q + 1 else if q % 2 == 0 then q else q + 1
  }

  function WeightedAvgPrice(trades: seq<Trade>): Option<int> {
    if TotalQuantity(trades) == 0 then None
    else Some(RoundHalfEven(TotalValue(trades), TotalQuantity(trades)))
  }

  // ----- Rounding -----

  lemma TimesAdds(a: int, b: int, c: int)
    ensures Times(a, b + c) == Times(a, b) + Times(a, c)
    ensures Times(a + 1, b) == Times(a, b) + b && Times(a - 1, b) == Times(a, b) - b
    ensures Times(a, 0) == 0
  {
  }

  lemma TimesMonotone(a: int, b: int, c: nat)
    requires a <= b
    ensures Times(a, c) <= Times(b, c)
  {
  }

  lemma RoundIsNearest(num: int, den: int)
    requires den > 0
    ensures -den <= 2 * (Times(RoundHalfEven(num, den), den) - num) <= den
  {
    var q, r := num / den, num % den;
    assert Times(q, den) + r == num;
    hide Times;
    TimesAdds(q, den, 0);
  }

  lemma RoundIsEven(num: int, den: int)
    requires den > 0
    ensures 2 * (Times(RoundHalfEven(num, den), den) - num) in {-den, den} ==> RoundHalfEven(num, den) % 2 == 0
  {
    var q, r := num / den, num % den;
    assert Times(q, den) + r == num;
    hide Times;
    TimesAdds(q, den, 0);
  }

  lemma RoundStaysBetween(num: int, den: int, lo: int, hi: int)
    requires den > 0 && Times(lo, den) <= num <= Times(hi, den)
    ensures lo <= RoundHalfEven(num, den) <= hi
  {
    hide Times;
    var x := RoundHalfEven(num, den);
    hide RoundHalfEven;
    RoundIsNearest(num, den);
    if x < lo {
      TimesMonotone(x, lo - 1, den);
      TimesAdds(lo, den, 0);
    }
    if x > hi {
      TimesMonotone(hi + 1, x, den);
      TimesAdds(hi, den, 0);
    }
  }

  // ----- The average -----

  lemma {:induction false} ValueBetween(trades: seq<Trade>, lo: int, hi: int)
    requires forall i :: 0 <= i < |trades| && trades[i].quantity > 0 ==> lo <= trades[i].price <= hi
    ensures Times(lo, TotalQuantity(trades)) <= TotalValue(trades) <= Times(hi, TotalQuantity(trades))
  {
    hide Times;
    if trades == [] {
      TimesAdds(lo, 0, 0);
      TimesAdds(hi, 0, 0);
    } else {
      var n := |trades| - 1;
      var t := trades[n];
      ValueBetween(trades[..n], lo, hi);
      TimesAdds(lo, TotalQuantity(trades[..n]), t.quantity);
      TimesAdds(hi, TotalQuantity(trades[..n]), t.quantity);
      if t.quantity > 0 {
        TimesMonotone(lo, t.price, t.quantity);
        TimesMonotone(t.price, hi, t.quantity);
      } else {
        TimesAdds(lo, 0, 0);
        TimesAdds(hi, 0, 0);
        TimesAdds(t.price, 0, 0);
      }
    }
  }

  /** The rounded average lies between the smallest and the largest price actually traded. */
  lemma AverageBetween(trades: seq<Trade>, lo: int, hi: int)
    requires forall i :: 0 <= i < |trades| && trades[i].quantity > 0 ==> lo <= trades[i].price <= hi
    ensures WeightedAvgPrice(trades).Some? ==> lo <= WeightedAvgPrice(trades).value <= hi
  {
    hide Times, RoundHalfEven;
    ValueBetween(trades, lo, hi);
    if TotalQuantity(trades) > 0 {
      RoundStaysBetween(TotalValue(trades), TotalQuantity(trades), lo, hi);
    }
  }

  function HighestPrice(trades: seq<Trade>): (h: int)
    ensures forall i :: 0 <= i < |trades| ==> trades[i].price <= h
  {
    if trades == [] then 0
    else
      var n := |trades| - 1;
      var h := HighestPrice(trades[..n]);
      assert forall i :: 0 <= i < n ==> trades[i] == trades[..n][i];
      if trades[n].price >= h then trades[n].price else h
  }

  lemma AveragePositive(trades: seq<Trade>)
    requires forall i :: 0 <= i < |trades| ==> trades[i].price > 0
    ensures WeightedAvgPrice(trades).Some? ==> WeightedAvgPrice(trades).value > 0
  {
    AverageBetween(trades, 1, HighestPrice(trades));
  }

  /** Average times quantity misses the traded value by at most half a cent per unit. */
  lemma AverageError(trades: seq<Trade>)
    ensures WeightedAvgPrice(trades).Some? ==>
      var q: int := TotalQuantity(trades);
      -q <= 2 * (Times(WeightedAvgPrice(trades).value, q) - TotalValue(trades)) <= q
  {
    hide Times, RoundHalfEven;
    if TotalQuantity(trades) > 0 {
      RoundIsNearest(TotalValue(trades), TotalQuantity(trades));
    }
  }

  /** The two totals are sums over the trades: of the quantities, and of price times quantity. */
  lemma {:induction false} TotalsAdd(a: seq<Trade>, b: seq<Trade>, t: Trade)
    ensures TotalQuantity(a + b) == TotalQuantity(a) + TotalQuantity(b)
    ensures TotalValue(a + b) == TotalValue(a) + TotalValue(b)
    ensures TotalQuantity([t]) == t.quantity && TotalValue([t]) == t.price * t.quantity
    ensures TotalQuantity([]) == 0 && TotalValue([]) == 0
  {
    assert [t][..0] == [];
    if b == [] {
      assert a + b == a;
    } else {
      assert (a + b)[..|a + b| - 1] == a + b[..|b| - 1];
      TotalsAdd(a, b[..|b| - 1], t);
    }
  }

  /** There is an average exactly where something was traded, and it is the nearest hundredth, the even one of two. */
  lemma AverageIs(trades: seq<Trade>)
    ensures WeightedAvgPrice(trades).Some? <==> TotalQuantity(trades) > 0
    ensures WeightedAvgPrice(trades).Some? ==>
      var a, q: int, v := WeightedAvgPrice(trades).value, TotalQuantity(trades), TotalValue(trades);
      -q <= 2 * (a * q - v) <= q && (2 * (a * q - v) in {-q, q} ==> a % 2 == 0)
  {
    hide TotalQuantity, TotalValue, RoundHalfEven;
    var q, v := TotalQuantity(trades), TotalValue(trades);
    if q > 0 {
      RoundIsNearest(v, q);
      RoundIsEven(v, q);
    }
  }

  /** The trades of one order are those stored with its id, each as often as it is stored. */
  lemma {:induction false} ForOrderIs(trades: seq<Trade>, orderId: int, t: Trade)
    ensures multiset(ForOrder(trades, orderId))[t] == if t.orderId == orderId then multiset(trades)[t] else 0
  {
    if trades != [] {
      var n := |trades| - 1;
      ForOrderIs(trades[..n], orderId, t);
      assert trades == trades[..n] + [trades[n]];
    }
  }

  lemma {:induction false} TotalsRemove(trades: seq<Trade>, i: nat)
    requires i < |trades|
    ensures var rest := trades[..i] + trades[i + 1..];
      && TotalQuantity(trades) == TotalQuantity(rest) + trades[i].quantity
      && TotalValue(trades) == TotalValue(rest) + Value(trades[i])
    decreases |trades|
  {
    var n := |trades| - 1;
    var rest := trades[..i] + trades[i + 1..];
    if i == n {
      assert rest == trades[..n];
    } else {
      TotalsRemove(trades[..n], i);
      assert rest[..n - 1] == trades[..n][..i] + trades[..n][i + 1..];
      assert rest[n - 1] == trades[n];
    }
  }

  lemma MultisetWithout(a: seq<Trade>, b: seq<Trade>, i: nat)
    requires a != [] && i < |b| && a[|a| - 1] == b[i] && multiset(a) == multiset(b)
    ensures multiset(a[..|a| - 1]) == multiset(b[..i] + b[i + 1..])
  {
    var n := |a| - 1;
    assert a == a[..n] + [a[n]];
    assert b == b[..i] + [b[i]] + b[i + 1..];
    assert multiset(a) == multiset(a[..n]) + multiset{a[n]};
    assert multiset(b) == multiset(b[..i]) + multiset{b[i]} + multiset(b[i + 1..]);
    assert multiset(a[..n]) == multiset(a) - multiset{a[n]};
    assert multiset(b[..i] + b[i + 1..]) == multiset(b) - multiset{b[i]};
  }

  lemma {:induction false} TotalsPermute(a: seq<Trade>, b: seq<Trade>)
    requires multiset(a) == multiset(b)
    ensures TotalQuantity(a) == TotalQuantity(b) && TotalValue(a) == TotalValue(b)
    decreases |a|
  {
    if a == [] {
      assert |multiset(b)| == 0;
    } else {
      var n := |a| - 1;
      assert a[n] in multiset(b);
      var i :| 0 <= i < |b| && b[i] == a[n];
      var rest := b[..i] + b[i + 1..];
      MultisetWithout(a, b, i);
      TotalsPermute(a[..n], rest);
      TotalsRemove(b, i);
    }
  }

  /** The order in which fills were stored does not matter. */
  lemma AveragePermutes(a: seq<Trade>, b: seq<Trade>)
    requires multiset(a) == multiset(b)
    ensures WeightedAvgPrice(a) == WeightedAvgPrice(b)
  {
    TotalsPermute(a, b);
  }

  function InsertAll(trades: seq<Trade>, more: seq<Trade>): seq<Trade> {
    if more == [] then trades else Insert(InsertAll(trades, more[..|more| - 1]), more[|more| - 1])
  }

  lemma {:induction false} InsertAllKeeps(trades: seq<Trade>, more: seq<Trade>)
    ensures trades <= InsertAll(trades, more)
    ensures forall i :: 0 <= i < |more| ==> Seen(InsertAll(trades, more), more[i].tradeId)
    ensures forall t :: t in InsertAll(trades, more) ==> t in trades || t in more
  {
    if more != [] {
      var n := |more| - 1;
      var before, all := InsertAll(trades, more[..n]), InsertAll(trades, more);
      InsertAllKeeps(trades, more[..n]);
      SeenGrows(before, all);
      assert more[n].tradeId == all[|all| - 1].tradeId || Seen(before, more[n].tradeId);
      forall i | 0 <= i < |more| ensures Seen(all, more[i].tradeId) {
        if i < n { assert more[i] == more[..n][i]; }
      }
    }
  }

  lemma SeenGrows(trades: seq<Trade>, longer: seq<Trade>)
    requires trades <= longer
    ensures forall id :: Seen(trades, id) ==> Seen(longer, id)
  {
    forall id | Seen(trades, id) ensures Seen(longer, id) {
      var i :| 0 <= i < |trades| && trades[i].tradeId == id;
      assert longer[i] == trades[i];
    }
  }

  /** Storing again what was stored before changes nothing, however the rest was delivered. */
  lemma {:induction false} ReinsertingIsIdle(trades: seq<Trade>, more: seq<Trade>)
    requires forall i :: 0 <= i < |more| ==> Seen(trades, more[i].tradeId)
    ensures InsertAll(trades, more) == trades
  {
    if more != [] {
      ReinsertingIsIdle(trades, more[..|more| - 1]);
    }
  }
}
