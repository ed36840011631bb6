/**
 The OrderTracker of gtt_v2/services/order_tracker/main.py: its handlers as statements over the
 tables, each shown to be a run of the atomic operations of TrackerRuns.
 */
module OrderTracker {
  import opened Options
  import opened Vwap
  import opened FillRules
  import opened TrackerRuns

  /** One leg of a GTT payload, with the broker's answer about its child order's trades. */
  datatype Item = Item(strategy: Strategy, trigger: int, orderId: Option<int>, filled: bool,
                       side: Option<Side>, answer: Option<seq<Trade>>)

  predicate GoodItems(items: seq<Item>) {
    forall i :: 0 <= i < |items| && items[i].answer.Some? ==> GoodTrades(items[i].answer.value)
  }

  function UpsertOps(signalId: int, gttId: int, items: seq<Item>): seq<Op> {
    if items == [] then []
    else
      var n := |items| - 1;
      UpsertOps(signalId, gttId, items[..n])
      + [DoUpsert(Rule(signalId, gttId, items[n].strategy, items[n].trigger, items[n].orderId))]
  }

  function FillOps(gttId: int, items: seq<Item>): seq<Op> {
    if items == [] then []
    else
      var n := |items| - 1;
      FillOps(gttId, items[..n])
      + (if items[n].filled && items[n].orderId.Some?
         then [DoFill(Fill(items[n].orderId.value, Some(gttId), items[n].side, items[n].answer))] else [])
  }

  /** Each leg of the payload in its turn: one write of its row, and one delivery of its order if it is filled. */
  lemma {:induction false} ItemsInTurn(signalId: int, gttId: int, a: seq<Item>, item: Item, b: seq<Item>)
    ensures UpsertOps(signalId, gttId, a + [item] + b)
         == UpsertOps(signalId, gttId, a)
            + [DoUpsert(Rule(signalId, gttId, item.strategy, item.trigger, item.orderId))]
            + UpsertOps(signalId, gttId, b)
    ensures FillOps(gttId, a + [item] + b)
         == FillOps(gttId, a)
            + (if item.orderId == None || !item.filled then []
               else [DoFill(Fill(item.orderId.value, Some(gttId), item.side, item.answer))])
            + FillOps(gttId, b)
  {
    var all, n := a + [item] + b, |a| + |b|;
    if b == [] {
      assert all[..n] == a && all[n] == item;
    } else {
      ItemsInTurn(signalId, gttId, a, item, b[..|b| - 1]);
      assert all[..n] == a + [item] + b[..|b| - 1] && all[n] == b[|b| - 1];
    }
  }

  /** First every leg row is written, then every filled leg's order is processed. */
  function ReconcileOps(s: State, gttId: int, items: seq<Item>): seq<Op> {
    var legs := LegsOf(s.rules, gttId);
    if legs == [] then [] else UpsertOps(legs[0].signalId, gttId, items) + FillOps(gttId, items)
  }

  class Tracker {
    var signals: map<int, Row>
    var rules: seq<Rule>
    var trades: seq<Trade>
    var recorded: seq<Record>

    function State(): State
      reads this
    {
      FillRules.State(signals, rules, trades, recorded)
    }

    constructor ()
      ensures State() == FillRules.State(map[], [], [], []) && Books(State())
    {
      signals, rules, trades, recorded := map[], [], [], [];
    }

    method InsertTradeExecutions(more: seq<Trade>)
      modifies this`trades
      ensures trades == InsertAll(old(trades), more)
    {
      for i := 0 to |more|
        invariant trades == InsertAll(old(trades), more[..i])
      {
        assert more[..i + 1][..i] == more[..i];
        if !Seen(trades, more[i].tradeId) {
          trades := trades + [more[i]];
        }
      }
      assert more[..|more|] == more;
    }

    /** The leg row of an order, linking it when it has to be derived. */
    method ResolveLeg(f: Fill, price: Option<int>) returns (leg: Option<Rule>)
      modifies this`rules
      ensures leg == LegFor(old(State()), f, price)
      ensures rules == if leg.Some? then Linked(old(State()), f, leg.value) else old(rules)
    {
      leg := ByChildOrder(rules, f.orderId);
      if leg.None? && f.gttId.Some? {
        var legs := LegsOf(rules, f.gttId.value);
        if legs != [] {
          var action := if legs[0].signalId in signals then signals[legs[0].signalId].action else Buy;
          var strategy := DeriveStrategy(f.side, action, price, legs);
          leg := WithStrategy(legs, strategy);
          if leg.None? {
            leg := Some(legs[0]);
          }
          rules := Upsert(rules, leg.value.(orderId := Some(f.orderId)));
        }
      }
    }

    /** The row updates of a fill whose leg is known, and the call of the guard. */
    method Apply(leg: Rule, price: int, quantity: nat)
      modifies this`signals, this`recorded
      ensures State() == ApplyFill(old(State()), leg, price, quantity)
    {
      var id, strategy := leg.signalId, leg.strategy;
      if id !in signals {
        return;
      }
      var r := signals[id];
      if strategy == EntryLeg && r.status != Pending && r.entry != 0 {
        return;
      }
      if strategy != EntryLeg && r.exit != 0 && ExitBooked(r.status) {
        return;
      }
      var atTarget, atStop := AtTarget(r, price), AtStop(r, price);
      if strategy == EntryLeg && !atTarget && !atStop {
        signals := signals[id := r.(entry := price)];
        signals := signals[id := signals[id].(status := Active)];
        return;
      }
      var entry := if r.entry != 0 then r.entry else price;
      var pnl := if r.action == Buy then (price - entry) * quantity else (entry - price) * quantity;
      var status := Active;
      if atTarget || strategy == TargetLeg {
        status := Target1Hit;
      } else if atStop || strategy == StoplossLeg {
        status := StoplossHit;
      }
      signals := signals[id := r.(entry := entry, exit := price, pnl := Some(pnl))];
      signals := signals[id := signals[id].(status := status)];
      if pnl != 0 {
        recorded := recorded + [Record(id, pnl)];
      }
    }

    method ProcessFilledOrder(f: Fill)
      modifies this
      ensures State() == FillRules.ProcessFilledOrder(old(State()), f)
    {
      if f.trades.None? {
        return;
      }
      InsertTradeExecutions(f.trades.value);
      var mine := ForOrder(trades, f.orderId);
      var price := WeightedAvgPrice(mine);
      if price.None? {
        return;
      }
      var leg := ResolveLeg(f, price);
      if leg.None? {
        return;
      }
      Apply(leg.value, price.value, TotalQuantity(mine));
    }

    /** A status update of an order; `complete` when its status is "complete". */
    method HandleOrderUpdate(f: Fill, avgPrice: Option<int>, complete: bool)
      requires Books(State())
      requires f.trades.Some? ==> GoodTrades(f.trades.value)
      modifies this
      ensures Books(State())
      ensures var ops := [DoLink(f, avgPrice)] + if complete then [DoFill(f)] else [];
        Legal(old(State()), ops) && State() == Run(old(State()), ops)
    {
      ghost var s := State();
      StepKeepsBooks(s, DoLink(f, avgPrice));
      var leg := ResolveLeg(f, avgPrice);
      assert State() == Step(s, DoLink(f, avgPrice));
      RunOneMore(s, [], DoLink(f, avgPrice));
      assert [] + [DoLink(f, avgPrice)] == [DoLink(f, avgPrice)];
      if complete {
        RunOneMore(s, [DoLink(f, avgPrice)], DoFill(f));
        ProcessFilledOrder(f);
      } else {
        assert [DoLink(f, avgPrice)] + [] == [DoLink(f, avgPrice)];
      }
    }

    method HandleGttUpdate(gttId: int, closes: Option<Status>, items: seq<Item>)
      requires Books(State()) && GoodItems(items)
      requires closes.Some? ==> closes.value in {Cancelled, Expired}
      modifies this
      ensures Books(State())
      ensures var s := old(State());
        LegsOf(s.rules, gttId) == [] ==> State() == s
      ensures var s := old(State());
        var t := StepRaw(s, DoNotice(gttId, closes));
        LegsOf(s.rules, gttId) != [] ==>
          Books(t) && Legal(t, ReconcileOps(t, gttId, items)) && State() == Run(t, ReconcileOps(t, gttId, items))
    {
      ghost var s := State();
      var legs := LegsOf(rules, gttId);
      if legs == [] {
        return;
      }
      StepKeepsBooks(s, DoNotice(gttId, closes));
      for i := 0 to |legs|
        invariant signals == s.signals && trades == s.trades && recorded == s.recorded
        invariant UpsertAll(rules, Unlinked(legs[i..])) == UpsertAll(s.rules, Unlinked(legs))
      {
        rules := Upsert(rules, legs[i].(orderId := None));
        assert legs[i..][1..] == legs[i + 1..];
      }
      if closes.Some? {
        assert legs[0] in s.rules;
        signals := signals[legs[0].signalId := signals[legs[0].signalId].(status := closes.value)];
      }
      assert State() == StepRaw(s, DoNotice(gttId, closes));
      ReconcileGttPayload(gttId, items);
    }

    /** The loop that writes every leg of the payload. */
    method UpsertItems(id: int, gttId: int, items: seq<Item>)
      requires Books(State()) && id in signals
      modifies this`rules
      ensures Books(State())
      ensures var s := old(State());
        Legal(s, UpsertOps(id, gttId, items)) && State() == Run(s, UpsertOps(id, gttId, items))
    {
      ghost var s := State();
      for i := 0 to |items|
        invariant Books(State())
        invariant Legal(s, UpsertOps(id, gttId, items[..i])) && State() == Run(s, UpsertOps(id, gttId, items[..i]))
      {
        var rule := Rule(id, gttId, items[i].strategy, items[i].trigger, items[i].orderId);
        assert items[..i + 1][..i] == items[..i];
        RunOneMore(s, UpsertOps(id, gttId, items[..i]), DoUpsert(rule));
        StepKeepsBooks(State(), DoUpsert(rule));
        rules := Upsert(rules, rule);
      }
      assert items[..|items|] == items;
    }

    /** The loop that processes the order of every filled leg. */
    method ProcessFilledItems(gttId: int, items: seq<Item>)
      requires Books(State()) && GoodItems(items)
      modifies this
      ensures Books(State())
      ensures var s := old(State());
        Legal(s, FillOps(gttId, items)) && State() == Run(s, FillOps(gttId, items))
    {
      ghost var s := State();
      for i := 0 to |items|
        invariant Books(State())
        invariant Legal(s, FillOps(gttId, items[..i])) && State() == Run(s, FillOps(gttId, items[..i]))
      {
        var item := items[i];
        assert items[..i + 1][..i] == items[..i];
        if item.filled && item.orderId.Some? {
          var f := Fill(item.orderId.value, Some(gttId), item.side, item.answer);
          RunOneMore(s, FillOps(gttId, items[..i]), DoFill(f));
          StepKeepsBooks(State(), DoFill(f));
          ProcessFilledOrder(f);
        } else {
          assert FillOps(gttId, items[..i + 1]) == FillOps(gttId, items[..i]);
        }
      }
      assert items[..|items|] == items;
    }

    method ReconcileGttPayload(gttId: int, items: seq<Item>)
      requires Books(State()) && GoodItems(items)
      modifies this
      ensures Books(State())
      ensures var s := old(State());
        Legal(s, ReconcileOps(s, gttId, items)) && State() == Run(s, ReconcileOps(s, gttId, items))
    {
      ghost var s := State();
      var legs := LegsOf(rules, gttId);
      if legs == [] {
        return;
      }
      assert legs[0] in rules;
      UpsertItems(legs[0].signalId, gttId, items);
      ProcessFilledItems(gttId, items);
      RunAppend(s, UpsertOps(legs[0].signalId, gttId, items), FillOps(gttId, items));
    }
  }
}
