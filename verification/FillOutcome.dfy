/**
 What a fill does to a signal in plain numbers: which leg an order is taken for, what the row says after any
 deliveries, and the amount that is stored and recorded.
 */
module FillOutcome {
  import opened Options
  import opened Vwap
  import opened FillRules
  import opened TrackerRuns
  import opened FillReading

  /** Within three quarters of a point of the first target, or past it. */
  predicate NearTarget(r: Row, price: int) {
    r.target1.Some? && if r.action == Buy then r.target1.value - 75 <= price else price <= r.target1.value + 75
  }

  /** Within three quarters of a point of the stoploss, or past it. */
  predicate NearStop(r: Row, price: int) {
    r.stop != 0 && if r.action == Buy then price <= r.stop + 75 else r.stop - 75 <= price
  }

  lemma NearIs(r: Row, price: int)
    ensures AtTarget(r, price) <==> NearTarget(r, price)
    ensures AtStop(r, price) <==> NearStop(r, price)
  {
  }

  /** What was received less what was paid. */
  lemma RealizedIs(action: Side, entry: int, exit: int, quantity: nat)
    ensures Realized(action, entry, exit, quantity)
         == if action == Buy then quantity * exit - quantity * entry else quantity * entry - quantity * exit
  {
  }

  // ----- The row after any deliveries -----

  /** Hit i is the first of the entry leg, or the first of an exit leg; there is none where i is the length. */
  predicate FirstOf(hits: seq<Hit>, entry: bool, i: nat) {
    && i <= |hits| && (forall j :: 0 <= j < i ==> (hits[j].leg == EntryLeg) != entry)
    && (i < |hits| ==> (hits[i].leg == EntryLeg) == entry)
  }

  lemma FirstIs(hits: seq<Hit>, entry: bool, i: nat)
    requires FirstOf(hits, entry, i)
    ensures First(hits, entry) == i
  {
    var n := First(hits, entry);
    assert !(n < i) && !(i < n);
  }

  /** Closed by the hit: at its price, with this P&L, at the target if it is near it or its leg is the target's. */
  predicate ClosedBy(r: Row, h: Hit, entry: int, pnl: int, row: Row) {
    row == r.(entry := entry, exit := h.price, pnl := Some(pnl),
              status := if NearTarget(r, h.price) || h.leg == TargetLeg then Target1Hit else StoplossHit)
  }

  lemma ClosedIs(r: Row, entry: int, h: Hit)
    ensures ClosedBy(r, h, entry,
                     if r.action == Buy then h.quantity * h.price - h.quantity * entry
                     else h.quantity * entry - h.quantity * h.price,
                     Closed(r, entry, h))
  {
    RealizedIs(r.action, entry, h.price, h.quantity);
    NearIs(r, h.price);
    hide Realized;
  }

  lemma FlatIs(r: Row, h: Hit)
    ensures ClosedBy(r, h, h.price, 0, Closed(r, h.price, h))
  {
    ClosedIs(r, h.price, h);
    hide Closed, ClosedBy;
  }

  /**
   Of all fills that reach a new row, the first entry fill and the first exit fill decide it. An exit fill that is first
   closes it flat, and so does an entry fill near the target or the stop. Any other entry opens it at its price, and
   the first exit fill closes it with what was received less what was paid.
   */
  lemma RowOutcome(r: Row, hits: seq<Hit>, e: nat, x: nat)
    requires r.status == Pending && FreshRow(r) && Positive(hits) && FirstOf(hits, true, e) && FirstOf(hits, false, x)
    ensures var row, n := RowAfter(r, hits), |hits|;
      && (e == n && x == n ==> row == r)
      && (x < e ==> ClosedBy(r, hits[x], hits[x].price, 0, row))
      && (e < x && (NearTarget(r, hits[e].price) || NearStop(r, hits[e].price)) ==>
            ClosedBy(r, hits[e], hits[e].price, 0, row))
      && (e < x && !(NearTarget(r, hits[e].price) || NearStop(r, hits[e].price)) ==>
            if x == n then row == r.(entry := hits[e].price, status := Active)
            else
              var q, paid, got := hits[x].quantity, hits[e].price, hits[x].price;
              ClosedBy(r, hits[x], hits[e].price,
                       if r.action == Buy then q * got - q * paid else q * paid - q * got, row))
  {
    hide RowAfter, AtTarget, AtStop, NearTarget, NearStop, Closed, ClosedBy, FreshRow;
    FirstFillsDecide(r, hits);
    FirstIs(hits, true, e);
    FirstIs(hits, false, x);
    if x < e {
      FlatIs(r, hits[x]);
    } else if e < |hits| {
      NearIs(r, hits[e].price);
      FlatIs(r, hits[e]);
      if x < |hits| { ClosedIs(r, hits[e].price, hits[x]); }
    }
  }

  /** So it is for a new signal's row after any deliveries. */
  lemma DeliveredOutcome(s: State, fs: seq<Fill>, id: int)
    requires Books(s) && AllGood(fs)
    requires id in s.signals && s.signals[id].status == Pending && FreshRow(s.signals[id])
    ensures var hits := HitsOn(s, fs, id);
      && Positive(hits) && id in Deliver(s, fs).signals
      && Deliver(s, fs).signals[id] == RowAfter(s.signals[id], hits)
  {
    DeliveredRow(s, fs, id);
  }

  // ----- One fill at any row -----

  /**
   One fill that reaches a row, in whatever state it is: nothing where its leg is applied already; an entry; or an
   exit, whose P&L is stored in the row and, unless it is zero, recorded once with the guard.
   */
  lemma ApplyOutcome(s: State, leg: Rule, price: int, quantity: nat)
    requires leg.signalId in s.signals
    ensures var t, id, r := ApplyFill(s, leg, price, quantity), leg.signalId, s.signals[leg.signalId];
      var near, paid := NearTarget(r, price) || NearStop(r, price), if r.entry != 0 then r.entry else price;
      var made := if r.action == Buy then quantity * price - quantity * paid else quantity * paid - quantity * price;
      if (if leg.strategy == EntryLeg then r.status != Pending && r.entry != 0
          else r.exit != 0 && r.status in {Target1Hit, Target2Hit, Target3Hit, StoplossHit}) then t == s
      else if leg.strategy == EntryLeg && !near then
        t == s.(signals := s.signals[id := r.(entry := price, status := Active)])
      else
        && t == s.(signals := t.signals, recorded := t.recorded)
        && t.signals == s.signals[id := r.(entry := paid, exit := price, pnl := Some(made),
             status := if NearTarget(r, price) || leg.strategy == TargetLeg then Target1Hit else StoplossHit)]
        && t.recorded == if made != 0 then s.recorded + [Record(id, made)] else s.recorded
  {
    var r := s.signals[leg.signalId];
    RealizedIs(r.action, if r.entry != 0 then r.entry else price, price, quantity);
    NearIs(r, price);
    hide Realized, NearTarget, NearStop, AtTarget, AtStop;
  }

  /** What a delivery records: nothing, or once what the exit made. */
  lemma DeliveryOutcome(s: State, f: Fill)
    requires Books(s) && Enabled(s, DoFill(f))
    ensures var t, m := ProcessFilledOrder(s, f), Meet(s, f);
      t.recorded == s.recorded ||
      (m.Meeting? && m.leg.signalId in s.signals && m.leg.signalId in t.signals &&
        var id, q, price := m.leg.signalId, m.quantity, m.price;
        var entry := t.signals[id].entry;
        var made := if s.signals[id].action == Buy then q * price - q * entry else q * entry - q * price;
        made != 0 && t.recorded == s.recorded + [Record(id, made)] && t.signals[id].pnl == Some(made))
  {
    hide ApplyFill, ProcessFilledOrder, Meet, NearTarget, NearStop;
    FillMeets(s, f);
    var m := Meet(s, f);
    if m.Meeting? { ApplyOutcome(m.at, m.leg, m.price, m.quantity); }
  }

  /** Price and quantity of a fill are the average and the total of the order's trades that are stored by then. */
  lemma MeetingIs(s: State, f: Fill)
    ensures var m := Meet(s, f);
      m.Meeting? ==>
        && f.trades.Some?
        && var mine := ForOrder(InsertAll(s.trades, f.trades.value), f.orderId);
           WeightedAvgPrice(mine) == Some(m.price) && m.quantity == TotalQuantity(mine)
  {
    hide LegFor, Linked, WeightedAvgPrice, TotalQuantity, InsertAll, ForOrder;
  }

  // ----- Which leg -----

  lemma OneLeg(r: Rule, rest: seq<Rule>, gttId: int)
    ensures LegsOf([r] + rest, gttId) == (if r.gttId == gttId then [r] else []) + LegsOf(rest, gttId)
  {
    assert ([r] + rest)[0] == r && ([r] + rest)[1..] == rest;
  }

  lemma NoLegs(gttId: int)
    ensures LegsOf([], gttId) == []
  {
  }

  /** The legs of a GTT come in the order of their rows. */
  lemma {:induction false} LegsInOrder(a: seq<Rule>, b: seq<Rule>, gttId: int)
    ensures LegsOf(a + b, gttId) == LegsOf(a, gttId) + LegsOf(b, gttId)
  {
    hide LegsOf;
    if a == [] {
      assert a + b == b && a == [];
      NoLegs(gttId);
    } else {
      LegsInOrder(a[1..], b, gttId);
      OneLeg(a[0], a[1..], gttId);
      OneLeg(a[0], a[1..] + b, gttId);
      assert a == [a[0]] + a[1..] && a + b == [a[0]] + (a[1..] + b);
    }
  }

  /**
   The leg an order is taken for: the one it is linked to; or, of the GTT its message names, the leg of the derived
   strategy, or the GTT's first leg where there is none of it.
   */
  lemma LegOutcome(s: State, f: Fill, price: Option<int>)
    ensures var leg, linked := LegFor(s, f, price), ByChildOrder(s.rules, f.orderId);
      && (linked.Some? ==> leg == linked)
      && (linked.None? && f.gttId.None? ==> leg == None)
      && (linked.None? && f.gttId.Some? ==>
            var legs := LegsOf(s.rules, f.gttId.value);
            if legs == [] then leg == None
            else
              var id := legs[0].signalId;
              var action := if id in s.signals then s.signals[id].action else Buy;
              var derived := WithStrategy(legs, DeriveStrategy(f.side, action, price, legs));
              leg == if derived.Some? then derived else Some(legs[0]))
  {
    hide ByChildOrder, LegsOf, WithStrategy, DeriveStrategy;
  }

  /** The newest row of a child order. */
  lemma {:induction false} NewestChild(rules: seq<Rule>, orderId: int, i: nat)
    requires i < |rules| && rules[i].orderId == Some(orderId)
    requires forall j :: i < j < |rules| ==> rules[j].orderId != Some(orderId)
    ensures ByChildOrder(rules, orderId) == Some(rules[i])
  {
    if i < |rules| - 1 {
      NewestChild(rules[..|rules| - 1], orderId, i);
    }
  }

  /** The oldest row of a leg. */
  lemma {:induction false} OldestLeg(legs: seq<Rule>, strategy: Strategy, i: nat)
    requires i < |legs| && legs[i].strategy == strategy && forall j :: 0 <= j < i ==> legs[j].strategy != strategy
    ensures WithStrategy(legs, strategy) == Some(legs[i])
  {
    if i > 0 {
      OldestLeg(legs[1..], strategy, i - 1);
    }
  }

  /** Writing a leg changes the child order of the row it has, and nothing else; or appends a row. */
  lemma {:induction false} UpsertOutcome(rules: seq<Rule>, rule: Rule, i: nat)
    requires i <= |rules|
    requires forall j :: 0 <= j < i ==> rules[j].gttId != rule.gttId || rules[j].strategy != rule.strategy
    requires i < |rules| ==> rules[i].gttId == rule.gttId && rules[i].strategy == rule.strategy
    ensures Upsert(rules, rule)
         == if i < |rules| then rules[i := rules[i].(orderId := rule.orderId)] else rules + [rule]
  {
    if i > 0 {
      UpsertOutcome(rules[1..], rule, i - 1);
    }
  }

  /** How far a price is from a trigger. */
  function Off(price: int, trigger: int): nat { if price < trigger then trigger - price else price - trigger }

  /**
   An order of the signal's own side is an entry. Any other is taken for the target, unless there is a stoploss leg and
   either no target leg, or the stoploss leg's trigger is known and nearer to the price or the only one known.
   */
  lemma StrategyOutcome(side: Option<Side>, action: Side, price: Option<int>, legs: seq<Rule>)
    ensures var strategy := DeriveStrategy(side, action, price, legs);
      var target, stop := WithStrategy(legs, TargetLeg), WithStrategy(legs, StoplossLeg);
      && (strategy == EntryLeg <==> side == Some(action))
      && (strategy == StoplossLeg <==>
            && side != Some(action) && price.Some? && stop.Some?
            && (target.Some? ==>
                  && stop.value.trigger != 0
                  && (target.value.trigger != 0 ==>
                        Off(price.value, stop.value.trigger) < Off(price.value, target.value.trigger))))
  {
  }
}
