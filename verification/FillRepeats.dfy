/**
 Duplicate insensitivity of the order tracker: delivering fills again, at any later point,
 changes no signal row, no stored trade and no recorded P&L.

 It holds for messages that agree with each other about their orders: every message for an order
 names the same GTT and is on the same side, existing links do not contradict them, and each
 GTT's legs belong to one signal and include the entry and an exit.
 */
module FillRepeats {
  import opened Options
  import opened Vwap
  import opened FillRules
  import opened TrackerRuns

  function Static(rules: seq<Rule>): seq<Rule> {
    seq(|rules|, i requires 0 <= i < |rules| => rules[i].(orderId := None))
  }

  function StaticRule(r: Option<Rule>): Option<Rule> {
    if r.None? then None else Some(r.value.(orderId := None))
  }

  predicate UniqueLegs(rules: seq<Rule>) {
    forall i, j :: 0 <= i < j < |rules| ==> !SameLeg(rules[i], rules[j].gttId, rules[j].strategy)
  }

  predicate OneSignalEach(rules: seq<Rule>) {
    forall a, b :: a in rules && b in rules && a.gttId == b.gttId ==> a.signalId == b.signalId
  }

  predicate HasLegs(rules: seq<Rule>, gttId: int) {
    && WithStrategy(LegsOf(rules, gttId), EntryLeg).Some?
    && (WithStrategy(LegsOf(rules, gttId), TargetLeg).Some? || WithStrategy(LegsOf(rules, gttId), StoplossLeg).Some?)
  }

  function SignalOf(rules: seq<Rule>, gttId: int): int
    requires HasLegs(rules, gttId)
  {
    LegsOf(rules, gttId)[0].signalId
  }

  predicate Addressed(s: State, f: Fill) {
    && f.gttId.Some? && HasLegs(s.rules, f.gttId.value)
    && SignalOf(s.rules, f.gttId.value) in s.signals
    && (f.trades.Some? ==>
          && GoodTrades(f.trades.value)
          && forall i :: 0 <= i < |f.trades.value| ==> f.trades.value[i].orderId == f.orderId)
  }

  function TargetSignal(s: State, f: Fill): int
    requires Addressed(s, f)
  {
    SignalOf(s.rules, f.gttId.value)
  }

  predicate OnEntrySide(s: State, f: Fill)
    requires Addressed(s, f)
  {
    f.side == Some(s.signals[TargetSignal(s, f)].action)
  }

  predicate LinkAgrees(s: State, f: Fill, r: Rule)
    requires Addressed(s, f)
  {
    r.orderId == Some(f.orderId) ==> r.gttId == f.gttId.value && (r.strategy == EntryLeg <==> OnEntrySide(s, f))
  }

  /** The fill's leg has been dealt with already. */
  predicate Effective(s: State, f: Fill)
    requires Addressed(s, f)
  {
    var r := s.signals[TargetSignal(s, f)];
    if OnEntrySide(s, f) then r.status != Pending && r.entry != 0 else ExitBooked(r.status)
  }

  ghost predicate Aligned(s: State, us: set<Fill>) {
    && Books(s) && UniqueLegs(s.rules) && OneSignalEach(s.rules)
    && (forall f :: f in us ==> Addressed(s, f))
    && (forall f, r :: f in us && r in s.rules ==> LinkAgrees(s, f, r))
    && (forall f, g :: f in us && g in us && f.orderId == g.orderId ==>
        f.gttId == g.gttId && (OnEntrySide(s, f) <==> OnEntrySide(s, g)))
  }

  /** Orders with stored trades have had their effect. */
  ghost predicate Consistent(s: State, us: set<Fill>) {
    && Aligned(s, us)
    && (forall f :: f in us && TotalQuantity(ForOrder(s.trades, f.orderId)) > 0 ==> Effective(s, f))
  }

  // ----- Lookups do not depend on links, except where a link decides -----

  lemma {:induction false} LegsStatic(rules: seq<Rule>, gttId: int)
    ensures LegsOf(Static(rules), gttId) == Static(LegsOf(rules, gttId))
  {
    if rules != [] {
      LegsStatic(rules[1..], gttId);
      assert Static(rules)[1..] == Static(rules[1..]);
      assert Static([rules[0]] + LegsOf(rules[1..], gttId))
          == [rules[0].(orderId := None)] + Static(LegsOf(rules[1..], gttId));
    }
  }

  lemma {:induction false} StrategyStatic(legs: seq<Rule>, strategy: Strategy)
    ensures WithStrategy(Static(legs), strategy) == StaticRule(WithStrategy(legs, strategy))
  {
    if legs != [] {
      StrategyStatic(legs[1..], strategy);
      assert Static(legs)[1..] == Static(legs[1..]);
    }
  }

  lemma DerivedStatic(side: Option<Side>, action: Side, price: Option<int>, a: seq<Rule>, b: seq<Rule>)
    requires Static(a) == Static(b)
    ensures DeriveStrategy(side, action, price, a) == DeriveStrategy(side, action, price, b)
    ensures forall x :: StaticRule(WithStrategy(a, x)) == StaticRule(WithStrategy(b, x))
  {
    forall x ensures StaticRule(WithStrategy(a, x)) == StaticRule(WithStrategy(b, x)) {
      StrategyStatic(a, x);
      StrategyStatic(b, x);
    }
    assert StaticRule(WithStrategy(a, TargetLeg)) == StaticRule(WithStrategy(b, TargetLeg));
    assert StaticRule(WithStrategy(a, StoplossLeg)) == StaticRule(WithStrategy(b, StoplossLeg));
  }

  lemma DerivedLegStatic(side: Option<Side>, action: Side, price: Option<int>, a: seq<Rule>, b: seq<Rule>)
    requires Static(a) == Static(b) && a != [] && b != []
    ensures DerivedLeg(side, action, price, a).(orderId := None) == DerivedLeg(side, action, price, b).(orderId := None)
  {
    DerivedStatic(side, action, price, a, b);
    var x := DeriveStrategy(side, action, price, a);
    hide DeriveStrategy;
    assert StaticRule(WithStrategy(a, x)) == StaticRule(WithStrategy(b, x));
    assert Static(a)[0] == Static(b)[0];
  }

  lemma {:induction false} ChildStatic(a: seq<Rule>, b: seq<Rule>, orderId: int)
    requires Static(a) == Static(b)
    requires forall i :: 0 <= i < |a| ==> (a[i].orderId == Some(orderId) <==> b[i].orderId == Some(orderId))
    ensures StaticRule(ByChildOrder(a, orderId)) == StaticRule(ByChildOrder(b, orderId))
  {
    assert |Static(a)| == |a| && |Static(b)| == |b|;
    if a != [] {
      var n := |a| - 1;
      assert Static(a)[n] == Static(b)[n];
      if a[n].orderId != Some(orderId) {
        assert Static(a[..n]) == Static(a)[..n] == Static(b)[..n] == Static(b[..n]);
        ChildStatic(a[..n], b[..n], orderId);
      }
    }
  }

  /** A price, or failing that a target leg, is enough to find the leg of an order. */
  predicate Resolves(s: State, f: Fill, price: Option<int>) {
    price.Some? || (f.gttId.Some? && WithStrategy(LegsOf(s.rules, f.gttId.value), TargetLeg).Some?)
  }

  /** A message of the set is always taken for a leg of its GTT, on its side. */
  lemma LegOfMessage(s: State, us: set<Fill>, f: Fill, price: Option<int>)
    requires Aligned(s, us) && f in us && Resolves(s, f, price)
    ensures var leg := LegFor(s, f, price);
      && leg.Some? && leg.value in s.rules && leg.value.gttId == f.gttId.value
      && leg.value.signalId == TargetSignal(s, f)
      && (leg.value.strategy == EntryLeg <==> OnEntrySide(s, f))
  {
    var legs := LegsOf(s.rules, f.gttId.value);
    assert legs[0] in legs;
    LegIsRule(s, f, price);
    var linked := ByChildOrder(s.rules, f.orderId);
    if linked.Some? { assert LinkAgrees(s, f, linked.value); }
  }

  // ----- Links -----

  lemma {:induction false} UpsertExisting(rules: seq<Rule>, rule: Rule)
    requires UniqueLegs(rules)
    requires exists i :: 0 <= i < |rules| && SameLeg(rules[i], rule.gttId, rule.strategy)
    ensures |Upsert(rules, rule)| == |rules|
    ensures forall i :: 0 <= i < |rules| ==>
      Upsert(rules, rule)[i] == (if SameLeg(rules[i], rule.gttId, rule.strategy)
          then rules[i].(orderId := rule.orderId) else rules[i])
  {
    var i :| 0 <= i < |rules| && SameLeg(rules[i], rule.gttId, rule.strategy);
    if i > 0 {
      assert SameLeg(rules[1..][i - 1], rule.gttId, rule.strategy);
      assert !SameLeg(rules[0], rules[i].gttId, rules[i].strategy);
      UpsertExisting(rules[1..], rule);
    }
  }

  /** Linking touches one leg: the one the order is taken for. */
  lemma LinkTouches(s: State, us: set<Fill>, f: Fill, price: Option<int>)
    requires Aligned(s, us) && f in us && Resolves(s, f, price)
    ensures LegFor(s, f, price).Some?
    ensures var leg := LegFor(s, f, price).value;
      var rules := Linked(s, f, leg);
      && |rules| == |s.rules|
      && forall i :: 0 <= i < |rules| ==>
           rules[i] == s.rules[i] || (SameLeg(s.rules[i], leg.gttId, leg.strategy)
               && rules[i] == s.rules[i].(orderId := Some(f.orderId)))
  {
    LegOfMessage(s, us, f, price);
    var leg := LegFor(s, f, price).value;
    var i :| 0 <= i < |s.rules| && s.rules[i] == leg;
    assert SameLeg(s.rules[i], leg.gttId, leg.strategy);
    UpsertExisting(s.rules, leg.(orderId := Some(f.orderId)));
  }

  // ----- One delivery -----

  lemma AppliedKeeps(r: Row, leg: Strategy, price: int, quantity: nat)
    requires RowOk(r) && price > 0 && !AlreadyApplied(r, leg)
    ensures var r' := Applied(r, leg, price, quantity);
      && r'.action == r.action && r'.status != Pending && r'.entry != 0
      && (ExitBooked(r.status) ==> ExitBooked(r'.status))
      && (leg != EntryLeg ==> ExitBooked(r'.status))
  {
    AppliedOk(r, leg, price, quantity);
  }

  /** Rows only move forward. */
  predicate Forward(s: State, t: State) {
    && s.signals.Keys == t.signals.Keys
    && forall id :: id in s.signals ==>
         && t.signals[id].action == s.signals[id].action
         && (ExitBooked(s.signals[id].status) ==> ExitBooked(t.signals[id].status))
         && (s.signals[id].status != Pending && s.signals[id].entry != 0 ==>
             t.signals[id].status != Pending && t.signals[id].entry != 0)
  }

  /** A rule whose link changed: an entry leg, or a leg of a signal whose exit is booked. */
  predicate LinkIdle(s: State, r: Rule) {
    r.strategy == EntryLeg || Booked(s, r.signalId)
  }

  predicate Relinked(s: State, t: State, f: Fill)
    requires Addressed(s, f)
  {
    && Static(s.rules) == Static(t.rules)
    && |s.rules| == |t.rules|
    && forall i :: 0 <= i < |s.rules| ==>
         || t.rules[i] == s.rules[i]
         || (t.rules[i].orderId == Some(f.orderId) && LinkAgrees(s, f, t.rules[i]) && LinkIdle(t, t.rules[i]))
  }

  lemma StoredAligned(s: State, us: set<Fill>, f: Fill)
    requires Aligned(s, us) && f in us && f.trades.Some?
    ensures Aligned(s.(trades := InsertAll(s.trades, f.trades.value)), us)
  {
    var t := s.(trades := InsertAll(s.trades, f.trades.value));
    assert Addressed(s, f);
    InsertGood(s.trades, f.trades.value);
    hide HasLegs, GoodTrades, RowOk;
    forall g | g in us
      ensures Addressed(t, g) && OnEntrySide(t, g) == OnEntrySide(s, g)
    {
      assert Addressed(s, g);
    }
    forall g, r | g in us && r in t.rules
      ensures LinkAgrees(t, g, r)
    {
      assert LinkAgrees(s, g, r);
    }
  }

  lemma {:induction false} OtherOrders(trades: seq<Trade>, more: seq<Trade>, orderId: int)
    requires forall i :: 0 <= i < |more| ==> more[i].orderId != orderId
    ensures ForOrder(InsertAll(trades, more), orderId) == ForOrder(trades, orderId)
  {
    if more != [] {
      var n := |more| - 1;
      OtherOrders(trades, more[..n], orderId);
      var before := InsertAll(trades, more[..n]);
      assert (before + [more[n]])[..|before|] == before;
    }
  }

  /** The signal and the leg that a message meets. */
  lemma MeetsItsLeg(s: State, us: set<Fill>, f: Fill)
    requires Aligned(s, us) && f in us && Meet(s, f).Meeting?
    ensures Addressed(s, f) && OneSignalEach(s.rules)
    ensures var m := Meet(s, f);
      && Books(m.at) && m.price > 0 && m.at.signals == s.signals && m.at.recorded == s.recorded
      && m.leg in s.rules && m.leg.gttId == f.gttId.value && m.leg.signalId in s.signals
      && m.leg.signalId == TargetSignal(s, f) && (m.leg.strategy == EntryLeg <==> OnEntrySide(s, f))
      && ProcessFilledOrder(s, f) == ApplyFill(m.at, m.leg, m.price, m.quantity)
      && |m.at.rules| == |s.rules|
      && forall i :: 0 <= i < |s.rules| ==>
           || m.at.rules[i] == s.rules[i]
           || (SameLeg(s.rules[i], m.leg.gttId, m.leg.strategy)
               && m.at.rules[i] == s.rules[i].(orderId := Some(f.orderId)))
  {
    var stored := s.(trades := InsertAll(s.trades, f.trades.value));
    var price := WeightedAvgPrice(ForOrder(stored.trades, f.orderId));
    FillMeets(s, f);
    hide ProcessFilledOrder;
    StoredAligned(s, us, f);
    LegOfMessage(stored, us, f, price);
    LinkTouches(stored, us, f, price);
    assert OnEntrySide(stored, f) == OnEntrySide(s, f);
    hide *;
  }

  lemma ApplyForward(s: State, leg: Rule, price: int, quantity: nat)
    requires Books(s) && leg.signalId in s.signals && price > 0
    ensures var t := ApplyFill(s, leg, price, quantity);
      && Forward(s, t) && t.rules == s.rules && t.trades == s.trades
      && var r := t.signals[leg.signalId];
         if leg.strategy == EntryLeg then r.status != Pending && r.entry != 0 else ExitBooked(r.status)
  {
    var r := s.signals[leg.signalId];
    if !AlreadyApplied(r, leg.strategy) {
      AppliedKeeps(r, leg.strategy, price, quantity);
    }
  }

  /** What one delivery of a message does. */
  lemma Delivery(s: State, us: set<Fill>, f: Fill)
    requires Aligned(s, us) && f in us && Meet(s, f).Meeting?
    ensures var t := ProcessFilledOrder(s, f);
      && Forward(s, t)
      && (var r := t.signals[TargetSignal(s, f)];
          if OnEntrySide(s, f) then r.status != Pending && r.entry != 0 else ExitBooked(r.status))
      && Relinked(s, t, f)
  {
    hide ProcessFilledOrder, Meet, Books, ApplyFill, Aligned, Addressed;
    var m := Meet(s, f);
    MeetsItsLeg(s, us, f);
    ApplyForward(m.at, m.leg, m.price, m.quantity);
    var t := ApplyFill(m.at, m.leg, m.price, m.quantity);
    forall i | 0 <= i < |s.rules| && t.rules[i] != s.rules[i]
      ensures t.rules[i].orderId == Some(f.orderId) && LinkAgrees(s, f, t.rules[i]) && LinkIdle(t, t.rules[i])
    {
      assert s.rules[i] in s.rules && m.leg in s.rules;
    }
  }

  /** What a message says of its order survives relinking and rows moving forward. */
  lemma SameAddress(s: State, t: State, f: Fill)
    requires Addressed(s, f) && Static(s.rules) == Static(t.rules) && Forward(s, t)
    ensures Addressed(t, f) && TargetSignal(t, f) == TargetSignal(s, f) && OnEntrySide(t, f) == OnEntrySide(s, f)
    ensures Effective(s, f) ==> Effective(t, f)
    ensures forall price :: Resolves(s, f, price) <==> Resolves(t, f, price)
  {
    var g := f.gttId.value;
    LegsStatic(s.rules, g);
    LegsStatic(t.rules, g);
    DerivedStatic(f.side, Buy, None, LegsOf(s.rules, g), LegsOf(t.rules, g));
    assert StaticRule(WithStrategy(LegsOf(s.rules, g), EntryLeg))
        == StaticRule(WithStrategy(LegsOf(t.rules, g), EntryLeg));
    assert StaticRule(WithStrategy(LegsOf(s.rules, g), TargetLeg))
        == StaticRule(WithStrategy(LegsOf(t.rules, g), TargetLeg));
    assert StaticRule(WithStrategy(LegsOf(s.rules, g), StoplossLeg))
        == StaticRule(WithStrategy(LegsOf(t.rules, g), StoplossLeg));
    assert |LegsOf(s.rules, g)| > 0;
    assert Static(LegsOf(s.rules, g))[0] == Static(LegsOf(t.rules, g))[0];
  }

  lemma StaticShape(a: seq<Rule>, b: seq<Rule>)
    requires Static(a) == Static(b)
    ensures |a| == |b|
    ensures forall i :: 0 <= i < |a| ==>
      a[i].signalId == b[i].signalId && a[i].gttId == b[i].gttId && a[i].strategy == b[i].strategy
    ensures UniqueLegs(a) ==> UniqueLegs(b)
    ensures OneSignalEach(a) ==> OneSignalEach(b)
  {
    assert |Static(a)| == |a| && |Static(b)| == |b|;
    forall i | 0 <= i < |a|
      ensures a[i].signalId == b[i].signalId && a[i].gttId == b[i].gttId && a[i].strategy == b[i].strategy
    {
      assert Static(a)[i] == Static(b)[i];
    }
    if OneSignalEach(a) {
      forall x, y | x in b && y in b && x.gttId == y.gttId
        ensures x.signalId == y.signalId
      {
        var i :| 0 <= i < |b| && b[i] == x;
        var j :| 0 <= j < |b| && b[j] == y;
        assert a[i] in a && a[j] in a;
      }
    }
  }

  /** A step that relinks consistently and moves rows forward keeps messages and state aligned. */
  lemma StaysAligned(s: State, t: State, us: set<Fill>, f: Fill)
    requires Aligned(s, us) && f in us && Books(t) && Relinked(s, t, f) && Forward(s, t)
    ensures Aligned(t, us)
  {
    hide Books, Addressed, HasLegs;
    StaticShape(s.rules, t.rules);
    forall g | g in us
      ensures Addressed(t, g) && OnEntrySide(t, g) == OnEntrySide(s, g)
    {
      SameAddress(s, t, g);
    }
    forall g, r | g in us && r in t.rules
      ensures LinkAgrees(t, g, r)
    {
      var i :| 0 <= i < |t.rules| && t.rules[i] == r;
      assert s.rules[i] in s.rules;
      assert LinkAgrees(s, g, s.rules[i]);
    }
  }

  lemma FillStep(s: State, us: set<Fill>, f: Fill)
    requires Aligned(s, us) && f in us
    ensures var t := ProcessFilledOrder(s, f);
      && Books(t) && Forward(s, t) && Relinked(s, t, f)
      && t.trades == (if f.trades.None? then s.trades else InsertAll(s.trades, f.trades.value))
      && (f.trades.Some? && TotalQuantity(ForOrder(t.trades, f.orderId)) > 0 ==>
           var r := t.signals[TargetSignal(s, f)];
           if OnEntrySide(s, f) then r.status != Pending && r.entry != 0 else ExitBooked(r.status))
  {
    StepKeepsBooks(s, DoFill(f));
    if Meet(s, f).Meeting? {
      Delivery(s, us, f);
    } else if f.trades.Some? {
      var stored := s.(trades := InsertAll(s.trades, f.trades.value));
      var price := WeightedAvgPrice(ForOrder(stored.trades, f.orderId));
      if price.Some? {
        StoredAligned(s, us, f);
        LegOfMessage(stored, us, f, price);
      }
    }
  }

  lemma StaysConsistent(s: State, us: set<Fill>, f: Fill)
    requires Consistent(s, us) && f in us
    ensures Consistent(ProcessFilledOrder(s, f), us)
  {
    var t := ProcessFilledOrder(s, f);
    FillStep(s, us, f);
    hide ProcessFilledOrder, Books;
    StaysAligned(s, t, us, f);
    forall g | g in us && TotalQuantity(ForOrder(t.trades, g.orderId)) > 0
      ensures Effective(t, g)
    {
      SameAddress(s, t, g);
      SameAddress(s, t, f);
      if f.trades.Some? && g.orderId != f.orderId {
        OtherOrders(s.trades, f.trades.value, g.orderId);
      }
    }
  }

  // ----- Repeats -----

  /** The trades of the message are stored. */
  predicate Settled(s: State, f: Fill) {
    f.trades.Some? ==> forall i :: 0 <= i < |f.trades.value| ==> Seen(s.trades, f.trades.value[i].tradeId)
  }

  /** A fill that is not already applied changes the row it is applied to. */
  lemma AppliedChanges(r: Row, leg: Strategy, price: int, quantity: nat)
    requires RowOk(r) && price > 0
    ensures !AlreadyApplied(r, leg) ==> Applied(r, leg, price, quantity) != r
  {
  }

  /**
   Exactly when a delivery changes no row and records nothing: it finds no leg, or the guard for the leg
   it finds at that moment says that it is already applied.
   */
  lemma DeliveryIdleIff(s: State, f: Fill)
    requires Books(s) && Enabled(s, DoFill(f))
    ensures Meet(s, f).Meeting? ==> Meet(s, f).leg.signalId in s.signals
    ensures var t, m := ProcessFilledOrder(s, f), Meet(s, f);
      (t.signals == s.signals && t.recorded == s.recorded) <==>
        (m.Meeting? ==> AlreadyApplied(s.signals[m.leg.signalId], m.leg.strategy))
  {
    FillMeets(s, f);
    var m := Meet(s, f);
    hide ProcessFilledOrder, Meet, Applied, AlreadyApplied;
    if m.Meeting? {
      AppliedChanges(s.signals[m.leg.signalId], m.leg.strategy, m.price, m.quantity);
    }
  }

  /** For a message whose trades are stored, the trades stay as well: this is exactly when a repeat is idle. */
  lemma SettledIdleIff(s: State, f: Fill)
    requires Books(s) && Enabled(s, DoFill(f)) && Settled(s, f)
    ensures Meet(s, f).Meeting? ==> Meet(s, f).leg.signalId in s.signals
    ensures var t, m := ProcessFilledOrder(s, f), Meet(s, f);
      (t.signals == s.signals && t.recorded == s.recorded && t.trades == s.trades) <==>
        (m.Meeting? ==> AlreadyApplied(s.signals[m.leg.signalId], m.leg.strategy))
  {
    DeliveryIdleIff(s, f);
    if f.trades.Some? { ReinsertingIsIdle(s.trades, f.trades.value); }
    hide AlreadyApplied, ApplyFill, LegFor, Linked;
    FillTrades(s, f);
  }

  lemma FillTrades(s: State, f: Fill)
    ensures ProcessFilledOrder(s, f).trades == if f.trades.None? then s.trades else InsertAll(s.trades, f.trades.value)
  {
  }

  /** A settled message of the set changes nothing but idle links: its leg's guard has been set. */
  lemma RepeatIsIdle(s: State, us: set<Fill>, f: Fill)
    requires Consistent(s, us) && f in us && Settled(s, f)
    ensures var t := ProcessFilledOrder(s, f);
      t.signals == s.signals && t.recorded == s.recorded && t.trades == s.trades && Relinked(s, t, f)
  {
    FillStep(s, us, f);
    SettledIdleIff(s, f);
    if Meet(s, f).Meeting? {
      ReinsertingIsIdle(s.trades, f.trades.value);
      MeetsItsLeg(s, us, f);
    }
    hide ProcessFilledOrder;
  }

  /** Two states that differ only in idle links. */
  predicate Alike(s: State, t: State) {
    && s.signals == t.signals && s.recorded == t.recorded && s.trades == t.trades
    && Static(s.rules) == Static(t.rules) && |s.rules| == |t.rules|
    && forall i :: 0 <= i < |s.rules| ==> s.rules[i] == t.rules[i] || LinkIdle(s, s.rules[i])
  }

  /** Alike states link the same exit legs to an order, as long as the exit is not booked. */
  lemma AlikeLinks(s: State, t: State, us: set<Fill>, f: Fill, i: nat)
    requires Aligned(s, us) && Aligned(t, us) && f in us && Alike(s, t) && i < |s.rules|
    requires !OnEntrySide(s, f) && !Booked(s, TargetSignal(s, f))
    ensures s.rules[i].orderId == Some(f.orderId) <==> t.rules[i].orderId == Some(f.orderId)
  {
    SameAddress(s, t, f);
    StaticShape(s.rules, t.rules);
    assert s.rules[i] in s.rules && t.rules[i] in t.rules;
    assert LinkAgrees(s, f, s.rules[i]) && LinkAgrees(t, f, t.rules[i]);
    var legs := LegsOf(s.rules, f.gttId.value);
    assert legs[0] in legs;
  }

  lemma AlikeChildren(s: State, t: State, us: set<Fill>, f: Fill)
    requires Aligned(s, us) && Aligned(t, us) && f in us && Alike(s, t)
    requires !OnEntrySide(s, f) && !Booked(s, TargetSignal(s, f))
    ensures StaticRule(ByChildOrder(s.rules, f.orderId)) == StaticRule(ByChildOrder(t.rules, f.orderId))
  {
    forall i | 0 <= i < |s.rules|
      ensures s.rules[i].orderId == Some(f.orderId) <==> t.rules[i].orderId == Some(f.orderId)
    {
      AlikeLinks(s, t, us, f, i);
    }
    hide *;
    ChildStatic(s.rules, t.rules, f.orderId);
  }

  lemma SameLegs(s: State, t: State, us: set<Fill>, f: Fill)
    requires Aligned(s, us) && f in us && Alike(s, t)
    ensures f.gttId.Some?
    ensures var g := f.gttId.value;
      && Static(LegsOf(s.rules, g)) == Static(LegsOf(t.rules, g))
      && LegsOf(s.rules, g) != [] && LegsOf(t.rules, g) != []
      && ActionOf(s, LegsOf(s.rules, g)[0].signalId) == ActionOf(t, LegsOf(t.rules, g)[0].signalId)
  {
    SameAddress(s, t, f);
    LegsStatic(s.rules, f.gttId.value);
    LegsStatic(t.rules, f.gttId.value);
  }

  /** Where it matters, alike states take an order for the same leg. */
  lemma AlikeLegs(s: State, t: State, us: set<Fill>, f: Fill, price: Option<int>)
    requires Aligned(s, us) && Aligned(t, us) && f in us && Alike(s, t)
    requires !OnEntrySide(s, f) && !Booked(s, TargetSignal(s, f))
    ensures StaticRule(LegFor(s, f, price)) == StaticRule(LegFor(t, f, price))
  {
    hide Aligned, Alike, DerivedLeg, LegsOf, ByChildOrder, Static;
    hide OnEntrySide, Booked, Addressed, TargetSignal, ActionOf;
    AlikeChildren(s, t, us, f);
    SameLegs(s, t, us, f);
    var a, b := LegsOf(s.rules, f.gttId.value), LegsOf(t.rules, f.gttId.value);
    DerivedLegStatic(f.side, ActionOf(s, a[0].signalId), price, a, b);
  }

  /** Delivered to alike states, a message has the same effect on rows, trades and records. */
  lemma AlikeEffects(s: State, t: State, us: set<Fill>, f: Fill)
    requires Aligned(s, us) && Aligned(t, us) && f in us && Alike(s, t)
    requires Meet(s, f).Meeting? && Meet(t, f).Meeting?
    ensures ProcessFilledOrder(s, f).signals == ProcessFilledOrder(t, f).signals
    ensures ProcessFilledOrder(s, f).recorded == ProcessFilledOrder(t, f).recorded
  {
    var m, n := Meet(s, f), Meet(t, f);
    var trades := InsertAll(s.trades, f.trades.value);
    var s1, t1 := s.(trades := trades), t.(trades := trades);
    var price := WeightedAvgPrice(ForOrder(trades, f.orderId));
    assert n.quantity == m.quantity && n.price == m.price;
    assert m.leg == LegFor(s1, f, price).value && n.leg == LegFor(t1, f, price).value;
    SameAddress(s, t, f);
    MeetsItsLeg(s, us, f);
    MeetsItsLeg(t, us, f);
    if !OnEntrySide(s, f) && !Booked(s, TargetSignal(s, f)) {
      StoredAligned(s, us, f);
      StoredAligned(t, us, f);
      StoredAlike(s, t, f, trades);
      AlikeLegs(s1, t1, us, f, price);
    }
    hide ProcessFilledOrder, Meet, Aligned, Alike, LegFor;
    SameEffect(m.at, n.at, m.leg, n.leg, m.price, m.quantity);
  }

  lemma StoredAlike(s: State, t: State, f: Fill, trades: seq<Trade>)
    requires Alike(s, t) && Addressed(s, f)
    ensures var s1, t1 := s.(trades := trades), t.(trades := trades);
      && Alike(s1, t1)
      && (Addressed(s1, f) ==> OnEntrySide(s1, f) == OnEntrySide(s, f) && TargetSignal(s1, f) == TargetSignal(s, f))
  {
  }

  lemma SameEffect(s: State, t: State, a: Rule, b: Rule, price: int, quantity: nat)
    requires Books(s) && s.signals == t.signals && s.recorded == t.recorded
    requires a.signalId == b.signalId && a.signalId in s.signals && (a.strategy == EntryLeg <==> b.strategy == EntryLeg)
    requires a.strategy == b.strategy || Booked(s, a.signalId)
    ensures ApplyFill(s, a, price, quantity).signals == ApplyFill(t, b, price, quantity).signals
    ensures ApplyFill(s, a, price, quantity).recorded == ApplyFill(t, b, price, quantity).recorded
  {
  }

  lemma LinkStaysAlike(s: State, s': State, t': State, r: Rule, r': Rule, q: Rule, q': Rule)
    requires Forward(s, s') && s'.signals == t'.signals
    requires r.signalId == r'.signalId == q'.signalId && r.strategy == r'.strategy == q'.strategy
    requires r == q || LinkIdle(s, r)
    requires r' == r || LinkIdle(s', r')
    requires q' == q || LinkIdle(t', q')
    ensures r' == q' || LinkIdle(s', r')
  {
  }

  lemma LinksStayAlike(s: State, s': State, t: State, t': State, f: Fill)
    requires Alike(s, t) && Addressed(s, f) && Addressed(t, f)
    requires Relinked(s, s', f) && Relinked(t, t', f) && Forward(s, s')
    requires s'.signals == t'.signals && s'.recorded == t'.recorded && s'.trades == t'.trades
    ensures Alike(s', t')
  {
    StaticShape(s.rules, t.rules);
    StaticShape(s.rules, s'.rules);
    StaticShape(t.rules, t'.rules);
    hide Static, LinkAgrees, LinkIdle, UniqueLegs, OneSignalEach, Addressed, Forward;
    forall i | 0 <= i < |s'.rules|
      ensures s'.rules[i] == t'.rules[i] || LinkIdle(s', s'.rules[i])
    {
      LinkStaysAlike(s, s', t', s.rules[i], s'.rules[i], t.rules[i], t'.rules[i]);
    }
  }

  lemma AlikeStays(s: State, t: State, us: set<Fill>, f: Fill)
    requires Consistent(s, us) && Consistent(t, us) && f in us && Alike(s, t)
    ensures Alike(ProcessFilledOrder(s, f), ProcessFilledOrder(t, f))
  {
    FillStep(s, us, f);
    FillStep(t, us, f);
    MeetingsCoincide(s, t, us, f);
    if Meet(s, f).Meeting? {
      AlikeEffects(s, t, us, f);
    }
    hide ProcessFilledOrder, Meet, Books, Relinked, Forward, HasLegs;
    LinksStayAlike(s, ProcessFilledOrder(s, f), t, ProcessFilledOrder(t, f), f);
  }

  /** Whether a message finds its signal depends on trades alone. */
  lemma MeetingsCoincide(s: State, t: State, us: set<Fill>, f: Fill)
    requires Aligned(s, us) && Aligned(t, us) && f in us && s.trades == t.trades
    ensures Meet(s, f).Meeting? <==> Meet(t, f).Meeting?
    ensures Meet(s, f).Nobody? ==>
      && ProcessFilledOrder(s, f).signals == s.signals && ProcessFilledOrder(s, f).recorded == s.recorded
      && ProcessFilledOrder(t, f).signals == t.signals && ProcessFilledOrder(t, f).recorded == t.recorded
  {
    FillMeets(s, f);
    FillMeets(t, f);
    if f.trades.Some? {
      var trades := InsertAll(s.trades, f.trades.value);
      var price := WeightedAvgPrice(ForOrder(trades, f.orderId));
      StoredAligned(s, us, f);
      StoredAligned(t, us, f);
      if price.Some? {
        LegOfMessage(s.(trades := trades), us, f, price);
        LegOfMessage(t.(trades := trades), us, f, price);
      }
    }
  }

  // ----- Whole sequences of deliveries -----

  /** The sequence with every message that was delivered before left out. */
  function WithoutRepeats(fs: seq<Fill>): seq<Fill> {
    if fs == [] then []
    else
      var n := |fs| - 1;
      WithoutRepeats(fs[..n]) + (if fs[n] in fs[..n] then [] else [fs[n]])
  }

  predicate Among(fs: seq<Fill>, us: set<Fill>) {
    forall i :: 0 <= i < |fs| ==> fs[i] in us
  }

  lemma SettledGrows(s: State, t: State, f: Fill)
    requires s.trades <= t.trades
    ensures Settled(s, f) ==> Settled(t, f)
  {
    SeenGrows(s.trades, t.trades);
  }

  lemma SettledAfter(s: State, us: set<Fill>, f: Fill)
    requires Aligned(s, us) && f in us
    ensures s.trades <= ProcessFilledOrder(s, f).trades && Settled(ProcessFilledOrder(s, f), f)
  {
    FillStep(s, us, f);
    if f.trades.Some? { InsertAllKeeps(s.trades, f.trades.value); }
  }

  predicate AllSettled(s: State, fs: seq<Fill>) {
    forall i :: 0 <= i < |fs| ==> Settled(s, fs[i])
  }

  lemma DeliveredSettles(s: State, us: set<Fill>, f: Fill, fs: seq<Fill>)
    requires Consistent(s, us) && f in us && AllSettled(s, fs)
    ensures Consistent(ProcessFilledOrder(s, f), us) && AllSettled(ProcessFilledOrder(s, f), fs + [f])
  {
    StaysConsistent(s, us, f);
    SettledAfter(s, us, f);
    hide ProcessFilledOrder, Settled, Consistent;
    forall i | 0 <= i < |fs| ensures Settled(ProcessFilledOrder(s, f), fs[i]) {
      SettledGrows(s, ProcessFilledOrder(s, f), fs[i]);
    }
  }

  lemma IdleRepeat(s: State, t: State, us: set<Fill>, f: Fill, fs: seq<Fill>)
    requires Consistent(s, us) && f in us && f in fs && AllSettled(s, fs) && Alike(s, t)
    ensures Alike(ProcessFilledOrder(s, f), t)
  {
    RepeatIsIdle(s, us, f);
    hide ProcessFilledOrder;
    IdleAlike(s, ProcessFilledOrder(s, f), t, f);
  }

  lemma IdleAlike(s: State, s': State, t: State, f: Fill)
    requires Alike(s, t) && Addressed(s, f) && Relinked(s, s', f)
    requires s'.signals == s.signals && s'.recorded == s.recorded && s'.trades == s.trades
    ensures Alike(s', t)
  {
    StaticShape(s.rules, s'.rules);
  }

  /** What holds after a sequence of deliveries and the same without repeats. */
  ghost predicate Matched(a: State, b: State, us: set<Fill>, fs: seq<Fill>) {
    Consistent(a, us) && AllSettled(a, fs) && Consistent(b, us) && Alike(a, b)
  }

  lemma MatchedStep(a: State, b: State, us: set<Fill>, fs: seq<Fill>, f: Fill)
    requires Matched(a, b, us, fs) && f in us
    ensures Matched(ProcessFilledOrder(a, f), if f in fs then b else ProcessFilledOrder(b, f), us, fs + [f])
  {
    hide ProcessFilledOrder, Alike, AllSettled, Consistent;
    DeliveredSettles(a, us, f, fs);
    if f in fs {
      IdleRepeat(a, b, us, f, fs);
    } else {
      AlikeStays(a, b, us, f);
      StaysConsistent(b, us, f);
    }
  }

  lemma MatchedStart(s: State, us: set<Fill>)
    requires Consistent(s, us)
    ensures Matched(s, s, us, [])
  {
    hide Consistent;
  }

  lemma {:induction false} RepeatsDropOut(s: State, us: set<Fill>, fs: seq<Fill>)
    requires Consistent(s, us) && Among(fs, us)
    ensures Matched(Deliver(s, fs), Deliver(s, WithoutRepeats(fs)), us, fs)
  {
    hide ProcessFilledOrder, Matched, Consistent;
    if fs == [] {
      MatchedStart(s, us);
    } else {
      var before, f := fs[..|fs| - 1], fs[|fs| - 1];
      var rest := WithoutRepeats(before);
      RepeatsDropOut(s, us, before);
      MatchedStep(Deliver(s, before), Deliver(s, rest), us, before, f);
      assert fs == before + [f];
      assert (rest + [f])[..|rest|] == rest;
      assert rest + [] == rest;
    }
  }

  /** Delivering fills again, at any later point, changes no row, no trade and no record. */
  lemma RepeatsChangeNothing(s: State, fs: seq<Fill>, us: set<Fill>)
    requires Consistent(s, us) && Among(fs, us)
    ensures var a, b := Deliver(s, fs), Deliver(s, WithoutRepeats(fs));
      a.signals == b.signals && a.recorded == b.recorded && a.trades == b.trades
  {
    RepeatsDropOut(s, us, fs);
  }
}
