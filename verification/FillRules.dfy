/**
 The order tracker of gtt_v2/services/order_tracker/main.py as row updates: which leg of which
 signal a fill belongs to, and what it does to the signal's row.

 A NULL price that the code only tests for truth (entry, exit, stoploss, trigger price) is 0.
 */
module FillRules {
  import opened Options
  import opened Vwap

  datatype Side = Buy | Sell
  datatype Strategy = EntryLeg | TargetLeg | StoplossLeg
  datatype Status =
    | Pending | Active | Target1Hit | Target2Hit | Target3Hit | StoplossHit
    | Expired | Cancelled | Failed | Blocked

  /** A row of gtt_rules. */
  datatype Rule = Rule(signalId: int, gttId: int, strategy: Strategy, trigger: int, orderId: Option<int>)

  /** The columns of a row of signals that the tracker reads or writes. */
  datatype Row = Row(action: Side, status: Status, entry: int, exit: int, pnl: Option<int>,
                     stop: int, target1: Option<int>)

  datatype Record = Record(signalId: int, pnl: int)

  /** `recorded` lists the calls of the guard's `record`, with the signal each was made for. */
  datatype State = State(signals: map<int, Row>, rules: seq<Rule>, trades: seq<Trade>, recorded: seq<Record>)

  /** One delivery of a complete order: its message, and what the broker answers about its trades. */
  datatype Fill = Fill(orderId: int, gttId: Option<int>, side: Option<Side>, trades: Option<seq<Trade>>)

  // ----- gtt_rules.py -----

  function LegsOf(rules: seq<Rule>, gttId: int): (legs: seq<Rule>)
    ensures forall r :: r in legs <==> r in rules && r.gttId == gttId
  {
    if rules == [] then []
    else
      var rest := LegsOf(rules[1..], gttId);
      assert forall r :: r in rules <==> r == rules[0] || r in rules[1..];
      if rules[0].gttId == gttId then [rules[0]] + rest else rest
  }

  /** The newest row with this child order id. */
  function ByChildOrder(rules: seq<Rule>, orderId: int): (r: Option<Rule>)
    ensures r.Some? ==> r.value in rules && r.value.orderId == Some(orderId)
    ensures r.None? ==> forall x :: x in rules ==> x.orderId != Some(orderId)
  {
    if rules == [] then None
    else
      var n := |rules| - 1;
      assert forall x :: x in rules <==> x == rules[n] || x in rules[..n];
      if rules[n].orderId == Some(orderId) then Some(rules[n]) else ByChildOrder(rules[..n], orderId)
  }

  function WithStrategy(legs: seq<Rule>, strategy: Strategy): (r: Option<Rule>)
    ensures r.Some? ==> r.value in legs && r.value.strategy == strategy
    ensures r.None? ==> forall x :: x in legs ==> x.strategy != strategy
  {
    if legs == [] then None
    else if legs[0].strategy == strategy then Some(legs[0])
    else WithStrategy(legs[1..], strategy)
  }

  predicate SameLeg(r: Rule, gttId: int, strategy: Strategy) {
    r.gttId == gttId && r.strategy == strategy
  }

  /** INSERT ... ON CONFLICT (gtt_order_id, strategy) DO UPDATE: overwrites the child order id. */
  function Upsert(rules: seq<Rule>, rule: Rule): seq<Rule> {
    if rules == [] then [rule]
    else if SameLeg(rules[0], rule.gttId, rule.strategy) then [rules[0].(orderId := rule.orderId)] + rules[1..]
    else [rules[0]] + Upsert(rules[1..], rule)
  }

  // ----- Which leg -----

  /** Distance to a trigger price; None is infinity. */
  function Distance(fill: int, trigger: int): Option<nat> {
    if trigger == 0 then None else Some(if fill >= trigger then fill - trigger else trigger - fill)
  }

  predicate NotFarther(a: Option<nat>, b: Option<nat>) {
    b.None? || (a.Some? && a.value <= b.value)
  }

  function DeriveStrategy(side: Option<Side>, action: Side, fill: Option<int>, legs: seq<Rule>): Strategy {
    if side == Some(action) then EntryLeg
    else if fill.None? then TargetLeg
    else
      var target, stop := WithStrategy(legs, TargetLeg), WithStrategy(legs, StoplossLeg);
      if target.Some? && stop.Some? then
        if NotFarther(Distance(fill.value, target.value.trigger), Distance(fill.value, stop.value.trigger))
        then TargetLeg else StoplossLeg
      else if target.Some? then TargetLeg
      else if stop.Some? then StoplossLeg
      else TargetLeg
  }

  function DerivedLeg(side: Option<Side>, action: Side, fill: Option<int>, legs: seq<Rule>): Rule
    requires legs != []
  {
    var derived := WithStrategy(legs, DeriveStrategy(side, action, fill, legs));
    if derived.Some? then derived.value else legs[0]
  }

  function ActionOf(s: State, signalId: int): Side {
    if signalId in s.signals then s.signals[signalId].action else Buy
  }

  /** The leg an order is taken for: the one it is linked to, else the one derived. */
  function LegFor(s: State, f: Fill, price: Option<int>): Option<Rule> {
    var linked := ByChildOrder(s.rules, f.orderId);
    if linked.Some? then linked
    else if f.gttId.None? || LegsOf(s.rules, f.gttId.value) == [] then None
    else
      var legs := LegsOf(s.rules, f.gttId.value);
      Some(DerivedLeg(f.side, ActionOf(s, legs[0].signalId), price, legs))
  }

  /** The rules after an order has been taken for `leg`: a derived leg gets linked. */
  function Linked(s: State, f: Fill, leg: Rule): seq<Rule> {
    if ByChildOrder(s.rules, f.orderId).Some? then s.rules
    else Upsert(s.rules, leg.(orderId := Some(f.orderId)))
  }

  // ----- What the fill does to the row -----

  predicate ExitBooked(status: Status) {
    status in {Target1Hit, Target2Hit, Target3Hit, StoplossHit}
  }

  /** The two already-applied guards. */
  predicate AlreadyApplied(r: Row, leg: Strategy) {
    if leg == EntryLeg then r.status != Pending && r.entry != 0
    else r.exit != 0 && ExitBooked(r.status)
  }

  const TOLERANCE := 75

  predicate AtTarget(r: Row, price: int) {
    r.target1.Some? &&
    if r.action == Buy then price >= r.target1.value - TOLERANCE else price <= r.target1.value + TOLERANCE
  }

  predicate AtStop(r: Row, price: int) {
    r.stop != 0 &&
    if r.action == Buy then price <= r.stop + TOLERANCE else price >= r.stop - TOLERANCE
  }

  predicate EntryOnly(r: Row, leg: Strategy, price: int) {
    leg == EntryLeg && !AtTarget(r, price) && !AtStop(r, price)
  }

  function Realized(action: Side, entry: int, exit: int, quantity: nat): int {
    if action == Buy then (exit - entry) * quantity else (entry - exit) * quantity
  }

  /** The row after a fill that is not already applied. */
  function Applied(r: Row, leg: Strategy, price: int, quantity: nat): Row {
    if EntryOnly(r, leg, price) then r.(entry := price, status := Active)
    else
      var entry := if r.entry != 0 then r.entry else price;
      r.(entry := entry, exit := price, pnl := Some(Realized(r.action, entry, price, quantity)),
         status := if AtTarget(r, price) || leg == TargetLeg then Target1Hit
                   else if AtStop(r, price) || leg == StoplossLeg then StoplossHit
                   else Active)
  }

  predicate BooksExit(r: Row, leg: Strategy, price: int) {
    !AlreadyApplied(r, leg) && !EntryOnly(r, leg, price)
  }

  /** The foreign key of gtt_rules rules out a leg without a signal row. */
  function ApplyFill(s: State, leg: Rule, price: int, quantity: nat): State {
    var id := leg.signalId;
    if id !in s.signals || AlreadyApplied(s.signals[id], leg.strategy) then s
    else
      var r := s.signals[id];
      var r' := Applied(r, leg.strategy, price, quantity);
      s.(signals := s.signals[id := r'],
         recorded := if BooksExit(r, leg.strategy, price) && r'.pnl.value != 0
                     then s.recorded + [Record(id, r'.pnl.value)] else s.recorded)
  }

  /** Every leg row refers to a signal row, as the foreign key demands. */
  predicate KeysHold(s: State) {
    forall r :: r in s.rules ==> r.signalId in s.signals
  }

  function ProcessFilledOrder(s: State, f: Fill): State {
    if f.trades.None? then s
    else
      var stored := s.(trades := InsertAll(s.trades, f.trades.value));
      var mine := ForOrder(stored.trades, f.orderId);
      var price := WeightedAvgPrice(mine);
      if price.None? then stored
      else
        var leg := LegFor(stored, f, price);
        if leg.None? then stored
        else ApplyFill(stored.(rules := Linked(stored, f, leg.value)), leg.value, price.value, TotalQuantity(mine))
  }

  lemma {:induction false} UpsertSignals(rules: seq<Rule>, rule: Rule)
    ensures forall r :: r in Upsert(rules, rule) ==>
        r.signalId == rule.signalId || exists x :: x in rules && x.signalId == r.signalId
  {
    if rules != [] {
      UpsertSignals(rules[1..], rule);
      assert rules[0] in rules;
      assert forall x :: x in rules[1..] ==> x in rules;
    }
  }
}
