/**
 Runs of the order tracker: fills delivered any number of times and in any order, from the
 websocket and from the reconciler, mixed with link updates and GTT notices.

 Each operation is one atomic database step.
 */
module TrackerRuns {
  import opened Options
  import opened Vwap
  import opened FillRules

  datatype Op =
    | DoFill(f: Fill)                                   // _process_filled_order
    | DoLink(f: Fill, price: Option<int>)               // _handle_order_update, before the fill
    | DoNotice(gttId: int, closes: Option<Status>)      // _handle_gtt_update
    | DoUpsert(rule: Rule)                              // a leg written by the reconciler or the engine
    | DoSignal(id: int, row: Row)                       // a new signal

  function UpsertAll(rules: seq<Rule>, more: seq<Rule>): seq<Rule>
    decreases |more|
  {
    if more == [] then rules else UpsertAll(Upsert(rules, more[0]), more[1..])
  }

  /** A GTT notice overwrites each leg's child order id with NULL. */
  function Unlinked(legs: seq<Rule>): seq<Rule> {
    if legs == [] then [] else [legs[0].(orderId := None)] + Unlinked(legs[1..])
  }

  function Notice(s: State, gttId: int, closes: Option<Status>): State
    requires KeysHold(s)
  {
    var legs := LegsOf(s.rules, gttId);
    if legs == [] then s
    else
      assert legs[0] in s.rules;
      var id := legs[0].signalId;
      s.(rules := UpsertAll(s.rules, Unlinked(legs)),
         signals := if closes.None? then s.signals else s.signals[id := s.signals[id].(status := closes.value)])
  }

  function Link(s: State, f: Fill, price: Option<int>): State {
    var leg := LegFor(s, f, price);
    if leg.None? then s else s.(rules := Linked(s, f, leg.value))
  }

  predicate GoodTrades(trades: seq<Trade>) { forall i :: 0 <= i < |trades| ==> trades[i].price > 0 }

  predicate FreshRow(r: Row) { r.entry == 0 && r.exit == 0 && r.pnl.None? && !ExitBooked(r.status) }

  /** Prices are positive, foreign keys are respected, and notices close with CANCELLED or EXPIRED. */
  predicate Enabled(s: State, op: Op) {
    match op
    case DoFill(f) => f.trades.Some? ==> GoodTrades(f.trades.value)
    case DoLink(_, _) => true
    case DoNotice(_, closes) => closes.Some? ==> closes.value in {Cancelled, Expired}
    case DoUpsert(rule) => rule.signalId in s.signals
    case DoSignal(id, row) => id !in s.signals && FreshRow(row)
  }

  function StepRaw(s: State, op: Op): State
    requires KeysHold(s)
  {
    match op
    case DoFill(f) => ProcessFilledOrder(s, f)
    case DoLink(f, price) => Link(s, f, price)
    case DoNotice(gttId, closes) => Notice(s, gttId, closes)
    case DoUpsert(rule) => s.(rules := Upsert(s.rules, rule))
    case DoSignal(id, row) => s.(signals := s.signals[id := row])
  }

  // ----- What every operation keeps -----

  predicate RowOk(r: Row) {
    && (r.exit == 0 ==> r.pnl.None? && !ExitBooked(r.status))
    && (r.exit != 0 ==> r.entry != 0 && r.pnl.Some?)
  }

  predicate Books(s: State) {
    && KeysHold(s)
    && GoodTrades(s.trades)
    && (forall id :: id in s.signals ==> RowOk(s.signals[id]))
    && (forall i :: 0 <= i < |s.recorded| ==> s.recorded[i].signalId in s.signals)
  }

  lemma {:induction false} UpsertAllSignals(rules: seq<Rule>, more: seq<Rule>, ids: set<int>)
    requires forall r :: r in rules ==> r.signalId in ids
    requires forall r :: r in more ==> r.signalId in ids
    ensures forall r :: r in UpsertAll(rules, more) ==> r.signalId in ids
    decreases |more|
  {
    if more != [] {
      assert more[0] in more && forall r :: r in more[1..] ==> r in more;
      UpsertSignals(rules, more[0]);
      UpsertAllSignals(Upsert(rules, more[0]), more[1..], ids);
    }
  }

  lemma {:induction false} UnlinkedSignals(legs: seq<Rule>, ids: set<int>)
    requires forall r :: r in legs ==> r.signalId in ids
    ensures forall r :: r in Unlinked(legs) ==> r.signalId in ids
  {
    if legs != [] {
      assert legs[0] in legs && forall r :: r in legs[1..] ==> r in legs;
      UnlinkedSignals(legs[1..], ids);
    }
  }

  lemma LinkedKeys(s: State, f: Fill, price: Option<int>)
    requires KeysHold(s) && LegFor(s, f, price).Some?
    ensures var leg := LegFor(s, f, price).value; leg.signalId in s.signals && KeysHold(s.(rules := Linked(s, f, leg)))
  {
    var leg := LegFor(s, f, price).value;
    LegIsRule(s, f, price);
    UpsertSignals(s.rules, leg.(orderId := Some(f.orderId)));
  }

  lemma LegIsRule(s: State, f: Fill, price: Option<int>)
    ensures LegFor(s, f, price).Some? ==> LegFor(s, f, price).value in s.rules
  {
    if f.gttId.Some? && LegsOf(s.rules, f.gttId.value) != [] {
      assert LegsOf(s.rules, f.gttId.value)[0] in LegsOf(s.rules, f.gttId.value);
    }
  }

  lemma {:induction false} ForOrderGood(trades: seq<Trade>, orderId: int)
    requires GoodTrades(trades)
    ensures GoodTrades(ForOrder(trades, orderId))
  {
    if trades != [] {
      ForOrderGood(trades[..|trades| - 1], orderId);
    }
  }

  lemma {:induction false} InsertGood(trades: seq<Trade>, more: seq<Trade>)
    requires GoodTrades(trades) && GoodTrades(more)
    ensures GoodTrades(InsertAll(trades, more))
  {
    if more != [] {
      InsertGood(trades, more[..|more| - 1]);
    }
  }

  /** The state in which a fill meets its signal, and the leg and price it comes with. */
  datatype Meeting = Nobody | Meeting(at: State, leg: Rule, price: int, quantity: nat)

  function Meet(s: State, f: Fill): Meeting {
    if f.trades.None? then Nobody
    else
      var stored := s.(trades := InsertAll(s.trades, f.trades.value));
      var mine := ForOrder(stored.trades, f.orderId);
      var price := WeightedAvgPrice(mine);
      if price.None? || LegFor(stored, f, price).None? then Nobody
      else
        var leg := LegFor(stored, f, price).value;
        Meeting(stored.(rules := Linked(stored, f, leg)), leg, price.value, TotalQuantity(mine))
  }

  /** A sequence of deliveries. */
  function Deliver(s: State, fs: seq<Fill>): State {
    if fs == [] then s else ProcessFilledOrder(Deliver(s, fs[..|fs| - 1]), fs[|fs| - 1])
  }

  lemma FillMeets(s: State, f: Fill)
    requires Books(s) && Enabled(s, DoFill(f))
    ensures var m := Meet(s, f);
      && (m.Nobody? ==>
            && ProcessFilledOrder(s, f) == s.(trades := ProcessFilledOrder(s, f).trades)
            && GoodTrades(ProcessFilledOrder(s, f).trades))
      && (m.Meeting? ==>
           && m.leg.signalId in s.signals && Books(m.at) && m.price > 0
           && m.at.signals == s.signals && m.at.recorded == s.recorded
           && ProcessFilledOrder(s, f) == ApplyFill(m.at, m.leg, m.price, m.quantity))
  {
    if f.trades.Some? {
      var stored := s.(trades := InsertAll(s.trades, f.trades.value));
      InsertGood(s.trades, f.trades.value);
      var mine := ForOrder(stored.trades, f.orderId);
      ForOrderGood(stored.trades, f.orderId);
      AveragePositive(mine);
      var price := WeightedAvgPrice(mine);
      if price.Some? && LegFor(stored, f, price).Some? {
        LinkedKeys(stored, f, price);
      }
    }
  }

  lemma AppliedOk(r: Row, leg: Strategy, price: int, quantity: nat)
    requires RowOk(r) && price > 0 && !AlreadyApplied(r, leg)
    ensures RowOk(Applied(r, leg, price, quantity))
    ensures BooksExit(r, leg, price) <==> ExitBooked(Applied(r, leg, price, quantity).status)
    ensures BooksExit(r, leg, price) ==> !ExitBooked(r.status)
  {
  }

  lemma StepKeepsBooks(s: State, op: Op)
    requires Books(s) && Enabled(s, op)
    ensures Books(StepRaw(s, op))
    ensures s.signals.Keys <= StepRaw(s, op).signals.Keys
  {
    match op
    case DoFill(f) =>
      FillMeets(s, f);
      var m := Meet(s, f);
      if m.Meeting? {
        var r := s.signals[m.leg.signalId];
        hide ProcessFilledOrder, Meet;
        if !AlreadyApplied(r, m.leg.strategy) { AppliedOk(r, m.leg.strategy, m.price, m.quantity); }
      }
    case DoLink(f, price) =>
      if LegFor(s, f, price).Some? { LinkedKeys(s, f, price); }
    case DoNotice(gttId, closes) =>
      var legs := LegsOf(s.rules, gttId);
      UnlinkedSignals(legs, s.signals.Keys);
      UpsertAllSignals(s.rules, Unlinked(legs), s.signals.Keys);
      if legs != [] { assert legs[0] in s.rules; }
    case DoUpsert(rule) => UpsertSignals(s.rules, rule);
    case DoSignal(id, row) =>
  }

  function Step(s: State, op: Op): (s': State)
    requires Books(s) && Enabled(s, op)
    ensures Books(s')
  {
    StepKeepsBooks(s, op);
    StepRaw(s, op)
  }

  predicate Legal(s: State, ops: seq<Op>)
    requires Books(s)
    decreases |ops|
  {
    ops == [] || (Enabled(s, ops[0]) && Legal(Step(s, ops[0]), ops[1..]))
  }

  function Run(s: State, ops: seq<Op>): (s': State)
    requires Books(s) && Legal(s, ops)
    ensures Books(s')
    decreases |ops|
  {
    if ops == [] then s else Run(Step(s, ops[0]), ops[1..])
  }

  lemma {:induction false} RunAppend(s: State, a: seq<Op>, b: seq<Op>)
    requires Books(s) && Legal(s, a) && Legal(Run(s, a), b)
    ensures Legal(s, a + b) && Run(s, a + b) == Run(Run(s, a), b)
    decreases |a|
  {
    hide StepRaw, Books, Enabled;
    if a == [] {
      assert a + b == b;
    } else {
      assert (a + b)[1..] == a[1..] + b;
      RunAppend(Step(s, a[0]), a[1..], b);
    }
  }

  lemma RunOneMore(s: State, ops: seq<Op>, op: Op)
    requires Books(s) && Legal(s, ops) && Enabled(Run(s, ops), op)
    ensures Legal(s, ops + [op]) && Run(s, ops + [op]) == Step(Run(s, ops), op)
  {
    assert [op][1..] == [];
    RunAppend(s, ops, [op]);
  }

  // ----- Exactly-once P&L -----

  function Count(recorded: seq<Record>, id: int): nat {
    if recorded == [] then 0
    else Count(recorded[..|recorded| - 1], id) + (if recorded[|recorded| - 1].signalId == id then 1 else 0)
  }

  function RecordedFor(recorded: seq<Record>, id: int): int {
    if recorded == [] then 0
    else
      var last := recorded[|recorded| - 1];
      RecordedFor(recorded[..|recorded| - 1], id) + (if last.signalId == id then last.pnl else 0)
  }

  function Booked(s: State, id: int): bool { id in s.signals && ExitBooked(s.signals[id].status) }

  /** A CANCELLED or EXPIRED notice that arrives after the signal's exit was booked. */
  predicate LateNotice(s: State, op: Op, id: int) {
    && op.DoNotice? && op.closes.Some?
    && LegsOf(s.rules, op.gttId) != [] && LegsOf(s.rules, op.gttId)[0].signalId == id
    && Booked(s, id)
  }

  function LateNotices(s: State, ops: seq<Op>, id: int): nat
    requires Books(s) && Legal(s, ops)
    decreases |ops|
  {
    if ops == [] then 0
    else (if LateNotice(s, ops[0], id) then 1 else 0) + LateNotices(Step(s, ops[0]), ops[1..], id)
  }

  /** What is stored for a signal is what was recorded for it; an exit, once there, is booked. */
  predicate PnlMatches(s: State, id: int) {
    if id in s.signals then
      var r := s.signals[id];
      && (r.exit != 0 ==> ExitBooked(r.status))
      && RecordedFor(s.recorded, id) == (if r.pnl.Some? then r.pnl.value else 0)
    else RecordedFor(s.recorded, id) == 0
  }

  lemma ApplyOnSignal(s: State, leg: Rule, price: int, quantity: nat, id: int)
    requires Books(s) && leg.signalId in s.signals && price > 0
    ensures var t := ApplyFill(s, leg, price, quantity);
      && (Booked(s, id) ==> Booked(t, id))
      && Count(t.recorded, id) <= Count(s.recorded, id) + (if !Booked(s, id) && Booked(t, id) then 1 else 0)
      && (PnlMatches(s, id) ==> PnlMatches(t, id))
  {
    var r := s.signals[leg.signalId];
    if !AlreadyApplied(r, leg.strategy) {
      AppliedOk(r, leg.strategy, price, quantity);
    }
    hide Realized, AtTarget, AtStop, KeysHold;
  }

  lemma {:induction false} NeverRecorded(recorded: seq<Record>, id: int)
    requires forall i :: 0 <= i < |recorded| ==> recorded[i].signalId != id
    ensures RecordedFor(recorded, id) == 0 && Count(recorded, id) == 0
  {
    if recorded != [] {
      NeverRecorded(recorded[..|recorded| - 1], id);
    }
  }

  lemma FillOnSignal(s: State, f: Fill, id: int)
    requires Books(s) && Enabled(s, DoFill(f))
    ensures var t := ProcessFilledOrder(s, f);
      && (Booked(s, id) ==> Booked(t, id))
      && Count(t.recorded, id) <= Count(s.recorded, id) + (if !Booked(s, id) && Booked(t, id) then 1 else 0)
      && (PnlMatches(s, id) ==> PnlMatches(t, id))
  {
    FillMeets(s, f);
    var m := Meet(s, f);
    hide ProcessFilledOrder, Meet, ApplyFill;
    if m.Meeting? {
      assert PnlMatches(s, id) ==> PnlMatches(m.at, id);
      ApplyOnSignal(m.at, m.leg, m.price, m.quantity, id);
    }
  }

  /** How one step can change one signal's row and records. */
  lemma StepOnSignal(s: State, op: Op, id: int)
    requires Books(s) && Enabled(s, op)
    ensures var s' := Step(s, op);
      && Count(s'.recorded, id) <= Count(s.recorded, id) + (if !Booked(s, id) && Booked(s', id) then 1 else 0)
      && (!LateNotice(s, op, id) ==>
           && (Booked(s, id) ==> Booked(s', id))
           && (PnlMatches(s, id) ==> PnlMatches(s', id)))
  {
    match op
    case DoFill(f) =>
      hide ProcessFilledOrder, Books;
      FillOnSignal(s, f, id);
    case DoLink(f, price) =>
    case DoNotice(gttId, closes) =>
      if LegsOf(s.rules, gttId) != [] { assert LegsOf(s.rules, gttId)[0] in s.rules; }
    case DoUpsert(rule) =>
    case DoSignal(i, row) =>
      if i == id { NeverRecorded(s.recorded, id); }
  }

  /**
   However fills are repeated and reordered, a signal's exit is recorded at most once, plus once
   for each cancel or expiry notice that came after its exit was already booked.
   */
  lemma {:induction false} RecordedAtMostOnce(s: State, ops: seq<Op>, id: int)
    requires Books(s) && Legal(s, ops)
    ensures Count(Run(s, ops).recorded, id)
         <= Count(s.recorded, id) + LateNotices(s, ops, id) + (if Booked(s, id) then 0 else 1)
    decreases |ops|
  {
    if ops != [] {
      StepOnSignal(s, ops[0], id);
      RecordedAtMostOnce(Step(s, ops[0]), ops[1..], id);
    }
  }

  /** With no such late notice, what a signal's row says is what was recorded for it. */
  lemma {:induction false} StoredIsRecorded(s: State, ops: seq<Op>, id: int)
    requires Books(s) && Legal(s, ops)
    requires PnlMatches(s, id) && LateNotices(s, ops, id) == 0
    ensures PnlMatches(Run(s, ops), id)
    decreases |ops|
  {
    if ops != [] {
      StepOnSignal(s, ops[0], id);
      StoredIsRecorded(Step(s, ops[0]), ops[1..], id);
    }
  }

  function TotalRecorded(recorded: seq<Record>): int {
    if recorded == [] then 0
    else TotalRecorded(recorded[..|recorded| - 1]) + recorded[|recorded| - 1].pnl
  }

  /** The stored P&L of the listed signals. */
  function TotalStored(s: State, ids: seq<int>): int {
    if ids == [] then 0
    else
      var id := ids[|ids| - 1];
      TotalStored(s, ids[..|ids| - 1])
      + (if id in s.signals && s.signals[id].pnl.Some? then s.signals[id].pnl.value else 0)
  }

  function RecordedForAll(recorded: seq<Record>, ids: seq<int>): int {
    if ids == [] then 0
    else RecordedForAll(recorded, ids[..|ids| - 1]) + RecordedFor(recorded, ids[|ids| - 1])
  }

  lemma {:induction false} OneMoreRecord(recorded: seq<Record>, last: Record, ids: seq<int>)
    requires forall i, j :: 0 <= i < j < |ids| ==> ids[i] != ids[j]
    ensures RecordedForAll(recorded + [last], ids)
         == RecordedForAll(recorded, ids) + (if last.signalId in ids then last.pnl else 0)
  {
    if ids != [] {
      var n := |ids| - 1;
      OneMoreRecord(recorded, last, ids[..n]);
      assert (recorded + [last])[..|recorded|] == recorded;
      assert last.signalId in ids <==> last.signalId in ids[..n] || last.signalId == ids[n];
    }
  }

  lemma {:induction false} RecordsBySignal(recorded: seq<Record>, ids: seq<int>)
    requires forall i, j :: 0 <= i < j < |ids| ==> ids[i] != ids[j]
    requires forall i :: 0 <= i < |recorded| ==> recorded[i].signalId in ids
    ensures RecordedForAll(recorded, ids) == TotalRecorded(recorded)
  {
    if recorded == [] {
      NoRecords(ids);
    } else {
      var n := |recorded| - 1;
      assert recorded == recorded[..n] + [recorded[n]];
      RecordsBySignal(recorded[..n], ids);
      OneMoreRecord(recorded[..n], recorded[n], ids);
    }
  }

  lemma {:induction false} NoRecords(ids: seq<int>)
    ensures RecordedForAll([], ids) == 0
  {
    if ids != [] { NoRecords(ids[..|ids| - 1]); }
  }

  lemma {:induction false} StoredBySignal(s: State, ids: seq<int>)
    requires forall i :: 0 <= i < |ids| ==> ids[i] in s.signals && PnlMatches(s, ids[i])
    ensures TotalStored(s, ids) == RecordedForAll(s.recorded, ids)
  {
    if ids != [] { StoredBySignal(s, ids[..|ids| - 1]); }
  }

  /** From an empty book: the guard's total is the sum of the signals' stored P&L. */
  lemma TotalIsConserved(s: State, ops: seq<Op>, ids: seq<int>)
    requires s.signals == map[] && s.recorded == [] && Books(s) && Legal(s, ops)
    requires forall i, j :: 0 <= i < j < |ids| ==> ids[i] != ids[j]
    requires forall id :: id in ids <==> id in Run(s, ops).signals
    requires forall id :: id in ids ==> LateNotices(s, ops, id) == 0
    ensures TotalRecorded(Run(s, ops).recorded) == TotalStored(Run(s, ops), ids)
  {
    var t := Run(s, ops);
    forall i | 0 <= i < |ids| ensures ids[i] in t.signals && PnlMatches(t, ids[i]) {
      assert ids[i] in ids;
      StoredIsRecorded(s, ops, ids[i]);
    }
    StoredBySignal(t, ids);
    RecordsBySignal(t.recorded, ids);
  }

  /** A booked signal absorbs further fills of all three legs. */
  lemma BookedAbsorbs(s: State, f: Fill)
    requires Books(s) && Enabled(s, DoFill(f))
    requires Meet(s, f).Meeting? && Booked(s, Meet(s, f).leg.signalId)
    ensures ProcessFilledOrder(s, f).signals == s.signals && ProcessFilledOrder(s, f).recorded == s.recorded
  {
    FillMeets(s, f);
  }
}
