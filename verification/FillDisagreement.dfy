/**
 Why HandledRepeats asks that the messages for an order agree: three order updates, the third a repeat of
 the first, after which a position is closed without a new trade.
 */
module FillDisagreement {
  import opened Options
  import opened Vwap
  import opened FillRules
  import opened TrackerRuns
  import opened HandledRepeats
  import OrderTracker

  const ENTRY_TRADE := Trade(1, 11, 10, 10000)
  const SECOND_TRADE := Trade(2, 12, 10, 10100)

  /** The entry order, in a message that does not say its side, and a second entry order of the GTT. */
  const FIRST := Fill(1, Some(7), None, Some([ENTRY_TRADE]))
  const SECOND := Fill(2, Some(7), Some(Buy), Some([SECOND_TRADE]))

  function Legs(entry: int, stop: Option<int>): seq<Rule> {
    [Rule(1, 7, EntryLeg, 10000, Some(entry)), Rule(1, 7, TargetLeg, 12000, None), Rule(1, 7, StoplossLeg, 9000, stop)]
  }

  function Book(r: Row, rules: seq<Rule>, trades: seq<Trade>): State { State(map[1 := r], rules, trades, []) }

  const NEW_ROW := Row(Buy, Pending, 0, 0, None, 9000, Some(12000))
  const OPEN_ROW := NEW_ROW.(status := Active, entry := 10000)
  const CLOSED_ROW := OPEN_ROW.(status := StoplossHit, exit := 10000, pnl := Some(0))

  const START := Book(NEW_ROW, Legs(1, None), [])

  lemma OneTrade(t: Trade)
    requires t.quantity > 0
    ensures TotalQuantity([t]) == t.quantity && WeightedAvgPrice([t]) == Some(t.price)
  {
    assert [t][..0] == [];
    AverageBetween([t], t.price, t.price);
  }

  lemma StoredTrades()
    ensures InsertAll([], [ENTRY_TRADE]) == [ENTRY_TRADE]
    ensures InsertAll([ENTRY_TRADE], [SECOND_TRADE]) == [ENTRY_TRADE, SECOND_TRADE]
    ensures InsertAll([ENTRY_TRADE, SECOND_TRADE], [ENTRY_TRADE]) == [ENTRY_TRADE, SECOND_TRADE]
  {
    var a, b := ENTRY_TRADE, SECOND_TRADE;
    assert [a][..0] == [] && [b][..0] == [] && [a, b][..1] == [a];
    assert Seen([a, b], 11) by { assert [a, b][0].tradeId == 11; }
  }

  lemma TradesOfOrder()
    ensures ForOrder([ENTRY_TRADE], 1) == [ENTRY_TRADE]
    ensures ForOrder([ENTRY_TRADE, SECOND_TRADE], 1) == [ENTRY_TRADE]
    ensures ForOrder([ENTRY_TRADE, SECOND_TRADE], 2) == [SECOND_TRADE]
  {
    var a, b := ENTRY_TRADE, SECOND_TRADE;
    assert [a][..0] == [] && [a, b][..1] == [a];
    assert ForOrder([a], 1) == [a] && ForOrder([a], 2) == [];
  }

  lemma Tails(entry: int, stop: Option<int>)
    ensures var rules := Legs(entry, stop);
      rules[1..] == [rules[1], rules[2]] && rules[1..][1..] == [rules[2]] && rules[1..][1..][1..] == []
  {
  }

  lemma LegLookUps(entry: int, order: int)
    ensures var rules := Legs(entry, None);
      && ByChildOrder(rules, order) == (if order == entry then Some(rules[0]) else None)
      && LegsOf(rules, 7) == rules
  {
    var rules := Legs(entry, None);
    Tails(entry, None);
    assert LegsOf([rules[2]], 7) == [rules[2]];
    assert LegsOf([rules[1], rules[2]], 7) == [rules[1], rules[2]];
    assert rules[..2][..1] == [rules[0]] && rules[..2][..1][..0] == [];
  }

  lemma StrategyLookUps(entry: int)
    ensures var rules := Legs(entry, None);
      && WithStrategy(rules, EntryLeg) == Some(rules[0])
      && WithStrategy(rules, TargetLeg) == Some(rules[1])
      && WithStrategy(rules, StoplossLeg) == Some(rules[2])
  {
    Tails(entry, None);
  }

  lemma LinkUpserts(entry: int, order: int)
    ensures var rules := Legs(entry, None);
      && Upsert(rules, rules[0].(orderId := Some(order))) == Legs(order, None)
      && Upsert(rules, rules[2].(orderId := Some(order))) == Legs(entry, Some(order))
  {
    var rules := Legs(entry, None);
    Tails(entry, None);
    var last := rules[2].(orderId := Some(order));
    assert Upsert([rules[2]], last) == [last];
    assert Upsert([rules[1], rules[2]], last) == [rules[1], last];
  }

  lemma LookUps(entry: int, order: int)
    ensures var rules := Legs(entry, None);
      && ByChildOrder(rules, order) == (if order == entry then Some(rules[0]) else None)
      && LegsOf(rules, 7) == rules
      && WithStrategy(rules, EntryLeg) == Some(rules[0])
      && WithStrategy(rules, TargetLeg) == Some(rules[1])
      && WithStrategy(rules, StoplossLeg) == Some(rules[2])
      && Upsert(rules, rules[0].(orderId := Some(order))) == Legs(order, None)
      && Upsert(rules, rules[2].(orderId := Some(order))) == Legs(entry, Some(order))
  {
    hide ByChildOrder, LegsOf, WithStrategy, Upsert;
    LegLookUps(entry, order);
    StrategyLookUps(entry);
    LinkUpserts(entry, order);
  }

  lemma StopLinked(entry: int, order: int)
    ensures ByChildOrder(Legs(entry, Some(order)), order) == Some(Legs(entry, Some(order))[2])
  {
  }

  const OPENED := Book(OPEN_ROW, Legs(1, None), [ENTRY_TRADE])
  const TAKEN_OVER := Book(OPEN_ROW, Legs(2, None), [ENTRY_TRADE, SECOND_TRADE])
  const CLOSED := Book(CLOSED_ROW, Legs(2, Some(1)), [ENTRY_TRADE, SECOND_TRADE])

  const FIRST_UPDATE := Update(FIRST, Some(10000))
  const SECOND_UPDATE := Update(SECOND, Some(10100))

  /** The order is linked to the entry leg, and its fill opens the position. */
  lemma FirstUpdate()
    ensures Handle(START, FIRST_UPDATE) == OPENED
  {
    hide InsertAll, ForOrder, WeightedAvgPrice, TotalQuantity, ByChildOrder, LegsOf, WithStrategy, Upsert;
    StoredTrades();
    TradesOfOrder();
    OneTrade(ENTRY_TRADE);
    LookUps(1, 1);
  }

  /** The second entry order takes the leg's link; the entry is already applied. */
  lemma SecondUpdate()
    ensures Handle(OPENED, SECOND_UPDATE) == TAKEN_OVER
  {
    hide InsertAll, ForOrder, WeightedAvgPrice, TotalQuantity, ByChildOrder, LegsOf, WithStrategy, Upsert;
    StoredTrades();
    TradesOfOrder();
    OneTrade(SECOND_TRADE);
    LookUps(1, 2);
    LookUps(2, 2);
  }

  /** The repeated update finds no link and no side: its price is nearer to the stop. */
  lemma RepeatedUpdate()
    ensures Handle(TAKEN_OVER, FIRST_UPDATE) == CLOSED
  {
    hide InsertAll, ForOrder, WeightedAvgPrice, TotalQuantity, ByChildOrder, LegsOf, WithStrategy, Upsert;
    StoredTrades();
    TradesOfOrder();
    OneTrade(ENTRY_TRADE);
    LookUps(2, 1);
    StopLinked(2, 1);
  }

  lemma ThreeEvents(s: State, a: Event, b: Event, c: Event)
    ensures Play(s, [a, b]) == Handle(Handle(s, a), b)
    ensures Play(s, [a, b, c]) == Handle(Handle(Handle(s, a), b), c)
  {
    hide Handle;
    TwoEvents(s, a, b);
    assert [a, b, c][..2] == [a, b];
  }

  lemma RepeatOfTwo(a: Event, b: Event)
    requires a.Update? && b.Update? && a.f != b.f && Brings(a.f)
    ensures WithoutRepeated([a, b, a]) == [a, b]
  {
    assert [a][..0] == [] && [a, b][..1] == [a] && [a, b, a][..2] == [a, b];
    assert Delivered([a]) == [a.f] && Delivered([a, b]) == [a.f, b.f];
    assert WithoutRepeated([a]) == [a];
    assert WithoutRepeated([a, b]) == [a, b];
  }

  /**
   Once a second entry order has taken over the leg's link, the repeated update of the first one, which does
   not say its side, is taken for a stoploss fill: the position is closed, without a new trade.
   */
  lemma DisagreeingRepeatCloses()
    ensures WithoutRepeated([FIRST_UPDATE, SECOND_UPDATE, FIRST_UPDATE]) == [FIRST_UPDATE, SECOND_UPDATE]
    ensures Play(START, [FIRST_UPDATE, SECOND_UPDATE]) == TAKEN_OVER
    ensures Play(START, [FIRST_UPDATE, SECOND_UPDATE, FIRST_UPDATE]) == CLOSED
    ensures TAKEN_OVER.signals[1].status == Active && CLOSED.signals[1].status == StoplossHit
  {
    assert TradesOf(FIRST)[0].quantity > 0;
    RepeatOfTwo(FIRST_UPDATE, SECOND_UPDATE);
    hide Handle, Play, WithoutRepeated;
    ThreeEvents(START, FIRST_UPDATE, SECOND_UPDATE, FIRST_UPDATE);
    FirstUpdate();
    SecondUpdate();
    RepeatedUpdate();
  }

  /** The same through the tracker's own handler. */
  method ReplayThroughHandler() returns (before: Status, after: Status)
    ensures before == Active && after == StoplossHit
  {
    hide Handle, Play, ProcessFilledOrder, Link;
    var t := new OrderTracker.Tracker();
    t.signals, t.rules := map[1 := NEW_ROW], Legs(1, None);
    assert t.State() == START;
    UpdateIsRun(START, FIRST, Some(10000));
    t.HandleOrderUpdate(FIRST, Some(10000), true);
    UpdateIsHandle(START, FIRST, Some(10000));
    FirstUpdate();
    UpdateIsRun(OPENED, SECOND, Some(10100));
    t.HandleOrderUpdate(SECOND, Some(10100), true);
    UpdateIsHandle(OPENED, SECOND, Some(10100));
    SecondUpdate();
    before := t.signals[1].status;
    UpdateIsRun(TAKEN_OVER, FIRST, Some(10000));
    t.HandleOrderUpdate(FIRST, Some(10000), true);
    UpdateIsHandle(TAKEN_OVER, FIRST, Some(10000));
    RepeatedUpdate();
    after := t.signals[1].status;
  }

  lemma UpdateIsHandle(s: State, f: Fill, avg: Option<int>)
    ensures Handle(s, Update(f, avg)) == ProcessFilledOrder(Link(s, f, avg), f)
  {
  }
}
