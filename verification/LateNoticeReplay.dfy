/**
 A late notice at work: the broker's update of a GTT whose target order is filled, delivered twice, the second
 time as expired. The exit is booked and recorded both times.
 */
module LateNoticeReplay {
  import opened Options
  import opened Vwap
  import opened FillRules
  import opened TrackerRuns
  import opened OrderTracker
  import RecordCounts

  const EXIT_TRADE := Trade(3, 13, 10, 12000)
  const EXIT := Fill(3, Some(7), Some(Sell), Some([EXIT_TRADE]))

  const OPEN_ROW := FillRules.Row(Buy, Active, 10000, 0, None, 9000, Some(12000))
  const HIT_ROW := OPEN_ROW.(status := Target1Hit, exit := 12000, pnl := Some(20000))

  /** The payload's target leg: its child order 3 is filled. */
  const TARGET_ITEM := Item(TargetLeg, 12000, Some(3), true, Some(Sell), Some([EXIT_TRADE]))

  function Legs(target: Option<int>): seq<Rule> {
    [Rule(1, 7, EntryLeg, 10000, None), Rule(1, 7, TargetLeg, 12000, target), Rule(1, 7, StoplossLeg, 9000, None)]
  }

  function Book(r: FillRules.Row, rules: seq<Rule>, trades: seq<Trade>, recorded: seq<Record>): State {
    FillRules.State(map[1 := r], rules, trades, recorded)
  }

  const START := Book(OPEN_ROW, Legs(None), [], [])
  const BOOKED_ONCE := Book(HIT_ROW, Legs(Some(3)), [EXIT_TRADE], [Record(1, 20000)])
  const BOOKED_TWICE := Book(HIT_ROW, Legs(Some(3)), [EXIT_TRADE], [Record(1, 20000), Record(1, 20000)])

  lemma AllLegs(target: Option<int>)
    ensures LegsOf(Legs(target), 7) == Legs(target)
  {
    var rules := Legs(target);
    assert rules[1..] == [rules[1], rules[2]] && rules[1..][1..] == [rules[2]] && rules[1..][1..][1..] == [];
    assert LegsOf([rules[2]], 7) == [rules[2]];
    assert LegsOf([rules[1], rules[2]], 7) == [rules[1], rules[2]];
  }

  lemma UpsertLeg(a: Rule, b: Rule, c: Rule, rule: Rule)
    requires SameLeg(a, 7, EntryLeg) && SameLeg(b, 7, TargetLeg) && SameLeg(c, 7, StoplossLeg) && rule.gttId == 7
    ensures Upsert([a, b, c], rule)
         == match rule.strategy
            case EntryLeg => [a.(orderId := rule.orderId), b, c]
            case TargetLeg => [a, b.(orderId := rule.orderId), c]
            case StoplossLeg => [a, b, c.(orderId := rule.orderId)]
  {
    assert Upsert([c], rule) == if rule.strategy == StoplossLeg then [c.(orderId := rule.orderId)] else [c, rule];
    assert [a, b, c][1..] == [b, c] && [b, c][1..] == [c];
  }

  lemma NoticeUnlinks(target: Option<int>)
    ensures UpsertAll(Legs(target), Unlinked(Legs(target))) == Legs(None)
  {
    var rules, none := Legs(target), Legs(None);
    assert rules[1..] == [rules[1], rules[2]] && rules[1..][1..] == [rules[2]] && rules[1..][1..][1..] == [];
    assert Unlinked([rules[2]]) == [none[2]];
    assert Unlinked([rules[1], rules[2]]) == [none[1], none[2]];
    assert Unlinked(rules) == none;
    UpsertLeg(rules[0], rules[1], rules[2], none[0]);
    UpsertLeg(none[0], rules[1], rules[2], none[1]);
    UpsertLeg(none[0], none[1], rules[2], none[2]);
    hide Upsert;
    assert none[1..] == [none[1], none[2]] && none[1..][1..] == [none[2]] && none[1..][1..][1..] == [];
    var one, two := [none[0], rules[1], rules[2]], [none[0], none[1], rules[2]];
    assert Upsert(rules, none[0]) == one && Upsert(one, none[1]) == two && Upsert(two, none[2]) == none;
    assert UpsertAll(two, [none[2]]) == none;
    assert UpsertAll(one, [none[1], none[2]]) == none;
  }

  lemma OneItem(id: int, gttId: int, item: Item)
    ensures UpsertOps(id, gttId, [item]) == [DoUpsert(Rule(id, gttId, item.strategy, item.trigger, item.orderId))]
    ensures item.filled && item.orderId.Some? ==>
      FillOps(gttId, [item]) == [DoFill(Fill(item.orderId.value, Some(gttId), item.side, item.answer))]
  {
    assert [item][..0] == [];
    assert UpsertOps(id, gttId, []) == [] && FillOps(gttId, []) == [];
  }

  lemma ItemOps(s: State)
    requires LegsOf(s.rules, 7) == Legs(None)
    ensures ReconcileOps(s, 7, [TARGET_ITEM]) == [DoUpsert(Rule(1, 7, TargetLeg, 12000, Some(3))), DoFill(EXIT)]
  {
    OneItem(1, 7, TARGET_ITEM);
    hide LegsOf, UpsertOps, FillOps;
  }

  lemma ExitStored(trades: seq<Trade>)
    requires trades == [] || trades == [EXIT_TRADE]
    ensures InsertAll(trades, [EXIT_TRADE]) == [EXIT_TRADE]
  {
    assert [EXIT_TRADE][..0] == [];
    assert InsertAll(trades, []) == trades;
    if trades == [EXIT_TRADE] { assert Seen(trades, 13) by { assert trades[0].tradeId == 13; } }
  }

  lemma ExitOfOrder()
    ensures ForOrder([EXIT_TRADE], 3) == [EXIT_TRADE] && TotalQuantity([EXIT_TRADE]) == 10
  {
    assert [EXIT_TRADE][..0] == [];
  }

  lemma ExitPrice()
    ensures WeightedAvgPrice([EXIT_TRADE]) == Some(12000)
  {
    ExitOfOrder();
    AverageBetween([EXIT_TRADE], 12000, 12000);
    hide TotalValue, RoundHalfEven, TotalQuantity;
  }

  lemma TargetLinked()
    ensures ByChildOrder(Legs(Some(3)), 3) == Some(Legs(Some(3))[1])
  {
    var rules := Legs(Some(3));
    assert rules[..2][1] == rules[1];
  }

  /** The exit fill at a row that has no booked exit. */
  lemma ExitFill(r: FillRules.Row, trades: seq<Trade>, recorded: seq<Record>)
    requires r.action == Buy && r.entry == 10000 && r.stop == 9000 && r.target1 == Some(12000) && !ExitBooked(r.status)
    requires trades == [] || trades == [EXIT_TRADE]
    ensures ProcessFilledOrder(Book(r, Legs(Some(3)), trades, recorded), EXIT)
         == Book(HIT_ROW, Legs(Some(3)), [EXIT_TRADE], recorded + [Record(1, 20000)])
  {
    hide InsertAll, ForOrder, WeightedAvgPrice, TotalQuantity, ByChildOrder, LegsOf, Upsert;
    ExitStored(trades);
    ExitOfOrder();
    ExitPrice();
    TargetLinked();
  }

  lemma TwoOps(s: State, a: Op, b: Op)
    requires Books(s) && Legal(s, [a, b])
    ensures Books(StepRaw(s, a)) && Run(s, [a, b]) == StepRaw(StepRaw(s, a), b)
  {
    StepKeepsBooks(s, a);
    hide StepRaw, Books, Enabled;
    assert [a, b][1..] == [b] && [b][1..] == [];
    assert Run(Step(s, a), [b]) == Step(Step(s, a), b);
  }

  /** What the handler makes of the payload, after the notice. */
  lemma PayloadReconciled(r: FillRules.Row, trades: seq<Trade>, recorded: seq<Record>)
    requires r.action == Buy && r.entry == 10000 && r.stop == 9000 && r.target1 == Some(12000) && !ExitBooked(r.status)
    requires trades == [] || trades == [EXIT_TRADE]
    requires var s := Book(r, Legs(None), trades, recorded); Books(s) && Legal(s, ReconcileOps(s, 7, [TARGET_ITEM]))
    ensures var s := Book(r, Legs(None), trades, recorded);
      Run(s, ReconcileOps(s, 7, [TARGET_ITEM]))
      == Book(HIT_ROW, Legs(Some(3)), [EXIT_TRADE], recorded + [Record(1, 20000)])
  {
    hide Books, Legal, Run, Upsert, ProcessFilledOrder;
    var s, rule := Book(r, Legs(None), trades, recorded), Rule(1, 7, TargetLeg, 12000, Some(3));
    AllLegs(None);
    ItemOps(s);
    TwoOps(s, DoUpsert(rule), DoFill(EXIT));
    UpsertLeg(Legs(None)[0], Legs(None)[1], Legs(None)[2], rule);
    ExitFill(r, trades, recorded);
  }

  lemma NoticeStep(r: FillRules.Row, target: Option<int>, trades: seq<Trade>, recorded: seq<Record>,
                   closes: Option<Status>)
    requires KeysHold(Book(r, Legs(target), trades, recorded))
    ensures LegsOf(Legs(target), 7) == Legs(target)
    ensures StepRaw(Book(r, Legs(target), trades, recorded), DoNotice(7, closes))
         == Book(if closes.None? then r else r.(status := closes.value), Legs(None), trades, recorded)
  {
    hide LegsOf, UpsertAll, Unlinked;
    AllLegs(target);
    NoticeUnlinks(target);
  }

  lemma StatesHold()
    ensures Books(START) && Books(BOOKED_ONCE)
    ensures RecordCounts.HasExit(BOOKED_ONCE, 1) && LateNotice(BOOKED_ONCE, DoNotice(7, Some(Expired)), 1)
  {
    AllLegs(Some(3));
    hide LegsOf;
  }

  lemma HoldsKeys(s: State)
    requires Books(s)
    ensures KeysHold(s)
  {
  }

  /** One update of the GTT whose target order is filled, at a row whose exit is not booked, or no longer. */
  method DeliverUpdate(t: Tracker, r: FillRules.Row, target: Option<int>, trades: seq<Trade>, recorded: seq<Record>,
                       closes: Option<Status>)
    requires t.State() == Book(r, Legs(target), trades, recorded) && Books(t.State())
    requires r.action == Buy && r.entry == 10000 && r.stop == 9000 && r.target1 == Some(12000)
    requires trades == [] || trades == [EXIT_TRADE]
    requires if closes.Some? then closes.value in {Cancelled, Expired} else !ExitBooked(r.status)
    requires r.(exit := 12000, pnl := Some(20000), status := Target1Hit) == HIT_ROW
    modifies t
    ensures t.State() == Book(HIT_ROW, Legs(Some(3)), [EXIT_TRADE], recorded + [Record(1, 20000)]) && Books(t.State())
  {
    hide Books, Legal, Run, StepRaw, ReconcileOps, Legs;
    HoldsKeys(t.State());
    NoticeStep(r, target, trades, recorded, closes);
    LegsThere(target);
    t.HandleGttUpdate(7, closes, [TARGET_ITEM]);
    PayloadReconciled(if closes.None? then r else r.(status := closes.value), trades, recorded);
  }

  lemma LegsThere(target: Option<int>)
    ensures Legs(target) != []
  {
  }

  /** The same update twice, through the tracker's own handler, the second time as expired: two records of one exit. */
  method ReplayThroughHandler() returns (once: seq<Record>, twice: seq<Record>)
    ensures once == [Record(1, 20000)] && twice == [Record(1, 20000), Record(1, 20000)]
  {
    hide Books, Legs;
    StatesHold();
    var t := new Tracker();
    t.signals, t.rules := map[1 := OPEN_ROW], Legs(None);
    assert t.State() == START;
    DeliverUpdate(t, OPEN_ROW, None, [], [], None);
    once := t.recorded;
    assert [] + [Record(1, 20000)] == once;
    DeliverUpdate(t, HIT_ROW, Some(3), [EXIT_TRADE], once, Some(Expired));
    twice := t.recorded;
  }
}
