/**
 From a raw signal to the prices of its GTT: validation, the 1:2 gate on raw prices, the price buffers
 and the payload, and what is left of the 1:2 ratio at the end.

 Prices are hundredths of a point.
 */
module RiskReward {
  import opened Options

  datatype Action = Buy | Sell
  datatype TradeType = BuyAbove | Ranging | Average

  /** A RawSignal. `declared` says that the message already calls the trade AVERAGE. */
  datatype Signal = Signal(action: Action, entryLow: int, entryHigh: Option<int>, average: Option<int>,
                           declared: bool, stoploss: int, targets: seq<int>)

  datatype Adjusted = Adjusted(entryPrice: int, stoploss: int, targets: seq<int>, tradeType: TradeType)

  datatype Trigger = Above | Below | Immediate
  datatype Leg = Leg(trigger: Trigger, price: int)
  datatype Payload = Payload(action: Action, entry: Leg, target: Leg, stoploss: Leg)

  datatype Outcome = Invalid | NoTargets | RatioTooLow | Order(payload: Payload)

  // ----- Validation and gate -----

  function Sign(a: Action): int { if a == Buy then 1 else -1 }

  /** How far `price` is from `origin` in the direction the trade hopes for. */
  function Ahead(a: Action, origin: int, price: int): int { Sign(a) * (price - origin) }

  predicate ValidPrices(s: Signal) {
    !(s.action == Buy && s.entryLow <= s.stoploss) && !(s.action == Sell && s.entryLow >= s.stoploss)
  }

  function Risk(s: Signal): int {
    if s.action == Buy then s.entryLow - s.stoploss else s.stoploss - s.entryLow
  }

  function Reward(s: Signal): int
    requires s.targets != []
  {
    if s.action == Buy then s.targets[0] - s.entryLow else s.entryLow - s.targets[0]
  }

  predicate RatioBlocked(s: Signal)
    requires s.targets != []
  {
    Risk(s) > 0 && Reward(s) < 2 * Risk(s)
  }

  // ----- Buffers -----

  const STOPLOSS_BUFFER := 300

  /** One row of the table: prices in [low, high), where a missing high means no upper end. */
  datatype Tier = Tier(low: int, high: Option<int>, points: int)

  const TIERS := [Tier(10000, Some(20000), 300), Tier(20000, Some(30000), 400),
                  Tier(30000, Some(40000), 500), Tier(40000, None, 500)]

  function TierPoints(tiers: seq<Tier>, price: int): int
    requires tiers != []
  {
    if tiers[0].low <= price && (tiers[0].high.Some? ==> price < tiers[0].high.value) then tiers[0].points
    else if |tiers| == 1 then tiers[0].points
    else TierPoints(tiers[1..], price)
  }

  function TargetBuffer(entry: int): int { TierPoints(TIERS, entry) }

  /** Three points between 100 and 200, four between 200 and 300, five everywhere else, also below 100. */
  lemma TargetBufferIs(entry: int)
    ensures TargetBuffer(entry) ==
      if 10000 <= entry < 20000 then 300 else if 20000 <= entry < 30000 then 400 else 500
  {
    var t3 := [Tier(40000, None, 500)];
    var t2 := [Tier(30000, Some(40000), 500)] + t3;
    var t1 := [Tier(20000, Some(30000), 400)] + t2;
    assert TIERS[1..] == t1 && t1[1..] == t2 && t2[1..] == t3;
    assert TierPoints(t3, entry) == 500;
    assert TierPoints(t2, entry) == 500;
    assert TierPoints(t1, entry) == if 20000 <= entry < 30000 then 400 else 500;
  }

  function AdjustStoploss(s: Signal): int {
    if s.action == Buy then s.stoploss - STOPLOSS_BUFFER else s.stoploss + STOPLOSS_BUFFER
  }

  function AdjustTarget(s: Signal, target: int): int {
    if s.action == Buy then target - TargetBuffer(s.entryLow) else target + TargetBuffer(s.entryLow)
  }

  predicate Truthy(p: Option<int>) { p.Some? && p.value != 0 }

  function DetectTradeType(s: Signal): TradeType {
    if s.declared || Truthy(s.average) then Average
    else if Truthy(s.entryHigh) && s.entryHigh.value != s.entryLow then Ranging
    else BuyAbove
  }

  /** Half of low + high; a tie goes up or down, as the floating-point value has it. */
  function Midpoint(low: int, high: int, up: bool): (m: int)
    ensures low + high - 1 <= 2 * m <= low + high + 1
  {
    (low + high) / 2 + (if up && (low + high) % 2 == 1 then 1 else 0)
  }

  function EntryPrice(s: Signal, up: bool): int {
    if DetectTradeType(s) == Ranging then Midpoint(s.entryLow, s.entryHigh.value, up) else s.entryLow
  }

  function AdjustTargets(s: Signal, targets: seq<int>): seq<int> {
    seq(|targets|, i requires 0 <= i < |targets| => AdjustTarget(s, targets[i]))
  }

  function ApplyBuffer(s: Signal, up: bool): Adjusted {
    Adjusted(EntryPrice(s, up), AdjustStoploss(s), AdjustTargets(s, s.targets), DetectTradeType(s))
  }

  function BuildPayload(a: Action, entry: int, stoploss: int, target: int): Payload {
    Payload(a, Leg(if a == Buy then Above else Below, entry), Leg(Immediate, target), Leg(Immediate, stoploss))
  }

  /** All the price gates on the way from the message to the order. */
  function Process(s: Signal, up: bool): Outcome {
    if !ValidPrices(s) then Invalid
    else if s.targets == [] then NoTargets
    else if RatioBlocked(s) then RatioTooLow
    else
      var adj := ApplyBuffer(s, up);
      Order(BuildPayload(s.action, adj.entryPrice, adj.stoploss, adj.targets[0]))
  }

  // ----- The order in plain numbers -----

  /** A signal with a range: nothing calls it an average trade, and a nonzero high end differs from the low one. */
  predicate HasRange(s: Signal) {
    && !s.declared && (s.average == None || s.average == Some(0))
    && s.entryHigh != None && s.entryHigh != Some(0) && s.entryHigh != Some(s.entryLow)
  }

  /**
   Which signals become orders, and the order they become: the entry triggers from below for BUY and from above for
   SELL, at the low end or, for a range, in its middle; the exits are immediate, the target three to five points nearer
   and the stoploss three points farther than the signal says.
   */
  lemma ProcessOutcome(s: Signal, up: bool)
    ensures match Process(s, up)
      case Invalid => if s.action == Buy then s.stoploss >= s.entryLow else s.stoploss <= s.entryLow
      case NoTargets => s.targets == []
      case RatioTooLow =>
        && s.targets != []
        && if s.action == Buy then s.targets[0] - s.entryLow < 2 * (s.entryLow - s.stoploss)
           else s.entryLow - s.targets[0] < 2 * (s.stoploss - s.entryLow)
      case Order(p) =>
        var points := if 10000 <= s.entryLow < 20000 then 300 else if 20000 <= s.entryLow < 30000 then 400 else 500;
        && s.targets != [] && p.action == s.action
        && p.entry.trigger == (if s.action == Buy then Above else Below)
        && (if HasRange(s) then
              var ends := s.entryLow + s.entryHigh.value;
              if ends % 2 == 0 then 2 * p.entry.price == ends else 2 * p.entry.price in {ends - 1, ends + 1}
            else p.entry.price == s.entryLow)
        && p.target == Leg(Immediate, if s.action == Buy then s.targets[0] - points else s.targets[0] + points)
        && p.stoploss == Leg(Immediate, if s.action == Buy then s.stoploss - 300 else s.stoploss + 300)
  {
    TargetBufferIs(s.entryLow);
    hide TargetBuffer;
  }

  // ----- What the order risks and hopes for -----

  function TargetDistance(p: Payload): int { Ahead(p.action, p.entry.price, p.target.price) }

  function StopDistance(p: Payload): int { Ahead(p.action, p.stoploss.price, p.entry.price) }

  /** How far the entry trigger lies ahead of entry_low. */
  function EntryShift(s: Signal, up: bool): int { Ahead(s.action, s.entryLow, EntryPrice(s, up)) }

  /** A signal becomes an order if and only if its raw prices make at least 1:2. */
  lemma OrderIff(s: Signal, up: bool)
    ensures Process(s, up).Order? <==>
      s.targets != [] && Ahead(s.action, s.stoploss, s.entryLow) > 0
      && Ahead(s.action, s.entryLow, s.targets[0]) >= 2 * Ahead(s.action, s.stoploss, s.entryLow)
  {
  }

  /**
   Exactly what the buffers and the shift of the entry cost: the surplus over 1:2 shrinks by twice the
   stoploss buffer, the target buffer and three times the shift.
   */
  lemma SurplusExact(s: Signal, up: bool)
    requires Process(s, up).Order?
    ensures var p := Process(s, up).payload;
      TargetDistance(p) - 2 * StopDistance(p)
      == Reward(s) - 2 * Risk(s) - 2 * STOPLOSS_BUFFER - TargetBuffer(s.entryLow) - 3 * EntryShift(s, up)
  {
    hide TargetBuffer, EntryPrice;
  }

  /** Without a range the order keeps 1:2 up to eleven points. */
  lemma RatioBound(s: Signal, up: bool)
    requires Process(s, up).Order? && DetectTradeType(s) != Ranging
    ensures var p := Process(s, up).payload;
      TargetDistance(p) >= 2 * StopDistance(p) - 600 - TargetBuffer(s.entryLow) >= 2 * StopDistance(p) - 1100
  {
    SurplusExact(s, up);
    TargetBufferIs(s.entryLow);
    hide TargetBuffer, Process;
  }

  /**
   With a range it also pays one and a half times the range's width, signed by the direction of the trade,
   up to the rounding of the midpoint.
   */
  lemma RangingRatioBound(s: Signal, up: bool)
    requires Process(s, up).Order? && DetectTradeType(s) == Ranging
    ensures var p := Process(s, up).payload;
      2 * TargetDistance(p) >= 4 * StopDistance(p) - 2200 - 3 * Ahead(s.action, s.entryLow, s.entryHigh.value) - 3
  {
    SurplusExact(s, up);
    TargetBufferIs(s.entryLow);
    hide TargetBuffer, Process, Midpoint;
  }

  /** The order itself makes 1:2 exactly when the raw prices had that much to spare. */
  lemma PayloadRatioIff(s: Signal, up: bool)
    requires Process(s, up).Order?
    ensures var p := Process(s, up).payload;
      TargetDistance(p) >= 2 * StopDistance(p) <==>
        Reward(s) >= 2 * Risk(s) + 600 + TargetBuffer(s.entryLow) + 3 * EntryShift(s, up)
  {
    SurplusExact(s, up);
    hide TargetBuffer, Process, EntryPrice;
  }

  /** The bound of RatioBound is attained, for every risk: no better constant is true of the code. */
  lemma RatioBoundIsSharp(risk: nat, up: bool)
    requires risk > 0
    ensures var s := Signal(Buy, 40000, None, None, false, 40000 - risk, [40000 + 2 * risk]);
      && Process(s, up).Order?
      && TargetDistance(Process(s, up).payload) == 2 * StopDistance(Process(s, up).payload) - 1100
  {
    var s := Signal(Buy, 40000, None, None, false, 40000 - risk, [40000 + 2 * risk]);
    SurplusExact(s, up);
    TargetBufferIs(40000);
    hide TargetBuffer;
  }

  /** All targets move by the same amount, towards the entry; the stoploss moves away from it. */
  lemma BuffersShift(s: Signal, up: bool)
    ensures var adj := ApplyBuffer(s, up);
      && |adj.targets| == |s.targets|
      && (forall i :: 0 <= i < |s.targets| ==>
          Ahead(s.action, adj.targets[i], s.targets[i]) == TargetBuffer(s.entryLow))
      && (forall i, j :: 0 <= i < |s.targets| && 0 <= j < |s.targets| ==>
            adj.targets[j] - adj.targets[i] == s.targets[j] - s.targets[i])
      && Ahead(s.action, adj.stoploss, s.stoploss) == STOPLOSS_BUFFER
  {
    hide TargetBuffer;
  }
}
