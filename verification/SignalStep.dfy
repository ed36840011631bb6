/**
 One signal of price_monitor.py: what a tick or a broker reply does to its database row and to
 its entry in the in-memory cache.

 Prices are whole hundredths. A nullable number that the code only tests for truth (targets,
 stoploss, quantity, entry and placement price) is 0 when it is NULL, because the code treats
 NULL and 0 alike.
 */
module SignalStep {
  import opened Options

  datatype Action = Buy | Sell | OtherAction
  datatype Status = Pending | Active | Target1Hit | StoplossHit | Cancelled | Expired | Failed

  /** The columns the monitor never writes. `key` is "" for a NULL instrument key. */
  datatype Signal = Signal(key: string, action: Action, entryLow: int, stoploss: int,
                           target1: int, target2: int, target3: int,
                           quantity: int, placePrice: int)

  datatype Row = Row(sig: Signal, status: Status, entryPrice: int,
                     exitPrice: Option<int>, pnl: Option<int>, hasGtt: bool)

  /** A dictionary of `_signal_cache`: a copy of the row plus `_targets_hit`. */
  datatype Cached = Cached(sig: Signal, status: Status, entryPrice: int, hits: set<nat>)

  datatype Kind =
    | EntryHit | TargetHit(k: nat) | StopHit
    | GttCancelled | GttExpired | GttEntryExecuted | GttExitExecuted

  /** A row of price_events, without its signal id. */
  datatype Note = Note(kind: Kind, price: int, threshold: int)

  datatype Result = Result(row: Row, cached: Option<Cached>, notes: seq<Note>)

  const TARGETS: nat := 3

  function Target(sig: Signal, k: nat): int
    requires k < TARGETS
  {
    if k == 0 then sig.target1 else if k == 1 then sig.target2 else sig.target3
  }

  predicate Defined(sig: Signal, k: nat) { k < TARGETS && Target(sig, k) != 0 }

  function DefinedTargets(sig: Signal): set<nat> {
    set k: nat | k < TARGETS && Defined(sig, k)
  }

  /** In the signal's favour: at or past an entry or target level. */
  predicate Beyond(a: Action, price: int, level: int) {
    (a == Buy && price >= level) || (a == Sell && price <= level)
  }

  /** Against the signal: at or past a stop level. */
  predicate Against(a: Action, price: int, level: int) {
    (a == Buy && price <= level) || (a == Sell && price >= level)
  }

  predicate PastEntry(sig: Signal, p: int) { Beyond(sig.action, p, sig.entryLow) }

  predicate PastStop(sig: Signal, p: int) { sig.stoploss != 0 && Against(sig.action, p, sig.stoploss) }

  predicate PastTarget(sig: Signal, k: nat, p: int) {
    Defined(sig, k) && Beyond(sig.action, p, Target(sig, k))
  }

  function Sign(a: Action): int { if a == Buy then 1 else -1 }

  function EntryBasis(sig: Signal, entryPrice: int): int {
    if entryPrice != 0 then entryPrice else sig.placePrice
  }

  function Pnl(sig: Signal, entry: int, exit: int): int {
    (exit - entry) * sig.quantity * Sign(sig.action)
  }

  function Exited(r: Row, status: Status, price: int, pnl: int): Row {
    r.(status := status, exitPrice := Some(price), pnl := Some(pnl))
  }

  // ----- Ticks -----

  /** Targets among the first n that this tick reaches for the first time. */
  function NewHits(sig: Signal, hits: set<nat>, p: int, n: nat): set<nat> {
    set k: nat | k < n && k !in hits && PastTarget(sig, k, p)
  }

  function HitNotes(sig: Signal, hits: set<nat>, p: int, n: nat): seq<Note>
    requires n <= TARGETS
  {
    if n == 0 then []
    else
      HitNotes(sig, hits, p, n - 1)
      + (if n - 1 !in hits && PastTarget(sig, n - 1, p) then [Note(TargetHit(n - 1), p, Target(sig, n - 1))] else [])
  }

  function OnActiveTick(c: Cached, r: Row, p: int): Result {
    var sig := c.sig;
    var reached := NewHits(sig, c.hits, p, TARGETS);
    var hits := c.hits + reached;
    var gain := Pnl(sig, EntryBasis(sig, c.entryPrice), p);
    var row := if 0 in reached then Exited(r, Target1Hit, p, gain) else r;
    var notes := HitNotes(sig, c.hits, p, TARGETS);
    if DefinedTargets(sig) != {} && DefinedTargets(sig) <= hits then
      Result(row, None, notes)
    else if PastStop(sig, p) then
      Result(Exited(row, StoplossHit, p, gain), None, notes + [Note(StopHit, p, sig.stoploss)])
    else
      Result(row, Some(c.(hits := hits)), notes)
  }

  /** One tick at a positive price, for a signal that is in the cache. */
  function OnTick(c: Cached, r: Row, p: int): Result {
    var sig := c.sig;
    if c.status == Pending && PastEntry(sig, p) then
      var res := OnActiveTick(c.(status := Active, entryPrice := p), r.(status := Active, entryPrice := p), p);
      res.(notes := [Note(EntryHit, p, sig.entryLow)] + res.notes)
    else if c.status == Pending && PastStop(sig, p) then
      Result(Exited(r, StoplossHit, p, 0), None, [Note(StopHit, p, sig.stoploss)])
    else if c.status == Active then
      OnActiveTick(c, r, p)
    else
      Result(r, Some(c), [])
  }

  // ----- Broker replies -----

  datatype Strategy = EntryLeg | TargetLeg | StoplossLeg | OtherLeg
  datatype Leg = Leg(strategy: Strategy, triggered: bool, price: int, triggerPrice: int)
  datatype GttStatus = GttActive | GttCancelledByBroker | GttExpiredByBroker | GttOther
  datatype Reply = Reply(status: GttStatus, legs: seq<Leg>)

  /** What the legs say: entry and exit price (0 when there is none) and the exit's status. */
  datatype Fills = Fills(entry: int, exit: int, reason: Option<Status>)

  function FillPrice(leg: Leg): int {
    if leg.price != 0 then leg.price else leg.triggerPrice
  }

  function ReadLegs(legs: seq<Leg>): Fills {
    if legs == [] then Fills(0, 0, None)
    else
      var f, leg := ReadLegs(legs[..|legs| - 1]), legs[|legs| - 1];
      if !leg.triggered then f
      else match leg.strategy
           case EntryLeg => f.(entry := FillPrice(leg))
           case TargetLeg => f.(exit := FillPrice(leg), reason := Some(Target1Hit))
           case StoplossLeg => f.(exit := FillPrice(leg), reason := Some(StoplossHit))
           case OtherLeg => f
  }

  /** Leg i is the last triggered one of these strategies. */
  predicate LastOf(legs: seq<Leg>, strategies: set<Strategy>, i: nat) {
    && i < |legs| && legs[i].triggered && legs[i].strategy in strategies
    && forall j :: i < j < |legs| ==> !(legs[j].triggered && legs[j].strategy in strategies)
  }

  /** The entry is that of the last triggered ENTRY leg: its price, or its trigger price where it has none. */
  ghost predicate EntrySays(legs: seq<Leg>, entry: int) {
    && (forall i: nat :: LastOf(legs, {EntryLeg}, i) ==>
          entry == if legs[i].price != 0 then legs[i].price else legs[i].triggerPrice)
    && ((forall i: nat :: !LastOf(legs, {EntryLeg}, i)) ==> entry == 0)
  }

  /** Exit and reason are those of the last triggered TARGET or STOPLOSS leg. */
  ghost predicate ExitSays(legs: seq<Leg>, exit: int, reason: Option<Status>) {
    && (forall i: nat :: LastOf(legs, {TargetLeg, StoplossLeg}, i) ==>
          && exit == (if legs[i].price != 0 then legs[i].price else legs[i].triggerPrice)
          && reason == Some(if legs[i].strategy == TargetLeg then Target1Hit else StoplossHit))
    && ((forall i: nat :: !LastOf(legs, {TargetLeg, StoplossLeg}, i)) ==> exit == 0 && reason == None)
  }

  ghost predicate LegsSay(legs: seq<Leg>, f: Fills) { EntrySays(legs, f.entry) && ExitSays(legs, f.exit, f.reason) }

  /** One more leg is the last one, or changes nothing. */
  lemma LastOfMore(legs: seq<Leg>, strategies: set<Strategy>)
    requires legs != []
    ensures var n := |legs| - 1;
      if legs[n].triggered && legs[n].strategy in strategies
      then LastOf(legs, strategies, n) && forall i: nat :: LastOf(legs, strategies, i) ==> i == n
      else forall i: nat ::
             && (LastOf(legs, strategies, i) <==> LastOf(legs[..n], strategies, i))
             && (LastOf(legs, strategies, i) ==> i < n && legs[..n][i] == legs[i])
  {
  }

  lemma {:induction false} EntryRead(legs: seq<Leg>)
    ensures EntrySays(legs, ReadLegs(legs).entry)
  {
    if legs != [] {
      EntryRead(legs[..|legs| - 1]);
      LastOfMore(legs, {EntryLeg});
    }
  }

  lemma {:induction false} ExitRead(legs: seq<Leg>)
    ensures ExitSays(legs, ReadLegs(legs).exit, ReadLegs(legs).reason)
  {
    if legs != [] {
      ExitRead(legs[..|legs| - 1]);
      LastOfMore(legs, {TargetLeg, StoplossLeg});
    }
  }

  lemma LegsRead(legs: seq<Leg>)
    ensures LegsSay(legs, ReadLegs(legs))
  {
    EntryRead(legs);
    ExitRead(legs);
    hide ReadLegs;
  }

  predicate Watchable(s: Status) { s in {Pending, Active} }

  predicate Terminal(s: Status) { s in {Cancelled, Expired, Target1Hit, StoplossHit} }

  function OnReply(c: Option<Cached>, r: Row, reply: Reply): Result {
    match reply.status
    case GttActive => Result(r, c, [])
    case GttCancelledByBroker =>
      if Terminal(r.status) then Result(r, c, [])
      else Result(Exited(r, Cancelled, 0, 0), None, [Note(GttCancelled, 0, 0)])
    case GttExpiredByBroker =>
      if Terminal(r.status) then Result(r, c, [])
      else Result(Exited(r, Expired, 0, 0), None, [Note(GttExpired, 0, 0)])
    case GttOther =>
      var f := ReadLegs(reply.legs);
      var entered := f.entry != 0 && r.status == Pending;
      var row := if entered then r.(status := Active, entryPrice := f.entry) else r;
      var cached := if entered && c.Some? then Some(c.value.(status := Active, entryPrice := f.entry)) else c;
      var notes := if entered then [Note(GttEntryExecuted, f.entry, r.sig.entryLow)] else [];
      if f.exit != 0 && f.reason.Some? && !Terminal(r.status) then
        var entry := if f.entry != 0 then f.entry else EntryBasis(r.sig, r.entryPrice);
        Result(Exited(row, f.reason.value, f.exit, Pnl(r.sig, entry, f.exit)), None,
               notes + [Note(GttExitExecuted, f.exit, 0)])
      else
        Result(row, cached, notes)
  }

  // ----- The two copies of a signal -----

  /** How a cached signal and its row agree between steps. */
  predicate Agree(c: Cached, r: Row) {
    && c.sig == r.sig
    && c.entryPrice == r.entryPrice
    && c.hits <= DefinedTargets(c.sig)
    && (c.status == Pending ==> c.hits == {})
    && ((c.status == r.status && Watchable(c.status) && 0 !in c.hits)
        || (c.status == Active && r.status == Target1Hit && 0 in c.hits))
  }

  function FreshCached(r: Row): Cached { Cached(r.sig, r.status, r.entryPrice, {}) }

  lemma TickKeepsAgreement(c: Cached, r: Row, p: int)
    requires Agree(c, r)
    ensures var res := OnTick(c, r, p);
      && res.row.sig == r.sig && res.row.hasGtt == r.hasGtt
      && (res.cached.Some? ==> Agree(res.cached.value, res.row))
      && (res.cached.None? ==> Terminal(res.row.status) || !Defined(c.sig, 0))
      && (Watchable(r.status) || !Watchable(res.row.status))
  {
  }

  lemma ReplyKeepsAgreement(c: Option<Cached>, r: Row, reply: Reply)
    requires c.Some? ==> Agree(c.value, r)
    ensures var res := OnReply(c, r, reply);
      && res.row.sig == r.sig && res.row.hasGtt == r.hasGtt
      && (res.cached.Some? ==> c.Some? && Agree(res.cached.value, res.row))
      && (Terminal(r.status) ==> res == Result(r, c, []))
      && (res.row.status == Pending ==> r.status == Pending)
  {
    LegReasons(reply.legs);
  }

  lemma {:induction false} LegReasons(legs: seq<Leg>)
    ensures var f := ReadLegs(legs); f.reason.Some? ==> f.reason.value in {Target1Hit, StoplossHit}
  {
    if legs != [] {
      LegReasons(legs[..|legs| - 1]);
    }
  }
}
