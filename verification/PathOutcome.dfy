/**
 The outcome of a price path in plain prices: what the row of a BUY or SELL signal says after the ticks that
 price_monitor.py saw, in none of the model's own words for levels, hits and P&L.
 */
module PathOutcome {
  import opened Options
  import opened SignalStep
  import opened PathReading

  /** At or past a level in the signal's favour. */
  predicate Reaches(sig: Signal, level: int, p: int) { if sig.action == Buy then p >= level else p <= level }

  /** At or past its stoploss. */
  predicate Stops(sig: Signal, p: int) {
    sig.stoploss != 0 && if sig.action == Buy then p <= sig.stoploss else p >= sig.stoploss
  }

  /** Tick i is the first from e on that is at the level. */
  predicate FirstAt(sig: Signal, level: int, ps: seq<int>, e: nat, i: nat) {
    e <= i < |ps| && Reaches(sig, level, ps[i]) && forall j :: e <= j < i ==> !Reaches(sig, level, ps[j])
  }

  /** The target is given and no tick from e to i was at it. */
  predicate Open(sig: Signal, target: int, ps: seq<int>, e: nat, i: nat)
    requires i < |ps|
  {
    target != 0 && forall j :: e <= j <= i ==> !Reaches(sig, target, ps[j])
  }

  /** Tick i is the first from e on at the stoploss, and a target is open still, or none is given. */
  predicate StoppedAt(sig: Signal, ps: seq<int>, e: nat, i: nat) {
    && e <= i < |ps| && Stops(sig, ps[i]) && (forall j :: e <= j < i ==> !Stops(sig, ps[j]))
    && ((sig.target1 == 0 && sig.target2 == 0 && sig.target3 == 0)
        || Open(sig, sig.target1, ps, e, i) || Open(sig, sig.target2, ps, e, i) || Open(sig, sig.target3, ps, e, i))
  }

  /** The row after the ticks of a path that begins when the signal is cached. */
  function RowAfter(r: Row, ps: seq<int>): Row { TickAll(Result(r, Some(FreshCached(r)), []), ps).row }

  /** The row is closed at tick i: bought at the entry and sold at the tick, or the other way round. */
  predicate ClosedAt(row: Row, status: Status, price: int) {
    var basis := if row.entryPrice != 0 then row.entryPrice else row.sig.placePrice;
    && row.status == status && row.exitPrice == Some(price)
    && row.pnl == Some(if row.sig.action == Buy then row.sig.quantity * price - row.sig.quantity * basis
                       else row.sig.quantity * basis - row.sig.quantity * price)
  }

  /**
   The row of a signal that is in the market from tick e on: closed at the stoploss where a target was open still;
   otherwise at the first target, where the price came there; otherwise ACTIVE.
   */
  ghost predicate Outcome(r: Row, ps: seq<int>, e: nat, entry: int, row: Row) {
    var sig := r.sig;
    && row.sig == sig && row.hasGtt == r.hasGtt && row.entryPrice == entry
    && (forall i: nat :: StoppedAt(sig, ps, e, i) ==> ClosedAt(row, StoplossHit, ps[i]))
    && ((forall j: nat :: !StoppedAt(sig, ps, e, j)) ==>
          && (forall i: nat :: sig.target1 != 0 && FirstAt(sig, sig.target1, ps, e, i) ==>
                ClosedAt(row, Target1Hit, ps[i]))
          && ((forall i: nat :: !(sig.target1 != 0 && FirstAt(sig, sig.target1, ps, e, i))) ==>
                row.status == Active && row.exitPrice == r.exitPrice && row.pnl == r.pnl))
  }

  // ----- The levels -----

  lemma LevelsAre(sig: Signal, p: int)
    requires sig.action != OtherAction
    ensures Past(sig, AtEntry, p) <==> Reaches(sig, sig.entryLow, p)
    ensures Past(sig, AtStop, p) <==> Stops(sig, p)
    ensures Past(sig, AtTarget(0), p) <==> sig.target1 != 0 && Reaches(sig, sig.target1, p)
    ensures Past(sig, AtTarget(1), p) <==> sig.target2 != 0 && Reaches(sig, sig.target2, p)
    ensures Past(sig, AtTarget(2), p) <==> sig.target3 != 0 && Reaches(sig, sig.target3, p)
  {
  }

  lemma FirstIs(sig: Signal, level: Level, ps: seq<int>, e: nat, i: nat)
    requires e <= i < |ps| && Past(sig, level, ps[i]) && forall j :: e <= j < i ==> !Past(sig, level, ps[j])
    ensures First(sig, level, ps, e) == i
  {
    hide Past;
    assert !(First(sig, level, ps, e) < i);
  }

  lemma GainIs(sig: Signal, entry: int, exit: int)
    ensures Pnl(sig, entry, exit)
         == if sig.action == Buy then sig.quantity * exit - sig.quantity * entry
            else sig.quantity * entry - sig.quantity * exit
  {
    assert Pnl(sig, entry, exit) == (exit - entry) * sig.quantity * Sign(sig.action);
  }

  /** A stop that counts is one before the tick that completes the targets. */
  lemma StoppedIs(w: Watch, ps: seq<int>, i: nat)
    requires w.sig.action != OtherAction && EntryTick(w, ps) < |ps|
    ensures StoppedAt(w.sig, ps, EntryTick(w, ps), i) <==> Stopped(w, ps) && i == StopTick(w, ps)
  {
    hide First, DoneTick, Past, Reaches, Stops;
    var sig, e, s := w.sig, EntryTick(w, ps), StopTick(w, ps);
    forall j | e <= j < |ps| ensures Past(sig, AtStop, ps[j]) <==> Stops(sig, ps[j]) { LevelsAre(sig, ps[j]); }
    if StoppedAt(sig, ps, e, i) { FirstIs(sig, AtStop, ps, e, i); }
    if s < |ps| {
      DoneTickMeaning(w, ps, s);
      OpenIs(w, ps, s);
    }
  }

  /** Some target is open at tick i, or none is given, exactly until the done tick. */
  lemma OpenIs(w: Watch, ps: seq<int>, i: nat)
    requires w.sig.action != OtherAction && EntryTick(w, ps) <= i < |ps|
    ensures var sig, e := w.sig, EntryTick(w, ps);
      (DefinedTargets(sig) != {} && forall k :: k in DefinedTargets(sig) ==> HitTick(w, ps, k) <= i) <==>
        !((sig.target1 == 0 && sig.target2 == 0 && sig.target3 == 0)
          || Open(sig, sig.target1, ps, e, i) || Open(sig, sig.target2, ps, e, i) || Open(sig, sig.target3, ps, e, i))
  {
    hide First, Past, Reaches, EntryTick;
    var sig, e := w.sig, EntryTick(w, ps);
    forall j | 0 <= j < |ps|
      ensures Past(sig, AtTarget(0), ps[j]) <==> sig.target1 != 0 && Reaches(sig, sig.target1, ps[j])
      ensures Past(sig, AtTarget(1), ps[j]) <==> sig.target2 != 0 && Reaches(sig, sig.target2, ps[j])
      ensures Past(sig, AtTarget(2), ps[j]) <==> sig.target3 != 0 && Reaches(sig, sig.target3, ps[j])
    {
      LevelsAre(sig, ps[j]);
    }
    DefinedAre(sig);
  }

  lemma DefinedAre(sig: Signal)
    ensures 0 in DefinedTargets(sig) <==> sig.target1 != 0
    ensures 1 in DefinedTargets(sig) <==> sig.target2 != 0
    ensures 2 in DefinedTargets(sig) <==> sig.target3 != 0
    ensures forall k :: k in DefinedTargets(sig) ==> k in {0, 1, 2}
  {
  }

  lemma TargetIs(w: Watch, ps: seq<int>, i: nat)
    requires w.sig.action != OtherAction && EntryTick(w, ps) < |ps|
    ensures w.sig.target1 != 0 && FirstAt(w.sig, w.sig.target1, ps, EntryTick(w, ps), i) <==>
      Defined(w.sig, 0) && i == HitTick(w, ps, 0) && i < |ps|
  {
    hide First, Past, Reaches;
    var sig, e := w.sig, EntryTick(w, ps);
    forall j | e <= j < |ps|
      ensures Past(sig, AtTarget(0), ps[j]) <==> sig.target1 != 0 && Reaches(sig, sig.target1, ps[j])
    {
      LevelsAre(sig, ps[j]);
    }
    if sig.target1 != 0 && FirstAt(sig, sig.target1, ps, e, i) { FirstIs(sig, AtTarget(0), ps, e, i); }
  }

  lemma Booked(r: Row, status: Status, entry: int, price: int)
    ensures var entered := Entered(r, entry);
      var row := Exited(entered, status, price, Pnl(r.sig, EntryBasis(r.sig, entered.entryPrice), price));
      row.sig == r.sig && row.hasGtt == r.hasGtt && ClosedAt(row, status, price)
  {
    GainIs(r.sig, EntryBasis(r.sig, Entered(r, entry).entryPrice), price);
    hide Pnl;
  }

  /** What the reading of the path says of a row in the market. */
  lemma MarketRow(r: Row, ps: seq<int>)
    requires Watchable(r.status)
    requires var w := WatchOf(r); !StoppedFirst(w, ps) && EntryTick(w, ps) < |ps|
    ensures var w, row, h := WatchOf(r), ReadRow(r, ps), HitTick(WatchOf(r), ps, 0);
      && row.sig == r.sig && row.hasGtt == r.hasGtt && row.entryPrice == EntryPrice(w, ps)
      && (Stopped(w, ps) ==> ClosedAt(row, StoplossHit, ps[StopTick(w, ps)]))
      && (!Stopped(w, ps) && Defined(r.sig, 0) && h < |ps| ==> ClosedAt(row, Target1Hit, ps[h]))
      && (!Stopped(w, ps) && !(Defined(r.sig, 0) && h < |ps|) ==>
            row.status == Active && row.exitPrice == r.exitPrice && row.pnl == r.pnl)
  {
    hide First, Pnl, EntryBasis, ClosedAt, DoneTick, EntryTick;
    var w := WatchOf(r);
    if Stopped(w, ps) {
      Booked(r, StoplossHit, EntryPrice(w, ps), ps[StopTick(w, ps)]);
    } else if Defined(r.sig, 0) && HitTick(w, ps, 0) < |ps| {
      Booked(r, Target1Hit, EntryPrice(w, ps), ps[HitTick(w, ps, 0)]);
    }
  }

  lemma InTheMarket(r: Row, ps: seq<int>)
    requires Watchable(r.status) && r.sig.action != OtherAction
    requires var w := WatchOf(r); !StoppedFirst(w, ps) && EntryTick(w, ps) < |ps|
    ensures var w := WatchOf(r); Outcome(r, ps, EntryTick(w, ps), EntryPrice(w, ps), RowAfter(r, ps))
  {
    hide StoppedAt, Stopped, ClosedAt, FirstAt, ReadRow, HitTick, StopTick, EntryTick, EntryPrice;
    hide StoppedFirst, TickAll;
    var w, sig := WatchOf(r), r.sig;
    var e := EntryTick(w, ps);
    TicksReadPath(r, ps);
    assert RowAfter(r, ps) == ReadRow(r, ps);
    MarketRow(r, ps);
    forall i: nat ensures StoppedAt(sig, ps, e, i) <==> Stopped(w, ps) && i == StopTick(w, ps) { StoppedIs(w, ps, i); }
    forall i: nat
      ensures sig.target1 != 0 && FirstAt(sig, sig.target1, ps, e, i) <==>
        Defined(sig, 0) && i == HitTick(w, ps, 0) && i < |ps|
    {
      TargetIs(w, ps, i);
    }
    assert Stopped(w, ps) ==> StoppedAt(sig, ps, e, StopTick(w, ps));
    assert Defined(sig, 0) && HitTick(w, ps, 0) < |ps| ==> FirstAt(sig, sig.target1, ps, e, HitTick(w, ps, 0));
  }

  // ----- The two starts -----

  /** The tick leaves a waiting signal waiting. */
  predicate Waits(sig: Signal, p: int) { !Reaches(sig, sig.entryLow, p) && !Stops(sig, p) }

  /**
   A PENDING signal, by its first tick that is at the entry or at the stoploss: with no such tick its row stays as it
   is; where that tick is at the stoploss only, it is closed flat; where it is at the entry, it is in the market.
   */
  lemma PendingOutcome(r: Row, ps: seq<int>, i: nat)
    requires r.status == Pending && r.sig.action != OtherAction
    requires i <= |ps| && forall j :: 0 <= j < i ==> Waits(r.sig, ps[j])
    ensures i == |ps| ==> RowAfter(r, ps) == r
    ensures i < |ps| && Stops(r.sig, ps[i]) && !Reaches(r.sig, r.sig.entryLow, ps[i]) ==>
      RowAfter(r, ps) == r.(status := StoplossHit, exitPrice := Some(ps[i]), pnl := Some(0))
    ensures i < |ps| && Reaches(r.sig, r.sig.entryLow, ps[i]) ==> Outcome(r, ps, i, ps[i], RowAfter(r, ps))
  {
    hide First, Past, Reaches, Stops, Pnl, Outcome, EndTick, Stopped, HitTick;
    var sig, w := r.sig, WatchOf(r);
    TicksReadPath(r, ps);
    forall j | 0 <= j < |ps|
      ensures Past(sig, AtEntry, ps[j]) <==> Reaches(sig, sig.entryLow, ps[j])
      ensures Past(sig, AtStop, ps[j]) <==> Stops(sig, ps[j])
    {
      LevelsAre(sig, ps[j]);
    }
    assert First(sig, AtEntry, ps, 0) >= i && First(sig, AtStop, ps, 0) >= i;
    if i < |ps| && Reaches(sig, sig.entryLow, ps[i]) {
      FirstIs(sig, AtEntry, ps, 0, i);
      InTheMarket(r, ps);
    } else if i < |ps| && Stops(sig, ps[i]) {
      FirstIs(sig, AtStop, ps, 0, i);
      assert First(sig, AtEntry, ps, 0) > i;
    }
  }

  /** An ACTIVE signal is in the market from the first tick on, at the entry price of its row. */
  lemma ActiveOutcome(r: Row, ps: seq<int>)
    requires r.status == Active && r.sig.action != OtherAction
    ensures Outcome(r, ps, 0, r.entryPrice, RowAfter(r, ps))
  {
    if ps != [] { InTheMarket(r, ps); }
  }

  lemma OtherTick(r: Row, p: int)
    requires Watchable(r.status) && r.sig.action == OtherAction
    ensures OnTick(FreshCached(r), r, p) == Result(r, Some(FreshCached(r)), [])
  {
    var sig := r.sig;
    assert forall k: nat :: !PastTarget(sig, k, p);
    assert HitNotes(sig, {}, p, 0) == [] && HitNotes(sig, {}, p, 1) == [] && HitNotes(sig, {}, p, 2) == [];
    assert NewHits(sig, {}, p, TARGETS) == {} && {} + NewHits(sig, {}, p, TARGETS) == {};
    if k :| k in DefinedTargets(sig) { assert !(DefinedTargets(sig) <= {}); }
  }

  /** A row whose action is neither BUY nor SELL is never touched. */
  lemma {:induction false} OtherOutcome(r: Row, ps: seq<int>)
    requires Watchable(r.status) && r.sig.action == OtherAction
    ensures TickAll(Result(r, Some(FreshCached(r)), []), ps) == Result(r, Some(FreshCached(r)), [])
  {
    if ps != [] {
      OtherOutcome(r, ps[..|ps| - 1]);
      OtherTick(r, ps[|ps| - 1]);
    }
  }
}
