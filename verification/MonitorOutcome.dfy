/**
 What price_monitor.py writes, in plain numbers and over whole runs: the rows and the P&L that ticks and broker
 replies book, and the events they log.
 */
module MonitorOutcome {
  import opened Options
  import opened SignalStep
  import opened MonitorMachine
  import PathReading
  import PathOutcome
  import MonitorRuns

  // ----- Ticks -----

  /** Without a rebuild and a reply for the signal in between, its row is that of the path of the ticks. */
  lemma RunOutcome(m: State, ops: seq<Op>, id: int)
    requires Coherent(m) && Legal(m, ops)
    requires id in m.cache && m.cache[id].hits == {}
    requires forall i :: 0 <= i < |ops| ==> !ops[i].DoRebuild? && !(ops[i].DoReconcile? && ops[i].id == id)
    ensures id in m.rows && id in Run(m, ops).rows
    ensures Run(m, ops).rows[id] == PathOutcome.RowAfter(m.rows[id], MonitorRuns.TicksOn(ops, m.rows[id].sig.key))
  {
    MonitorRuns.MonitorReadsPath(m, ops, id);
    PathReading.TicksReadPath(m.rows[id], MonitorRuns.TicksOn(ops, m.rows[id].sig.key));
  }

  /** A rebuild watches exactly the PENDING and ACTIVE rows with an instrument, each with no target reached. */
  lemma RebuildWatches(m: State, order: seq<int>, id: int)
    requires Coherent(m) && Enumerates(m.rows, order)
    ensures var cache := Rebuild(m, order).cache;
      && (id in cache <==> id in m.rows && m.rows[id].status in {Pending, Active} && m.rows[id].sig.key != "")
      && (id in cache ==> var r := m.rows[id]; cache[id] == Cached(r.sig, r.status, r.entryPrice, {}))
  {
  }

  /** From its insert on: a placed signal is PENDING and watched from the next rebuild on. */
  lemma PlacedOutcome(m: State, id: int, sig: Signal, hasGtt: bool, order: seq<int>, ops: seq<Op>)
    requires Coherent(m) && Legal(m, [DoInsert(id, sig, true, hasGtt), DoRebuild(order)] + ops) && sig.key != ""
    requires forall i :: 0 <= i < |ops| ==> !ops[i].DoRebuild? && !(ops[i].DoReconcile? && ops[i].id == id)
    ensures var end := Run(m, [DoInsert(id, sig, true, hasGtt), DoRebuild(order)] + ops);
      && id in end.rows
      && end.rows[id]
         == PathOutcome.RowAfter(Row(sig, Pending, 0, None, None, hasGtt), MonitorRuns.TicksOn(ops, sig.key))
  {
    hide StepRaw, Coherent, Enumerates;
    var a, b := DoInsert(id, sig, true, hasGtt), DoRebuild(order);
    var all := [a, b] + ops;
    assert all[0] == a && all[1..] == [b] + ops && all[1..][0] == b && all[1..][1..] == ops;
    var m1 := Step(m, a);
    var m2 := Step(m1, b);
    Inserted(m, id, sig, true, hasGtt);
    RebuildWatches(m1, order, id);
    assert m2 == Rebuild(m1, order) by { Rebuilt(m1, order); }
    RunOutcome(m2, ops, id);
  }

  lemma Inserted(m: State, id: int, sig: Signal, placed: bool, hasGtt: bool)
    requires Coherent(m) && id !in m.rows
    ensures Step(m, DoInsert(id, sig, placed, hasGtt))
         == m.(rows := m.rows[id := Row(sig, if placed then Pending else Failed, 0, None, None, hasGtt)])
  {
  }

  lemma Rebuilt(m: State, order: seq<int>)
    requires Coherent(m) && Enumerates(m.rows, order)
    ensures Step(m, DoRebuild(order)) == Rebuild(m, order)
  {
  }

  /** A signal whose order was not placed stays as it was inserted, whatever happens. */
  lemma FailedStays(m: State, id: int, sig: Signal, hasGtt: bool, ops: seq<Op>)
    requires Coherent(m) && Legal(m, [DoInsert(id, sig, false, hasGtt)] + ops)
    ensures ViewOf(Run(m, [DoInsert(id, sig, false, hasGtt)] + ops), id)
         == Some(Result(Row(sig, Failed, 0, None, None, hasGtt), None, []))
  {
    hide StepRaw;
    var a := DoInsert(id, sig, false, hasGtt);
    assert ([a] + ops)[0] == a && ([a] + ops)[1..] == ops;
    Inserted(m, id, sig, false, hasGtt);
    NoNotes(m.log, id);
    MonitorRuns.ClosedRowFrozen(Step(m, a), ops, id);
  }

  // ----- Broker replies -----

  /** The legs say one thing only. */
  lemma LegsSayOnce(legs: seq<Leg>, f: Fills)
    requires LegsSay(legs, f)
    ensures f == ReadLegs(legs)
  {
    LegsRead(legs);
    hide LastOf, ReadLegs;
    var g := ReadLegs(legs);
    if i: nat :| LastOf(legs, {EntryLeg}, i) { assert f.entry == g.entry; }
    if i: nat :| LastOf(legs, {TargetLeg, StoplossLeg}, i) { assert f.exit == g.exit && f.reason == g.reason; }
  }

  /** The row after a reply, from its statuses and from what its legs say. */
  lemma ReplyOutcome(c: Option<Cached>, r: Row, reply: Reply, f: Fills)
    requires LegsSay(reply.legs, f)
    ensures var row, cached := OnReply(c, r, reply).row, OnReply(c, r, reply).cached;
      var final := r.status in {Cancelled, Expired, Target1Hit, StoplossHit};
      match reply.status
      case GttActive => row == r && cached == c
      case GttCancelledByBroker =>
        row == if final then r else r.(status := Cancelled, exitPrice := Some(0), pnl := Some(0))
      case GttExpiredByBroker =>
        row == if final then r else r.(status := Expired, exitPrice := Some(0), pnl := Some(0))
      case GttOther =>
        var entered := if f.entry != 0 && r.status == Pending then f.entry else r.entryPrice;
        var basis := if f.entry != 0 then f.entry else if r.entryPrice != 0 then r.entryPrice else r.sig.placePrice;
        if f.exit != 0 && f.reason.Some? && !final then
          && row == r.(status := f.reason.value, entryPrice := entered, exitPrice := Some(f.exit),
                       pnl := Some(if r.sig.action == Buy then r.sig.quantity * f.exit - r.sig.quantity * basis
                                   else r.sig.quantity * basis - r.sig.quantity * f.exit))
          && cached.None?
        else if f.entry != 0 && r.status == Pending then row == r.(status := Active, entryPrice := f.entry)
        else row == r
  {
    LegsSayOnce(reply.legs, f);
    hide LegsSay, ReadLegs, Pnl;
    var basis := if f.entry != 0 then f.entry else if r.entryPrice != 0 then r.entryPrice else r.sig.placePrice;
    PathOutcome.GainIs(r.sig, basis, f.exit);
  }

  // ----- The booked P&L over runs -----

  /** A closed row with an entry price has the P&L of exactly that trade; a PENDING row has no entry price. */
  predicate PnlExact(r: Row) {
    && (r.status in {Target1Hit, StoplossHit} && r.entryPrice != 0 ==>
          && r.exitPrice.Some?
          && r.pnl == Some(if r.sig.action == Buy
                           then r.sig.quantity * r.exitPrice.value - r.sig.quantity * r.entryPrice
                           else r.sig.quantity * r.entryPrice - r.sig.quantity * r.exitPrice.value))
    && (r.status == Pending ==> r.entryPrice == 0)
  }

  /** The reply closes the row on an entry price of its own, other than the one the row was entered at. */
  predicate Reprices(r: Row, reply: Reply) {
    var f := ReadLegs(reply.legs);
    && reply.status == GttOther && f.exit != 0 && f.reason.Some?
    && r.status !in {Pending, Cancelled, Expired, Target1Hit, StoplossHit}
    && f.entry != 0 && r.entryPrice != 0 && f.entry != r.entryPrice && r.sig.quantity != 0
  }

  lemma TickKeepsPnl(c: Cached, r: Row, p: int)
    requires Agree(c, r) && PnlExact(r) && p > 0
    ensures PnlExact(OnTick(c, r, p).row)
  {
    hide Pnl, HitNotes, NewHits, PastEntry, PastStop, DefinedTargets;
    PathOutcome.GainIs(r.sig, p, p);
    PathOutcome.GainIs(r.sig, c.entryPrice, p);
  }

  lemma PnlDiffers(sig: Signal, a: int, b: int, exit: int)
    ensures Pnl(sig, a, exit) == Pnl(sig, b, exit) <==> a == b || sig.quantity == 0
  {
    PathOutcome.GainIs(sig, a, exit);
    PathOutcome.GainIs(sig, b, exit);
    hide Pnl;
    assert sig.quantity * a - sig.quantity * b == sig.quantity * (a - b);
    if a != b && sig.quantity != 0 { assert sig.quantity * (a - b) != 0; }
  }

  /** A reply leaves the booked P&L exact if and only if it does not reprice the trade. */
  lemma ReplyPnlIff(c: Option<Cached>, r: Row, reply: Reply)
    requires PnlExact(r)
    ensures PnlExact(OnReply(c, r, reply).row) <==> !Reprices(r, reply)
  {
    var f := ReadLegs(reply.legs);
    LegReasons(reply.legs);
    PathOutcome.GainIs(r.sig, f.entry, f.exit);
    PathOutcome.GainIs(r.sig, r.entryPrice, f.exit);
    PnlDiffers(r.sig, f.entry, r.entryPrice, f.exit);
    hide Pnl, ReadLegs;
  }

  predicate RepricedBy(m: State, op: Op, id: int) {
    op.DoReconcile? && op.id == id && id in m.rows && Reprices(m.rows[id], op.reply)
  }

  function RepricedReplies(m: State, ops: seq<Op>, id: int): nat
    requires Coherent(m) && Legal(m, ops)
    decreases |ops|
  {
    if ops == [] then 0
    else (if RepricedBy(m, ops[0], id) then 1 else 0) + RepricedReplies(Step(m, ops[0]), ops[1..], id)
  }

  lemma StepKeepsPnl(m: State, op: Op, id: int)
    requires Coherent(m) && Enabled(m, op) && id in m.rows && PnlExact(m.rows[id]) && !RepricedBy(m, op, id)
    ensures id in Step(m, op).rows && PnlExact(Step(m, op).rows[id])
  {
    hide OnTick, OnReply, PnlExact, Reprices, Agree;
    StepProjects(m, op, id);
    match op
    case DoTick(key, p) => if id in m.cache && p > 0 { TickKeepsPnl(m.cache[id], m.rows[id], p); }
    case DoRebuild(order) =>
    case DoReconcile(i, reply) => if i == id { ReplyPnlIff(CachedOf(m, id), m.rows[id], reply); }
    case DoInsert(_, _, _, _) =>
  }

  /**
   In every run, with any ticks, rebuilds and replies none of which reprices the trade, the P&L of a row closed at its
   target or its stoploss is quantity times exit price less quantity times entry price, for SELL the other way round.
   */
  lemma {:induction false} BookedPnl(m: State, ops: seq<Op>, id: int)
    requires Coherent(m) && Legal(m, ops) && id in m.rows && PnlExact(m.rows[id])
    requires RepricedReplies(m, ops, id) == 0
    ensures id in Run(m, ops).rows && PnlExact(Run(m, ops).rows[id])
    decreases |ops|
  {
    hide PnlExact, Coherent, RepricedBy;
    if ops != [] {
      StepKeepsPnl(m, ops[0], id);
      BookedPnl(Step(m, ops[0]), ops[1..], id);
    }
  }

  // ----- The logged events -----

  /** The event names the level that was crossed, and the price did cross it. */
  predicate Told(sig: Signal, note: Note) {
    var bought := sig.action == Buy;
    match note.kind
    case EntryHit => note.threshold == sig.entryLow && Crosses(bought, note.price, sig.entryLow)
    case TargetHit(k) =>
      && k < 3 && note.threshold == (if k == 0 then sig.target1 else if k == 1 then sig.target2 else sig.target3)
      && note.threshold != 0 && Crosses(bought, note.price, note.threshold)
    case StopHit =>
      note.threshold == sig.stoploss && sig.stoploss != 0 && Crosses(!bought, note.price, sig.stoploss)
    case GttEntryExecuted => note.threshold == sig.entryLow && note.price != 0
    case GttExitExecuted => note.threshold == 0 && note.price != 0
    case GttCancelled => note.threshold == 0 && note.price == 0
    case GttExpired => note.threshold == 0 && note.price == 0
  }

  predicate Crosses(upwards: bool, price: int, level: int) { if upwards then price >= level else price <= level }

  predicate AllTold(sig: Signal, notes: seq<Note>) { forall i :: 0 <= i < |notes| ==> Told(sig, notes[i]) }

  lemma {:induction false} HitsTold(sig: Signal, hits: set<nat>, p: int, n: nat)
    requires n <= TARGETS
    ensures AllTold(sig, HitNotes(sig, hits, p, n))
  {
    if n > 0 {
      HitsTold(sig, hits, p, n - 1);
    }
  }

  lemma TickTold(c: Cached, r: Row, p: int)
    ensures AllTold(c.sig, OnTick(c, r, p).notes)
  {
    HitsTold(c.sig, c.hits, p, TARGETS);
    hide HitNotes, Pnl;
  }

  lemma ReplyTold(c: Option<Cached>, r: Row, reply: Reply)
    ensures AllTold(r.sig, OnReply(c, r, reply).notes)
  {
    hide ReadLegs, Pnl;
  }

  /** Every event of every run names the signal's own level of its kind, and its price lies at or past that level. */
  lemma {:induction false} EventsTold(m: State, ops: seq<Op>, id: int)
    requires Coherent(m) && Legal(m, ops) && id in m.rows && AllTold(m.rows[id].sig, NotesOf(m.log, id))
    ensures var end := Run(m, ops);
      id in end.rows && end.rows[id].sig == m.rows[id].sig && AllTold(end.rows[id].sig, NotesOf(end.log, id))
    decreases |ops|
  {
    hide OnTick, OnReply, Told;
    if ops != [] {
      var op := ops[0];
      StepProjects(m, op, id);
      if op.DoTick? && id in m.cache {
        TickTold(m.cache[id], m.rows[id], op.p);
        TickKeepsAgreement(m.cache[id], m.rows[id], op.p);
      }
      if op.DoReconcile? && op.id == id {
        ReplyTold(CachedOf(m, id), m.rows[id], op.reply);
        ReplyKeepsAgreement(CachedOf(m, id), m.rows[id], op.reply);
      }
      EventsTold(Step(m, op), ops[1..], id);
    }
  }
}
