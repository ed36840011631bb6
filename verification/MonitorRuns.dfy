/** What holds of price_monitor.py over whole runs of ticks, rebuilds, broker replies and inserts. */
module MonitorRuns {
  import opened Options
  import opened SignalStep
  import opened MonitorMachine
  import PathReading

  // ----- Terminal rows -----

  lemma {:induction false} TerminalNeverReopens(m: State, ops: seq<Op>, id: int)
    requires Coherent(m) && Legal(m, ops)
    requires id in m.rows && !Watchable(m.rows[id].status)
    ensures id in Run(m, ops).rows && !Watchable(Run(m, ops).rows[id].status)
    decreases |ops|
  {
    if ops != [] {
      if id in m.cache && ops[0].DoTick? { TickKeepsAgreement(m.cache[id], m.rows[id], ops[0].p); }
      TerminalNeverReopens(Step(m, ops[0]), ops[1..], id);
    }
  }

  /** A closed row that is no longer cached is never written again. */
  lemma {:induction false} ClosedRowFrozen(m: State, ops: seq<Op>, id: int)
    requires Coherent(m) && Legal(m, ops)
    requires id in m.rows && !Watchable(m.rows[id].status) && id !in m.cache
    ensures ViewOf(Run(m, ops), id) == ViewOf(m, id)
    decreases |ops|
  {
    if ops != [] {
      StepProjects(m, ops[0], id);
      ClosedRowFrozen(Step(m, ops[0]), ops[1..], id);
    }
  }

  /**
   A booked first target is not final while the signal stays cached: a later tick rewrites the
   row exactly when it is past the stop and leaves some defined target unreached, and then the
   row says STOPLOSS_HIT.
   */
  lemma BookedTargetRewrittenIff(c: Cached, r: Row, p: int)
    requires Agree(c, r) && r.status == Target1Hit
    ensures var row := OnTick(c, r, p).row;
      var left := DefinedTargets(c.sig) - c.hits - NewHits(c.sig, c.hits, p, TARGETS);
      && (row != r <==> PastStop(c.sig, p) && left != {})
      && (row != r ==> row.status == StoplossHit && row.exitPrice == Some(p))
  {
    var defined, hits := DefinedTargets(c.sig), c.hits + NewHits(c.sig, c.hits, p, TARGETS);
    assert defined - c.hits - NewHits(c.sig, c.hits, p, TARGETS) == defined - hits;
    assert 0 in defined;
    assert forall k :: k in defined && k !in hits ==> k in defined - hits;
  }

  /**
   Exactly when a tick takes a signal out of the cache without closing its row: no first target is defined,
   some other one is, and a signal in the market, perhaps since this tick, has now reached all of them.
   */
  lemma UncachedButOpenIff(c: Cached, r: Row, p: int)
    requires Agree(c, r)
    ensures var res := OnTick(c, r, p);
      res.cached.None? && !Terminal(res.row.status) <==>
        && !Defined(c.sig, 0) && DefinedTargets(c.sig) != {}
        && (c.status == Active || PastEntry(c.sig, p))
        && DefinedTargets(c.sig) <= c.hits + NewHits(c.sig, c.hits, p, TARGETS)
  {
    hide Pnl, EntryBasis, HitNotes, Target;
  }

  // ----- The sign of the booked P&L -----

  /** The stop lies on the losing side of the entry level. */
  predicate StopOnLossSide(sig: Signal) {
    (sig.action == Buy && sig.stoploss <= sig.entryLow) || (sig.action == Sell && sig.stoploss >= sig.entryLow)
  }

  /** What the signs are about, and that an ACTIVE row's entry is past the entry level but short of the first target. */
  predicate SignsOk(r: Row) {
    && (r.status == Active ==>
          r.entryPrice > 0 && PastEntry(r.sig, r.entryPrice) && !PastTarget(r.sig, 0, r.entryPrice))
    && (r.status == Target1Hit ==> r.pnl.Some? && r.pnl.value >= 0)
    && (r.status == StoplossHit ==> r.pnl.Some? && (StopOnLossSide(r.sig) ==> r.pnl.value <= 0))
  }

  /** A signal that is cached as ACTIVE was entered past its entry level, also after its first target was booked. */
  predicate EntryOk(c: Option<Cached>, r: Row) {
    c.Some? && c.value.status == Active ==> r.entryPrice > 0 && PastEntry(r.sig, r.entryPrice)
  }

  predicate SignsHold(m: State, id: int) {
    id in m.rows && SignsOk(m.rows[id]) && EntryOk(CachedOf(m, id), m.rows[id])
  }

  /** In the signal's favour, or level; every action but BUY counts as SELL, as in the code. */
  predicate Gains(sig: Signal, entry: int, exit: int) {
    sig.quantity == 0 || (if sig.action == Buy then exit >= entry else exit <= entry)
  }

  predicate Loses(sig: Signal, entry: int, exit: int) {
    sig.quantity == 0 || (if sig.action == Buy then exit <= entry else exit >= entry)
  }

  /**
   The prices a broker reply brings to a watched row: an exit on the side its reason says, or an entry,
   if the row still waits for one, past the entry level and short of the first target.
   */
  predicate Favourable(r: Row, reply: Reply) {
    reply.status == GttOther ==>
      var f := ReadLegs(reply.legs);
      if f.exit != 0 && f.reason.Some? then
        var basis := if f.entry != 0 then f.entry else EntryBasis(r.sig, r.entryPrice);
        && (f.reason.value == Target1Hit ==> Gains(r.sig, basis, f.exit))
        && (f.reason.value == StoplossHit && StopOnLossSide(r.sig) ==> Loses(r.sig, basis, f.exit))
      else
        f.entry != 0 && r.status == Pending ==>
          f.entry > 0 && PastEntry(r.sig, f.entry) && !PastTarget(r.sig, 0, f.entry)
  }

  lemma PnlSigns(sig: Signal, entry: int, exit: int)
    requires sig.quantity >= 0
    ensures Pnl(sig, entry, exit) >= 0 <==> Gains(sig, entry, exit)
    ensures Pnl(sig, entry, exit) <= 0 <==> Loses(sig, entry, exit)
  {
    var gain := (exit - entry) * Sign(sig.action);
    assert Pnl(sig, entry, exit) == gain * sig.quantity;
    if sig.quantity > 0 {
      if gain > 0 { assert gain * sig.quantity > 0; }
      if gain < 0 { assert gain * sig.quantity < 0; }
    }
  }

  lemma TickKeepsSigns(c: Cached, r: Row, p: int)
    requires Agree(c, r) && SignsOk(r) && EntryOk(Some(c), r) && r.sig.quantity >= 0 && p > 0
    ensures var res := OnTick(c, r, p);
      SignsOk(res.row) && EntryOk(res.cached, res.row)
  {
    PnlSigns(r.sig, p, p);
    PnlSigns(r.sig, r.entryPrice, p);
    hide Pnl;
  }

  /** A broker reply keeps the signs of a watched row if and only if the prices it brings are favourable. */
  lemma ReplySignsIff(c: Option<Cached>, r: Row, reply: Reply)
    requires (c.Some? ==> Agree(c.value, r)) && Watchable(r.status)
    requires SignsOk(r) && EntryOk(c, r) && r.sig.quantity >= 0
    ensures var res := OnReply(c, r, reply);
      && (SignsOk(res.row) <==> Favourable(r, reply))
      && (Favourable(r, reply) ==> EntryOk(res.cached, res.row))
  {
    var f := ReadLegs(reply.legs);
    var basis := if f.entry != 0 then f.entry else EntryBasis(r.sig, r.entryPrice);
    LegReasons(reply.legs);
    PnlSigns(r.sig, basis, f.exit);
    hide Pnl, ReadLegs, Gains, Loses;
  }

  /** Does this step bring unfavourable prices to the signal? */
  predicate Unfavourable(m: State, op: Op, id: int) {
    op.DoReconcile? && op.id == id && id in m.rows && !Favourable(m.rows[id], op.reply)
  }

  function UnfavourableReplies(m: State, ops: seq<Op>, id: int): nat
    requires Coherent(m) && Legal(m, ops)
    decreases |ops|
  {
    if ops == [] then 0
    else (if Unfavourable(m, ops[0], id) then 1 else 0) + UnfavourableReplies(Step(m, ops[0]), ops[1..], id)
  }

  lemma StepKeepsSigns(m: State, op: Op, id: int)
    requires Coherent(m) && Enabled(m, op)
    requires SignsHold(m, id) && m.rows[id].sig.quantity >= 0 && !Unfavourable(m, op, id)
    ensures var after := Step(m, op);
      SignsHold(after, id) && after.rows[id].sig == m.rows[id].sig
  {
    hide OnTick, OnReply, Agree, SignsOk, Favourable;
    StepProjects(m, op, id);
    match op
    case DoTick(key, p) =>
      if id in m.cache && p > 0 {
        TickKeepsSigns(m.cache[id], m.rows[id], p);
        TickKeepsAgreement(m.cache[id], m.rows[id], p);
      }
    case DoRebuild(order) => FreshEntryOk(m.rows[id]);
    case DoReconcile(i, reply) =>
      if i == id {
        ReplySignsIff(CachedOf(m, id), m.rows[id], reply);
        ReplyKeepsAgreement(CachedOf(m, id), m.rows[id], reply);
      }
    case DoInsert(_, _, _, _) =>
  }

  lemma FreshEntryOk(r: Row)
    requires SignsOk(r)
    ensures EntryOk(Some(FreshCached(r)), r) && EntryOk(None, r)
  {
  }

  /**
   The signs hold in every run, rebuilds and broker replies included, in which no reply brings
   unfavourable prices to the row it meets.
   */
  lemma {:induction false} BookedSigns(m: State, ops: seq<Op>, id: int)
    requires Coherent(m) && Legal(m, ops)
    requires SignsHold(m, id) && m.rows[id].sig.quantity >= 0
    requires UnfavourableReplies(m, ops, id) == 0
    ensures SignsHold(Run(m, ops), id)
    decreases |ops|
  {
    hide SignsHold, Coherent, Unfavourable;
    if ops != [] {
      StepKeepsSigns(m, ops[0], id);
      BookedSigns(Step(m, ops[0]), ops[1..], id);
    }
  }

  /** The broker reports no exit for this signal. */
  predicate NoBrokerExit(op: Op, id: int) {
    op.DoReconcile? && op.id == id && op.reply.status == GttOther ==> ReadLegs(op.reply.legs).exit == 0
  }

  /** A reply reports an entry to a row that still waits for one. */
  predicate BrokerEntry(m: State, op: Op, id: int) {
    && op.DoReconcile? && op.id == id && op.reply.status == GttOther
    && id in m.rows && m.rows[id].status == Pending && ReadLegs(op.reply.legs).entry != 0
  }

  function BrokerEntries(m: State, ops: seq<Op>, id: int): nat
    requires Coherent(m) && Legal(m, ops)
    decreases |ops|
  {
    if ops == [] then 0
    else (if BrokerEntry(m, ops[0], id) then 1 else 0) + BrokerEntries(Step(m, ops[0]), ops[1..], id)
  }

  lemma {:induction false} TickedIsFavourable(m: State, ops: seq<Op>, id: int)
    requires Coherent(m) && Legal(m, ops)
    requires forall i :: 0 <= i < |ops| ==> NoBrokerExit(ops[i], id)
    requires BrokerEntries(m, ops, id) == 0
    ensures UnfavourableReplies(m, ops, id) == 0
    decreases |ops|
  {
    hide Coherent, Enabled, ReadLegs;
    if ops != [] {
      assert NoBrokerExit(ops[0], id);
      TickedIsFavourable(Step(m, ops[0]), ops[1..], id);
    }
  }

  /** A row that is not PENDING is never PENDING again, so no reply can enter it. */
  lemma {:induction false} EnteredOnce(m: State, ops: seq<Op>, id: int)
    requires Coherent(m) && Legal(m, ops) && id in m.rows && m.rows[id].status != Pending
    ensures BrokerEntries(m, ops, id) == 0
    decreases |ops|
  {
    if ops != [] {
      hide OnTick, OnReply, Agree;
      var op := ops[0];
      StepProjects(m, op, id);
      if op.DoTick? && id in m.cache { TickMakesNoPending(m.cache[id], m.rows[id], op.p); }
      if op.DoReconcile? && op.id == id { ReplyKeepsAgreement(CachedOf(m, id), m.rows[id], op.reply); }
      EnteredOnce(Step(m, op), ops[1..], id);
    }
  }

  lemma TickMakesNoPending(c: Cached, r: Row, p: int)
    ensures OnTick(c, r, p).row.status == Pending ==> r.status == Pending
  {
  }

  /**
   For a signal whose entry was recorded by a tick: however often the broker reports the entry leg as
   filled afterwards, the signs hold as long as the exit comes from ticks.
   */
  lemma TickedEntrySigns(m: State, ops: seq<Op>, id: int)
    requires Coherent(m) && Legal(m, ops)
    requires SignsHold(m, id) && m.rows[id].sig.quantity >= 0
    requires m.rows[id].status != Pending || BrokerEntries(m, ops, id) == 0
    requires forall i :: 0 <= i < |ops| ==> NoBrokerExit(ops[i], id)
    ensures SignsHold(Run(m, ops), id)
  {
    if m.rows[id].status != Pending { EnteredOnce(m, ops, id); }
    TickedIsFavourable(m, ops, id);
    BookedSigns(m, ops, id);
  }

  // ----- First passage -----

  /** The positive prices a run shows on one instrument. */
  function TicksOn(ops: seq<Op>, key: string): seq<int> {
    if ops == [] then []
    else
      (if ops[0].DoTick? && ops[0].key == key && ops[0].p > 0 then [ops[0].p] else [])
      + TicksOn(ops[1..], key)
  }

  /** A signal's view after the ticks of a path, read off the path; nothing happens to an uncached one. */
  function Reading(start: Result, ps: seq<int>): Result {
    if start.cached.None? then start
    else
      var t := PathReading.ReadPath(start.row, ps);
      t.(notes := start.notes + t.notes)
  }

  /**
   A run as one signal sees it: paths of ticks, each read as a whole, divided by rebuilds and by the broker
   replies that change something. A rebuild starts a new path from the row alone, if it is still watched.
   */
  function ReadRun(start: Result, ps: seq<int>, id: int, ops: seq<Op>): Result
    decreases |ops|
  {
    if ops == [] then Reading(start, ps)
    else
      var now := Reading(start, ps);
      match ops[0]
      case DoTick(key, p) =>
        ReadRun(start, if key == start.row.sig.key && p > 0 then ps + [p] else ps, id, ops[1..])
      case DoRebuild(_) =>
        ReadRun(now.(cached := if Cacheable(now.row) then Some(FreshCached(now.row)) else None), [], id, ops[1..])
      case DoReconcile(i, reply) =>
        var t := OnReply(now.cached, now.row, reply);
        if i != id || t.notes == [] then ReadRun(start, ps, id, ops[1..])
        else ReadRun(t.(notes := now.notes + t.notes), [], id, ops[1..])
      case DoInsert(_, _, _, _) => ReadRun(start, ps, id, ops[1..])
  }

  /** Where a path may start: uncached, or cached as a copy of a watched row. */
  predicate Startable(s: Result) {
    s.cached.Some? ==> Watchable(s.row.status) && s.cached == Some(FreshCached(s.row))
  }

  lemma ReadingOfNothing(s: Result)
    requires Startable(s)
    ensures Reading(s, []) == s
  {
    assert s.notes + [] == s.notes;
  }

  lemma ReadingKeepsSig(s: Result, ps: seq<int>)
    ensures Reading(s, ps).row.sig == s.row.sig
  {
  }

  lemma ReadingTick(s: Result, ps: seq<int>, p: int)
    requires Startable(s)
    ensures Reading(s, ps + [p]) == PathReading.TickOne(Reading(s, ps), p)
  {
    hide OnTick;
    if s.cached.Some? {
      PathReading.Step(s.row, ps, p);
      NotesAssociate(s.notes, PathReading.ReadPath(s.row, ps), p);
    }
  }

  lemma NotesAssociate(notes: seq<Note>, s: Result, p: int)
    ensures PathReading.TickOne(s.(notes := notes + s.notes), p)
         == (var t := PathReading.TickOne(s, p); t.(notes := notes + t.notes))
  {
    hide OnTick;
  }

  /** A reply that logs nothing changes nothing; one that does leaves a place where a path may start. */
  lemma ReplyStarts(c: Option<Cached>, r: Row, reply: Reply)
    requires (c.Some? ==> Agree(c.value, r)) && Watchable(r.status)
    ensures var t := OnReply(c, r, reply);
      && (t.notes == [] ==> t.row == r && t.cached == c)
      && (t.notes != [] ==> Startable(t))
  {
    hide ReadLegs;
    LegReasons(reply.legs);
  }

  lemma StepReads(m: State, op: Op, id: int, s: Result, ps: seq<int>)
    requires Coherent(m) && Enabled(m, op) && Startable(s) && ViewOf(m, id) == Some(Reading(s, ps))
    ensures op.DoTick? && op.key == s.row.sig.key && op.p > 0 ==>
      ViewOf(Step(m, op), id) == Some(Reading(s, ps + [op.p]))
    ensures op.DoTick? && !(op.key == s.row.sig.key && op.p > 0) ==> ViewOf(Step(m, op), id) == ViewOf(m, id)
    ensures op.DoInsert? ==> ViewOf(Step(m, op), id) == ViewOf(m, id)
  {
    hide OnTick, OnReply, Reading, Coherent;
    StepProjects(m, op, id);
    ReadingKeepsSig(s, ps);
    if op.DoTick? { ReadingTick(s, ps, op.p); }
  }

  lemma {:induction false} RunReads(m: State, ops: seq<Op>, id: int, s: Result, ps: seq<int>)
    requires Coherent(m) && Legal(m, ops)
    requires Startable(s) && ViewOf(m, id) == Some(Reading(s, ps))
    ensures ViewOf(Run(m, ops), id) == Some(ReadRun(s, ps, id, ops))
    decreases |ops|
  {
    hide OnTick, OnReply, Reading, Agree;
    if ops != [] {
      var op, now, after := ops[0], Reading(s, ps), Step(m, ops[0]);
      StepProjects(m, op, id);
      StepReads(m, op, id, s, ps);
      match op
      case DoTick(key, p) =>
        RunReads(after, ops[1..], id, s, if key == s.row.sig.key && p > 0 then ps + [p] else ps);
      case DoRebuild(_) =>
        var start := now.(cached := if Cacheable(now.row) then Some(FreshCached(now.row)) else None);
        ReadingOfNothing(start);
        RunReads(after, ops[1..], id, start, []);
      case DoReconcile(i, reply) =>
        var t := OnReply(now.cached, now.row, reply);
        if i == id { ReplyStarts(now.cached, now.row, reply); }
        if i != id || t.notes == [] {
          assert now.notes + [] == now.notes;
          RunReads(after, ops[1..], id, s, ps);
        } else {
          var start := t.(notes := now.notes + t.notes);
          ReadingOfNothing(start);
          RunReads(after, ops[1..], id, start, []);
        }
      case DoInsert(_, _, _, _) => RunReads(after, ops[1..], id, s, ps);
    }
  }

  /**
   First passage over every run: whatever ticks, rebuilds, broker replies and other signals do, a signal's row,
   cache entry and events are the reading of its paths. It may start uncached, or with no target reached yet.
   */
  lemma MonitorReadsRun(m: State, ops: seq<Op>, id: int)
    requires Coherent(m) && Legal(m, ops) && id in m.rows
    requires id in m.cache ==> m.cache[id].hits == {}
    ensures ViewOf(Run(m, ops), id) == Some(ReadRun(ViewOf(m, id).value, [], id, ops))
  {
    var s := ViewOf(m, id).value;
    assert Startable(s);
    ReadingOfNothing(s);
    hide Coherent, Reading, Startable;
    RunReads(m, ops, id, s, []);
  }

  lemma {:induction false} OnePath(s: Result, ps: seq<int>, id: int, ops: seq<Op>)
    requires forall i :: 0 <= i < |ops| ==> !ops[i].DoRebuild? && !(ops[i].DoReconcile? && ops[i].id == id)
    ensures ReadRun(s, ps, id, ops) == Reading(s, ps + TicksOn(ops, s.row.sig.key))
    decreases |ops|
  {
    hide Reading, OnReply;
    if ops == [] {
      assert ps + [] == ps;
    } else {
      var key, rest := s.row.sig.key, TicksOn(ops[1..], s.row.sig.key);
      if ops[0].DoTick? && ops[0].key == key && ops[0].p > 0 {
        OnePath(s, ps + [ops[0].p], id, ops[1..]);
        assert ps + [ops[0].p] + rest == ps + ([ops[0].p] + rest);
      } else {
        OnePath(s, ps, id, ops[1..]);
        assert [] + rest == rest;
      }
    }
  }

  /** Without a rebuild and a reply in between, it is one path: that of the instrument's ticks. */
  lemma MonitorReadsPath(m: State, ops: seq<Op>, id: int)
    requires Coherent(m) && Legal(m, ops)
    requires id in m.cache && m.cache[id].hits == {}
    requires forall i :: 0 <= i < |ops| ==> !ops[i].DoRebuild? && !(ops[i].DoReconcile? && ops[i].id == id)
    ensures id in m.rows
    ensures var reading := PathReading.ReadPath(m.rows[id], TicksOn(ops, m.rows[id].sig.key));
      ViewOf(Run(m, ops), id) == Some(reading.(notes := NotesOf(m.log, id) + reading.notes))
  {
    MonitorReadsRun(m, ops, id);
    var s := ViewOf(m, id).value;
    OnePath(s, [], id, ops);
    assert [] + TicksOn(ops, s.row.sig.key) == TicksOn(ops, s.row.sig.key);
  }

  // ----- What a rebuild forgets -----

  lemma {:induction false} HitNotesHave(sig: Signal, hits: set<nat>, p: int, n: nat, k: nat)
    requires n <= TARGETS && k < TARGETS
    ensures Note(TargetHit(k), p, Target(sig, k)) in HitNotes(sig, hits, p, n) <==>
      k < n && k !in hits && PastTarget(sig, k, p)
  {
    hide PastTarget, Target;
    if n > 0 {
      HitNotesHave(sig, hits, p, n - 1, k);
    }
  }

  /**
   A rebuild forgets which targets were reached: a later tick logs the event of such a target again,
   where without the rebuild it would not. This is why ReadRun starts a new path there.
   */
  lemma RebuildForgetsHits(m: State, order: seq<int>, id: int, k: nat, p: int)
    requires Coherent(m) && Enumerates(m.rows, order)
    requires id in m.cache && m.cache[id].status == Active && m.rows[id].status == Active
    requires k in m.cache[id].hits && k < TARGETS && PastTarget(m.cache[id].sig, k, p)
    ensures var after, note := Rebuild(m, order), Note(TargetHit(k), p, Target(m.cache[id].sig, k));
      && id in after.cache && id in m.rows
      && note !in TickResult(m, id, p).notes && note in TickResult(after, id, p).notes
  {
    var sig := m.cache[id].sig;
    assert id in Listed(m, sig.key);
    HitNotesHave(sig, m.cache[id].hits, p, TARGETS, k);
    HitNotesHave(sig, {}, p, TARGETS, k);
    hide HitNotes, PastTarget, Target;
  }
}
