/**
 price_monitor.py itself: module-level dictionaries changed in place by loops, one of which walks
 a snapshot of the list it deletes from. Each method is shown to do the step of MonitorMachine.
 */
module PriceMonitor {
  import opened Options
  import opened SignalStep
  import opened MonitorMachine

  /** list.remove: drops the first occurrence. */
  function RemoveFirst(ids: seq<int>, id: int): seq<int> {
    if ids == [] then []
    else if ids[0] == id then ids[1..]
    else [ids[0]] + RemoveFirst(ids[1..], id)
  }

  lemma {:induction false} RemoveFirstIsWithout(ids: seq<int>, id: int)
    requires NoDuplicates(ids)
    ensures RemoveFirst(ids, id) == Without(ids, {id})
  {
    if ids != [] {
      if ids[0] == id {
        NothingToDrop(ids[1..], {id});
      } else {
        RemoveFirstIsWithout(ids[1..], id);
      }
    }
  }

  lemma {:induction false} NothingToDrop(ids: seq<int>, gone: set<int>)
    requires forall i :: 0 <= i < |ids| ==> ids[i] !in gone
    ensures Without(ids, gone) == ids
  {
    if ids != [] {
      NothingToDrop(ids[1..], gone);
      assert [ids[0]] + ids[1..] == ids;
    }
  }

  lemma {:induction false} WithoutTwice(ids: seq<int>, a: set<int>, b: set<int>)
    ensures Without(Without(ids, a), b) == Without(ids, a + b)
  {
    if ids != [] {
      WithoutTwice(ids[1..], a, b);
    }
  }

  /** What one more signal of the list adds to a tick half done. */
  lemma RowsAdvance(m: State, p: int, done: seq<int>, id: int)
    requires Stored(m, id) && id !in done
    ensures RowsAfter(m, p, done + [id]) == RowsAfter(m, p, done)[id := TickResult(m, id, p).row]
  {
  }

  lemma GoneAdvances(m: State, p: int, done: seq<int>, id: int)
    requires Stored(m, id)
    ensures Gone(m, p, done + [id]) == Gone(m, p, done) + if TickResult(m, id, p).cached.None? then {id} else {}
  {
  }

  lemma CacheAdvances(m: State, p: int, done: seq<int>, id: int)
    requires Stored(m, id) && id !in done
    ensures CacheAfter(m, p, done + [id]) == Put(CacheAfter(m, p, done), id, TickResult(m, id, p).cached)
  {
    GoneAdvances(m, p, done, id);
  }

  lemma ListAdvances(m: State, p: int, ids: seq<int>, done: seq<int>, id: int)
    requires Stored(m, id) && NoDuplicates(ids)
    ensures Without(ids, Gone(m, p, done + [id]))
         == if TickResult(m, id, p).cached.None? then RemoveFirst(Without(ids, Gone(m, p, done)), id)
            else Without(ids, Gone(m, p, done))
  {
    GoneAdvances(m, p, done, id);
    if TickResult(m, id, p).cached.None? {
      RemoveFirstIsWithout(Without(ids, Gone(m, p, done)), id);
      WithoutTwice(ids, Gone(m, p, done), {id});
    } else {
      assert Gone(m, p, done + [id]) == Gone(m, p, done);
    }
  }

  lemma NotYetDone(m: State, p: int, done: seq<int>, id: int)
    requires Stored(m, id) && id !in done
    ensures id in RowsAfter(m, p, done) && RowsAfter(m, p, done)[id] == m.rows[id]
    ensures id in CacheAfter(m, p, done) && CacheAfter(m, p, done)[id] == m.cache[id]
  {
    hide OnTick;
  }

  lemma TickAdvances(m: State, key: string, p: int, done: seq<int>, id: int)
    requires key in m.index && NoDuplicates(m.index[key])
    requires (forall i :: i in done ==> Stored(m, i)) && Stored(m, id) && id !in done
    ensures var before, after, res := TickOn(m, key, p, done), TickOn(m, key, p, done + [id]), TickResult(m, id, p);
      && key in before.index && id in before.rows && before.rows[id] == m.rows[id]
      && id in before.cache && before.cache[id] == m.cache[id]
      && after.rows == before.rows[id := res.row]
      && after.log == before.log + Tagged(id, res.notes)
      && after.cache == Put(before.cache, id, res.cached)
      && after.index
         == if res.cached.None? then before.index[key := RemoveFirst(before.index[key], id)] else before.index
  {
    hide OnTick, RowsAfter, CacheAfter, Gone, Without, RemoveFirst, Put, Tagged, NoDuplicates;
    NotYetDone(m, p, done, id);
    RowsAdvance(m, p, done, id);
    CacheAdvances(m, p, done, id);
    ListAdvances(m, p, m.index[key], done, id);
    assert (done + [id])[..|done|] == done;
  }

  /** Indexing one more row, as `setdefault(ik, []).append(sid)` does. */
  lemma IndexAdvances(rows: map<int, Row>, done: seq<int>, id: int)
    requires id in rows
    ensures var before, key := IndexFrom(rows, done), rows[id].sig.key;
      IndexFrom(rows, done + [id])
      == if key == "" then before else before[key := (if key in before then before[key] else []) + [id]]
  {
    hide WithKey;
    var key, more := rows[id].sig.key, done + [id];
    KeysAdvance(rows, done, id);
    if key != "" {
      NoneWithKey(rows, done, key);
    }
    forall k
      ensures WithKey(rows, more, k) == if key == k then WithKey(rows, done, k) + [id] else WithKey(rows, done, k)
    {
      WithKeyAdvances(rows, done, id, k);
    }
    assert [] + [id] == [id];
  }

  lemma WithKeyAdvances(rows: map<int, Row>, done: seq<int>, id: int, k: string)
    requires id in rows
    ensures WithKey(rows, done + [id], k)
         == if rows[id].sig.key == k then WithKey(rows, done, k) + [id] else WithKey(rows, done, k)
  {
    assert WithKey(rows, done, k) + [] == WithKey(rows, done, k);
    assert (done + [id])[..|done|] == done;
  }

  lemma CopyAdvances(rows: map<int, Row>, done: seq<int>, id: int)
    requires id in rows
    ensures CacheFrom(rows, done + [id])
         == if rows[id].sig.key == "" then CacheFrom(rows, done) else CacheFrom(rows, done)[id := FreshCached(rows[id])]
  {
  }

  lemma NothingIndexed(rows: map<int, Row>)
    ensures CacheFrom(rows, []) == map[] && IndexFrom(rows, []) == map[]
  {
  }

  lemma KeysAdvance(rows: map<int, Row>, done: seq<int>, id: int)
    requires id in rows
    ensures Keys(rows, done + [id]) == Keys(rows, done) + if rows[id].sig.key == "" then {} else {rows[id].sig.key}
  {
  }

  lemma KeyListed(rows: map<int, Row>, order: seq<int>, id: int)
    requires id in order && id in rows && rows[id].sig.key != ""
    ensures rows[id].sig.key in Keys(rows, order)
  {
  }

  lemma {:induction false} NoneWithKey(rows: map<int, Row>, order: seq<int>, key: string)
    requires key != ""
    ensures key !in Keys(rows, order) ==> WithKey(rows, order, key) == []
  {
    if order != [] && key !in Keys(rows, order) {
      var n := |order| - 1;
      NoneWithKey(rows, order[..n], key);
      forall id | id in order[..n] && id in rows && rows[id].sig.key != ""
        ensures rows[id].sig.key in Keys(rows, order)
      {
        KeyListed(rows, order, id);
      }
      if order[n] in rows && rows[order[n]].sig.key == key { KeyListed(rows, order, order[n]); }
    }
  }

  lemma TickOnNobody(m: State, key: string, p: int)
    requires key in m.index
    ensures TickOn(m, key, p, []) == m
  {
    hide OnTick, TickResult, Without;
    NothingToDrop(m.index[key], {});
    assert Gone(m, p, []) == {};
    assert CacheAfter(m, p, []) == m.cache;
    assert RowsAfter(m, p, []) == m.rows;
    assert m.log + [] == m.log;
  }

  class Monitor {
    var rows: map<int, Row>
    var log: seq<Entry>
    var cache: map<int, Cached>
    var index: map<string, seq<int>>

    function State(): State
      reads this
    {
      MonitorMachine.State(rows, cache, index, log)
    }

    constructor ()
      ensures State() == MonitorMachine.State(map[], map[], map[], []) && Coherent(State())
    {
      rows, log, cache, index := map[], [], map[], map[];
    }

    // ----- db.py -----

    method UpdateEntryExecuted(id: int, price: int)
      modifies this`rows
      ensures id !in old(rows) ==> rows == old(rows)
      ensures id in old(rows) ==> rows == old(rows)[id := old(rows)[id].(status := Active, entryPrice := price)]
    {
      if id in rows {
        rows := rows[id := rows[id].(status := Active, entryPrice := price)];
      }
    }

    method UpdateExitExecuted(id: int, price: int, pnl: int, reason: Status)
      modifies this`rows
      ensures rows == if id in old(rows) then old(rows)[id := Exited(old(rows)[id], reason, price, pnl)] else old(rows)
    {
      if id in rows {
        rows := rows[id := Exited(rows[id], reason, price, pnl)];
      }
    }

    method InsertPriceEvent(id: int, kind: Kind, price: int, threshold: int)
      modifies this`log
      ensures log == old(log) + [Entry(id, Note(kind, price, threshold))]
    {
      log := log + [Entry(id, Note(kind, price, threshold))];
    }

    // ----- Ticks -----

    /** Pop the signal from the cache and from the list of this instrument. */
    method Drop(id: int, key: string)
      modifies this`cache, this`index
      ensures cache == old(cache) - {id}
      ensures index == if key in old(index) then old(index)[key := RemoveFirst(old(index)[key], id)] else old(index)
    {
      cache := cache - {id};
      if key in index {
        index := index[key := RemoveFirst(index[key], id)];
      }
    }

    /** The `for t_key, t_val in all_targets` loop: returns the hits after this tick. */
    method CheckTargets(id: int, c: Cached, p: int) returns (hits: set<nat>)
      requires id in rows
      modifies this`rows, this`log
      ensures hits == c.hits + NewHits(c.sig, c.hits, p, TARGETS)
      ensures rows == old(rows)[id := if 0 in NewHits(c.sig, c.hits, p, TARGETS)
                                      then Exited(old(rows)[id], Target1Hit, p,
                                                     Pnl(c.sig, EntryBasis(c.sig, c.entryPrice), p))
                                      else old(rows)[id]]
      ensures log == old(log) + Tagged(id, HitNotes(c.sig, c.hits, p, TARGETS))
    {
      hits := c.hits;
      for k := 0 to TARGETS
        invariant hits == c.hits + NewHits(c.sig, c.hits, p, k)
        invariant rows == old(rows)[id := if 0 in NewHits(c.sig, c.hits, p, k)
                                          then Exited(old(rows)[id], Target1Hit, p,
                                                     Pnl(c.sig, EntryBasis(c.sig, c.entryPrice), p))
                                          else old(rows)[id]]
        invariant log == old(log) + Tagged(id, HitNotes(c.sig, c.hits, p, k))
      {
        ghost var reached := k !in c.hits && PastTarget(c.sig, k, p);
        assert NewHits(c.sig, c.hits, p, k + 1) == NewHits(c.sig, c.hits, p, k) + if reached then {k} else {};
        if Target(c.sig, k) != 0 && k !in hits && Beyond(c.sig.action, p, Target(c.sig, k)) {
          if k == 0 {
            UpdateExitExecuted(id, p, Pnl(c.sig, EntryBasis(c.sig, c.entryPrice), p), Target1Hit);
          }
          InsertPriceEvent(id, TargetHit(k), p, Target(c.sig, k));
          hits := hits + {k};
        }
      }
    }

    /** Targets and stop of a signal whose cache entry `c` is in the market. */
    method TrackActive(id: int, key: string, c: Cached, p: int)
      requires id in rows && id in cache
      modifies this
      ensures var res := OnActiveTick(c, old(rows)[id], p);
        && rows == old(rows)[id := res.row]
        && log == old(log) + Tagged(id, res.notes)
        && cache == Put(old(cache), id, res.cached)
        && index == if res.cached.None? && key in old(index)
            then old(index)[key := RemoveFirst(old(index)[key], id)] else old(index)
    {
      var sig := c.sig;
      var hits := CheckTargets(id, c, p);
      cache := cache[id := c.(hits := hits)];
      if DefinedTargets(sig) != {} && DefinedTargets(sig) <= hits {
        Drop(id, key);
        return;
      }
      if sig.stoploss != 0 && Against(sig.action, p, sig.stoploss) {
        UpdateExitExecuted(id, p, Pnl(sig, EntryBasis(sig, c.entryPrice), p), StoplossHit);
        InsertPriceEvent(id, StopHit, p, sig.stoploss);
        TaggedAppend(id, HitNotes(sig, c.hits, p, TARGETS), [Note(StopHit, p, sig.stoploss)]);
        Drop(id, key);
      }
    }

    static lemma TaggedAppend(id: int, a: seq<Note>, b: seq<Note>)
      ensures Tagged(id, a + b) == Tagged(id, a) + Tagged(id, b)
    {
    }

    /** The body of the loop over the snapshot, for one signal id. */
    method CheckSignal(id: int, key: string, p: int)
      requires id in cache ==> id in rows
      modifies this
      ensures id !in old(cache) ==> State() == old(State())
      ensures id in old(cache) ==>
        var res := OnTick(old(cache)[id], old(rows)[id], p);
        && rows == old(rows)[id := res.row]
        && log == old(log) + Tagged(id, res.notes)
        && cache == Put(old(cache), id, res.cached)
        && index == if res.cached.None? && key in old(index)
            then old(index)[key := RemoveFirst(old(index)[key], id)] else old(index)
    {
      if id !in cache {
        return;
      }
      var c := cache[id];
      var sig := c.sig;
      if c.status == Pending {
        if Beyond(sig.action, p, sig.entryLow) {
          UpdateEntryExecuted(id, p);
          InsertPriceEvent(id, EntryHit, p, sig.entryLow);
          c := c.(status := Active, entryPrice := p);
          cache := cache[id := c];
          TaggedAppend(id, [Note(EntryHit, p, sig.entryLow)], OnActiveTick(c, rows[id], p).notes);
        } else if sig.stoploss != 0 && Against(sig.action, p, sig.stoploss) {
          UpdateExitExecuted(id, p, 0, StoplossHit);
          InsertPriceEvent(id, StopHit, p, sig.stoploss);
          Drop(id, key);
          return;
        }
      }
      if c.status == Active {
        TrackActive(id, key, c, p);
      }
    }

    /** The loop over `list(signal_ids)`. */
    method CheckSnapshot(key: string, ltp: int)
      requires key in index && NoDuplicates(index[key])
      requires forall id :: id in index[key] ==> Stored(State(), id)
      modifies this
      ensures State() == TickOn(old(State()), key, ltp, old(index)[key])
    {
      hide OnTick, TickOn, RemoveFirst, Put;
      ghost var m := State();
      var ids := index[key];
      TickOnNobody(m, key, ltp);
      assert ids[..0] == [];
      for i := 0 to |ids|
        invariant State() == TickOn(m, key, ltp, ids[..i])
      {
        assert ids[i] in ids && ids[..i + 1] == ids[..i] + [ids[i]];
        TickAdvances(m, key, ltp, ids[..i], ids[i]);
        CheckSignal(ids[i], key, ltp);
      }
      assert ids[..|ids|] == ids;
    }

    method CheckThresholds(key: string, ltp: int)
      requires Coherent(State())
      modifies this
      ensures Coherent(State())
      ensures State() == Tick(old(State()), key, ltp)
    {
      StepCoherent(State(), DoTick(key, ltp));
      if ltp <= 0 {
        return;
      }
      if key in index {
        CheckSnapshot(key, ltp);
      }
    }

    // ----- Rebuild -----

    method BuildIndex(order: seq<int>) returns (newCache: map<int, Cached>, newIndex: map<string, seq<int>>)
      requires forall id :: id in order ==> id in rows
      ensures newCache == CacheFrom(rows, order) && newIndex == IndexFrom(rows, order)
    {
      hide CacheFrom, IndexFrom, FreshCached;
      newCache, newIndex := map[], map[];
      NothingIndexed(rows);
      assert order[..0] == [];
      for i := 0 to |order|
        invariant newCache == CacheFrom(rows, order[..i])
        invariant newIndex == IndexFrom(rows, order[..i])
      {
        var id := order[i];
        assert id in order && order[..i + 1] == order[..i] + [id];
        IndexAdvances(rows, order[..i], id);
        CopyAdvances(rows, order[..i], id);
        var key := rows[id].sig.key;
        if key != "" {
          newCache := newCache[id := FreshCached(rows[id])];
          newIndex := newIndex[key := (if key in newIndex then newIndex[key] else []) + [id]];
        }
      }
      assert order[..|order|] == order;
    }

    method RebuildCache(order: seq<int>)
      requires Coherent(State()) && Enumerates(rows, order)
      modifies this`cache, this`index
      ensures Coherent(State())
      ensures State() == Rebuild(old(State()), order)
    {
      RebuildCoherent(State(), order);
      cache, index := BuildIndex(order);
    }

    // ----- Reconciliation -----

    /** Pop the signal from the cache and from every list of the index. */
    method DropEverywhere(id: int)
      requires forall key :: key in index ==> NoDuplicates(index[key])
      modifies this`cache, this`index
      ensures cache == old(cache) - {id}
      ensures index == map key | key in old(index) :: Without(old(index)[key], {id})
    {
      cache := cache - {id};
      var keys := index.Keys;
      while keys != {}
        invariant cache == old(cache) - {id}
        invariant keys <= old(index).Keys
        invariant index.Keys == old(index).Keys
        invariant forall key :: key in keys ==> index[key] == old(index)[key]
        invariant forall key :: key in old(index) && key !in keys ==> index[key] == Without(old(index)[key], {id})
        decreases |keys|
      {
        var key :| key in keys;
        RemoveFirstIsWithout(index[key], id);
        if id in index[key] {
          index := index[key := RemoveFirst(index[key], id)];
        } else {
          NothingToDrop(index[key], {id});
        }
        keys := keys - {key};
      }
    }

    /** The loop over the legs of a triggered or completed GTT. */
    method InspectLegs(legs: seq<Leg>) returns (entry: int, exit: int, reason: Option<Status>)
      ensures Fills(entry, exit, reason) == ReadLegs(legs)
      ensures LegsSay(legs, Fills(entry, exit, reason))
    {
      LegsRead(legs);
      hide LegsSay;
      entry, exit, reason := 0, 0, None;
      for i := 0 to |legs|
        invariant Fills(entry, exit, reason) == ReadLegs(legs[..i])
      {
        assert legs[..i + 1][..i] == legs[..i];
        var leg := legs[i];
        if leg.strategy == EntryLeg && leg.triggered {
          entry := FillPrice(leg);
        } else if leg.strategy == TargetLeg && leg.triggered {
          exit, reason := FillPrice(leg), Some(Target1Hit);
        } else if leg.strategy == StoplossLeg && leg.triggered {
          exit, reason := FillPrice(leg), Some(StoplossHit);
        }
      }
      assert legs[..|legs|] == legs;
    }

    /** The branches for a cancelled and for an expired GTT. */
    method CloseByBroker(id: int, reason: Status, kind: Kind)
      requires Coherent(State()) && id in rows
      modifies this
      ensures rows == old(rows)[id := Exited(old(rows)[id], reason, 0, 0)]
      ensures log == old(log) + [Entry(id, Note(kind, 0, 0))]
      ensures cache == old(cache) - {id}
      ensures index == map key | key in old(index) :: Without(old(index)[key], {id})
    {
      UpdateExitExecuted(id, 0, 0, reason);
      InsertPriceEvent(id, kind, 0, 0);
      DropEverywhere(id);
    }

    /** The rest of the reply, once the legs have been read. */
    method ApplyFills(id: int, entry: int, exit: int, reason: Option<Status>)
      requires Coherent(State()) && id in rows
      modifies this
      ensures var r := old(rows)[id];
        var entered := entry != 0 && r.status == Pending;
        var exited := exit != 0 && reason.Some? && !Terminal(r.status);
        var row := if entered then r.(status := Active, entryPrice := entry) else r;
        var basis := if entry != 0 then entry else EntryBasis(r.sig, r.entryPrice);
        && rows == old(rows)[id := if exited then Exited(row, reason.value, exit, Pnl(r.sig, basis, exit)) else row]
        && log == old(log)
                  + (if entered then [Entry(id, Note(GttEntryExecuted, entry, r.sig.entryLow))] else [])
                  + (if exited then [Entry(id, Note(GttExitExecuted, exit, 0))] else [])
        && cache == (if exited then old(cache) - {id}
                     else if entered && id in old(cache)
                         then old(cache)[id := old(cache)[id].(status := Active, entryPrice := entry)]
                     else old(cache))
        && index == if exited then map key | key in old(index) :: Without(old(index)[key], {id}) else old(index)
    {
      var signal := rows[id];
      if entry != 0 && signal.status == Pending {
        UpdateEntryExecuted(id, entry);
        InsertPriceEvent(id, GttEntryExecuted, entry, signal.sig.entryLow);
        if id in cache {
          cache := cache[id := cache[id].(status := Active, entryPrice := entry)];
        }
      }
      if exit != 0 && reason.Some? && !Terminal(signal.status) {
        var actual := if entry != 0 then entry else EntryBasis(signal.sig, signal.entryPrice);
        UpdateExitExecuted(id, exit, Pnl(signal.sig, actual, exit), reason.value);
        InsertPriceEvent(id, GttExitExecuted, exit, 0);
        DropEverywhere(id);
      }
    }

    method ProcessReconciliation(id: int, reply: Reply)
      requires Coherent(State()) && id in rows
      modifies this
      ensures Coherent(State())
      ensures State() == Reconcile(old(State()), id, reply)
    {
      hide OnReply, Reconcile, Tagged, ReadLegs;
      ghost var m := State();
      ReconcileCoherent(m, id, reply);
      match reply.status
      case GttActive => RepliedNothing(m, id, reply);
      case GttCancelledByBroker =>
        if Terminal(rows[id].status) {
          RepliedNothing(m, id, reply);
        } else {
          RepliedClose(m, id, reply);
          CloseByBroker(id, Cancelled, GttCancelled);
        }
      case GttExpiredByBroker =>
        if Terminal(rows[id].status) {
          RepliedNothing(m, id, reply);
        } else {
          RepliedClose(m, id, reply);
          CloseByBroker(id, Expired, GttExpired);
        }
      case GttOther =>
        RepliedFills(m, id, reply);
        var entry, exit, reason := InspectLegs(reply.legs);
        ApplyFills(id, entry, exit, reason);
    }

    static lemma RepliedNothing(m: State, id: int, reply: Reply)
      requires Coherent(m) && id in m.rows
      requires reply.status == GttActive || (reply.status != GttOther && Terminal(m.rows[id].status))
      ensures Reconcile(m, id, reply) == m
    {
      hide IndexMatches;
      Unlisted(m, id);
      TaggedOne(id, Note(GttCancelled, 0, 0));
      assert m.log + [] == m.log && m.rows[id := m.rows[id]] == m.rows;
      assert Put(m.cache, id, CachedOf(m, id)) == m.cache;
    }

    static lemma RepliedClose(m: State, id: int, reply: Reply)
      requires Coherent(m) && id in m.rows && !Terminal(m.rows[id].status)
      requires reply.status == GttCancelledByBroker || reply.status == GttExpiredByBroker
      ensures var reason := if reply.status == GttCancelledByBroker then Cancelled else Expired;
        var kind := if reply.status == GttCancelledByBroker then GttCancelled else GttExpired;
        Reconcile(m, id, reply)
        == MonitorMachine.State(m.rows[id := Exited(m.rows[id], reason, 0, 0)], m.cache - {id},
                                map key | key in m.index :: Without(m.index[key], {id}),
                                m.log + [Entry(id, Note(kind, 0, 0))])
    {
      TaggedOne(id, Note(GttCancelled, 0, 0));
      TaggedOne(id, Note(GttExpired, 0, 0));
    }

    static lemma TaggedOne(id: int, note: Note)
      ensures Tagged(id, [note]) == [Entry(id, note)] && Tagged(id, []) == []
    {
    }

    /** ApplyFills writes what OnReply says. */
    static lemma RepliedFills(m: State, id: int, reply: Reply)
      requires Coherent(m) && id in m.rows && reply.status == GttOther
      ensures var f, r, m' := ReadLegs(reply.legs), m.rows[id], Reconcile(m, id, reply);
        var entered := f.entry != 0 && r.status == Pending;
        var exited := f.exit != 0 && f.reason.Some? && !Terminal(r.status);
        var row := if entered then r.(status := Active, entryPrice := f.entry) else r;
        var basis := if f.entry != 0 then f.entry else EntryBasis(r.sig, r.entryPrice);
        && m'.rows
           == m.rows[id := if exited then Exited(row, f.reason.value, f.exit, Pnl(r.sig, basis, f.exit)) else row]
        && m'.log == m.log
                  + (if entered then [Entry(id, Note(GttEntryExecuted, f.entry, r.sig.entryLow))] else [])
                  + (if exited then [Entry(id, Note(GttExitExecuted, f.exit, 0))] else [])
        && m'.cache == (if exited then m.cache - {id}
                        else if entered && id in m.cache
                            then m.cache[id := m.cache[id].(status := Active, entryPrice := f.entry)]
                        else m.cache)
        && m'.index == if exited then map key | key in m.index :: Without(m.index[key], {id}) else m.index
    {
      var f, r := ReadLegs(reply.legs), m.rows[id];
      var a, b := Note(GttEntryExecuted, f.entry, r.sig.entryLow), Note(GttExitExecuted, f.exit, 0);
      Unlisted(m, id);
      TaggedOne(id, a);
      TaggedOne(id, b);
      TaggedAppend(id, [a], [b]);
      assert [] + [b] == [b];
    }

    static lemma NotListed(m: State, id: int)
      requires Coherent(m) && id !in m.cache
      ensures forall key :: key in m.index ==> id !in m.index[key]
    {
    }

    /** Nothing to take out of the index when the signal is not cached. */
    static lemma Unlisted(m: State, id: int)
      requires Coherent(m)
      ensures id !in m.cache ==> (map key | key in m.index :: Without(m.index[key], {id})) == m.index
    {
      if id !in m.cache {
        forall key | key in m.index ensures Without(m.index[key], {id}) == m.index[key] {
          NotListed(m, id);
          NothingToDrop(m.index[key], {id});
        }
      }
    }
  }
}
