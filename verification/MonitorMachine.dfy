/**
 The whole monitor of price_monitor.py: the signals table, the price_events table, the cache and
 the instrument index, and the atomic steps that change them.

 `Step` says what each step does to all signals at once; PriceMonitor.dfy shows that the loops
 of the source do exactly that.
 */
module MonitorMachine {
  import opened Options
  import opened SignalStep

  datatype Entry = Entry(id: int, note: Note)

  datatype State = State(rows: map<int, Row>, cache: map<int, Cached>,
                         index: map<string, seq<int>>, log: seq<Entry>)

  function Listed(m: State, key: string): seq<int> {
    if key in m.index then m.index[key] else []
  }

  predicate NoDuplicates(ids: seq<int>) {
    forall i, j :: 0 <= i < j < |ids| ==> ids[i] != ids[j]
  }

  /** Every cached signal has a row that it agrees with. */
  predicate CacheMatches(rows: map<int, Row>, cache: map<int, Cached>) {
    forall id :: id in cache ==> id in rows && Agree(cache[id], rows[id])
  }

  /** Every cached id is indexed exactly once, under its own instrument, and nothing else is. */
  predicate IndexMatches(cache: map<int, Cached>, index: map<string, seq<int>>) {
    && (forall id :: id in cache ==> var key := cache[id].sig.key; key != "" && key in index && id in index[key])
    && (forall key :: key in index ==> NoDuplicates(index[key]))
    && (forall key, id :: key in index && id in index[key] ==> id in cache && cache[id].sig.key == key)
  }

  predicate LogKnown(rows: map<int, Row>, log: seq<Entry>) {
    forall i :: 0 <= i < |log| ==> log[i].id in rows
  }

  predicate Coherent(m: State) {
    CacheMatches(m.rows, m.cache) && IndexMatches(m.cache, m.index) && LogKnown(m.rows, m.log)
  }

  // ----- Ticks -----

  function Without(ids: seq<int>, gone: set<int>): (rest: seq<int>)
    ensures forall id :: id in rest <==> id in ids && id !in gone
    ensures NoDuplicates(ids) ==> NoDuplicates(rest)
  {
    if ids == [] then []
    else if ids[0] in gone then Without(ids[1..], gone)
    else
      var rest := Without(ids[1..], gone);
      assert forall id :: id in ids <==> id == ids[0] || id in ids[1..];
      [ids[0]] + rest
  }

  function Tagged(id: int, notes: seq<Note>): seq<Entry> {
    seq(|notes|, i requires 0 <= i < |notes| => Entry(id, notes[i]))
  }

  predicate Stored(m: State, id: int) { id in m.cache && id in m.rows }

  function TickResult(m: State, id: int, p: int): Result
    requires Stored(m, id)
  {
    OnTick(m.cache[id], m.rows[id], p)
  }

  function Gone(m: State, p: int, done: seq<int>): set<int> {
    set id | id in done && Stored(m, id) && TickResult(m, id, p).cached.None?
  }

  function RowsAfter(m: State, p: int, done: seq<int>): map<int, Row> {
    map id | id in m.rows :: if id in done && Stored(m, id) then TickResult(m, id, p).row else m.rows[id]
  }

  function CacheAfter(m: State, p: int, done: seq<int>): map<int, Cached> {
    map id | id in m.cache && id !in Gone(m, p, done) ::
      if id in done && Stored(m, id) then TickResult(m, id, p).cached.value else m.cache[id]
  }

  function TickLog(m: State, p: int, done: seq<int>): seq<Entry>
    requires forall id :: id in done ==> Stored(m, id)
  {
    if done == [] then []
    else
      var id := done[|done| - 1];
      TickLog(m, p, done[..|done| - 1]) + Tagged(id, TickResult(m, id, p).notes)
  }

  /** A tick on `key` at price p, after the signals of `done` have been looked at. */
  function TickOn(m: State, key: string, p: int, done: seq<int>): State
    requires key in m.index && forall id :: id in done ==> Stored(m, id)
  {
    State(RowsAfter(m, p, done), CacheAfter(m, p, done),
          m.index[key := Without(m.index[key], Gone(m, p, done))],
          m.log + TickLog(m, p, done))
  }

  function Tick(m: State, key: string, p: int): State
    requires Coherent(m)
  {
    if p <= 0 || key !in m.index then m else TickOn(m, key, p, m.index[key])
  }

  // ----- Rebuild -----

  /** `order` is the order in which the SELECT returned the watchable rows. */
  ghost predicate Enumerates(rows: map<int, Row>, order: seq<int>) {
    && NoDuplicates(order)
    && forall id :: id in order <==> id in rows && Watchable(rows[id].status)
  }

  predicate Cacheable(r: Row) { Watchable(r.status) && r.sig.key != "" }

  function WithKey(rows: map<int, Row>, order: seq<int>, key: string): seq<int> {
    if order == [] then []
    else
      var n := |order| - 1;
      WithKey(rows, order[..n], key)
      + (if order[n] in rows && rows[order[n]].sig.key == key then [order[n]] else [])
  }

  lemma {:induction false} WithKeyMeaning(rows: map<int, Row>, order: seq<int>, key: string)
    ensures forall id :: id in WithKey(rows, order, key) <==> id in order && id in rows && rows[id].sig.key == key
    ensures NoDuplicates(order) ==> NoDuplicates(WithKey(rows, order, key))
  {
    if order != [] {
      var n := |order| - 1;
      WithKeyMeaning(rows, order[..n], key);
      assert forall id :: id in order <==> id in order[..n] || id == order[n];
    }
  }

  function Keys(rows: map<int, Row>, order: seq<int>): set<string> {
    set id | id in order && id in rows && rows[id].sig.key != "" :: rows[id].sig.key
  }

  function CacheFrom(rows: map<int, Row>, order: seq<int>): map<int, Cached> {
    map id | id in rows && id in order && rows[id].sig.key != "" :: FreshCached(rows[id])
  }

  function IndexFrom(rows: map<int, Row>, order: seq<int>): map<string, seq<int>> {
    map key | key in Keys(rows, order) :: WithKey(rows, order, key)
  }

  function Rebuild(m: State, order: seq<int>): State {
    m.(cache := CacheFrom(m.rows, order), index := IndexFrom(m.rows, order))
  }

  // ----- Reconciliation and new signals -----

  function CachedOf(m: State, id: int): Option<Cached> {
    if id in m.cache then Some(m.cache[id]) else None
  }

  function Put(cache: map<int, Cached>, id: int, c: Option<Cached>): map<int, Cached> {
    if c.Some? then cache[id := c.value] else cache - {id}
  }

  function Reconcile(m: State, id: int, reply: Reply): State
    requires id in m.rows
  {
    var res := OnReply(CachedOf(m, id), m.rows[id], reply);
    State(m.rows[id := res.row],
          Put(m.cache, id, res.cached),
          if res.cached.None? then map key | key in m.index :: Without(m.index[key], {id}) else m.index,
          m.log + Tagged(id, res.notes))
  }

  function NewRow(sig: Signal, placed: bool, hasGtt: bool): Row {
    Row(sig, if placed then Pending else Failed, 0, None, None, hasGtt)
  }

  // ----- Steps and runs -----

  datatype Op =
    | DoTick(key: string, p: int)
    | DoRebuild(order: seq<int>)
    | DoReconcile(id: int, reply: Reply)
    | DoInsert(id: int, sig: Signal, placed: bool, hasGtt: bool)

  /** What the callers guarantee: the reconciler asks only about watchable rows that have a GTT. */
  ghost predicate Enabled(m: State, op: Op) {
    match op
    case DoTick(_, _) => true
    case DoRebuild(order) => Enumerates(m.rows, order)
    case DoReconcile(id, _) => id in m.rows && Watchable(m.rows[id].status) && m.rows[id].hasGtt
    case DoInsert(id, _, _, _) => id !in m.rows
  }

  function Step(m: State, op: Op): (m': State)
    requires Coherent(m) && Enabled(m, op)
    ensures Coherent(m')
  {
    StepCoherent(m, op);
    StepRaw(m, op)
  }

  function StepRaw(m: State, op: Op): State
    requires Coherent(m) && Enabled(m, op)
  {
    match op
    case DoTick(key, p) => Tick(m, key, p)
    case DoRebuild(order) => Rebuild(m, order)
    case DoReconcile(id, reply) => Reconcile(m, id, reply)
    case DoInsert(id, sig, placed, hasGtt) => m.(rows := m.rows[id := NewRow(sig, placed, hasGtt)])
  }

  lemma {:induction false} TickLogIds(m: State, p: int, done: seq<int>)
    requires forall id :: id in done ==> Stored(m, id)
    ensures forall i :: 0 <= i < |TickLog(m, p, done)| ==> TickLog(m, p, done)[i].id in done
  {
    if done != [] {
      TickLogIds(m, p, done[..|done| - 1]);
    }
  }

  lemma TickKeepsCached(m: State, p: int, done: seq<int>)
    requires CacheMatches(m.rows, m.cache)
    ensures var cache := CacheAfter(m, p, done);
      && CacheMatches(RowsAfter(m, p, done), cache)
      && forall id :: id in cache ==> cache[id].sig == m.cache[id].sig
  {
    var rows, cache := RowsAfter(m, p, done), CacheAfter(m, p, done);
    forall id | id in cache
      ensures id in rows && Agree(cache[id], rows[id]) && cache[id].sig == m.cache[id].sig
    {
      TickKeepsAgreement(m.cache[id], m.rows[id], p);
    }
  }

  lemma DropKeepsIndex(cache: map<int, Cached>, index: map<string, seq<int>>,
                       kept: map<int, Cached>, key: string, gone: set<int>)
    requires IndexMatches(cache, index) && key in index
    requires forall id :: id in gone ==> id in index[key]
    requires forall id :: id in kept <==> id in cache && id !in gone
    requires forall id :: id in kept ==> kept[id].sig == cache[id].sig
    ensures IndexMatches(kept, index[key := Without(index[key], gone)])
  {
    forall k, id | k in index && k != key && id in index[k]
      ensures id !in gone
    {
      assert cache[id].sig.key == k;
    }
  }

  lemma TickCoherent(m: State, key: string, p: int)
    requires Coherent(m) && key in m.index
    ensures Coherent(TickOn(m, key, p, m.index[key]))
  {
    TickLogIds(m, p, m.index[key]);
    hide OnTick, Agree, IndexMatches;
    var ids := m.index[key];
    TickKeepsCached(m, p, ids);
    DropKeepsIndex(m.cache, m.index, CacheAfter(m, p, ids), key, Gone(m, p, ids));
  }

  lemma RebuildCoherent(m: State, order: seq<int>)
    requires Coherent(m) && Enumerates(m.rows, order)
    ensures Coherent(Rebuild(m, order))
  {
    var m' := Rebuild(m, order);
    forall id | id in m'.cache
      ensures Agree(m'.cache[id], m'.rows[id]) && m'.cache[id].sig.key != ""
      ensures id in Listed(m', m'.cache[id].sig.key)
    {
      var key := m.rows[id].sig.key;
      assert key in Keys(m.rows, order);
      WithKeyMeaning(m.rows, order, key);
    }
    forall key | key in m'.index
      ensures NoDuplicates(m'.index[key])
      ensures forall id :: id in m'.index[key] ==> id in m'.cache && m'.cache[id].sig.key == key
    {
      WithKeyMeaning(m.rows, order, key);
    }
  }

  /** The index after one signal has been given a new cache entry, or none. */
  lemma PutKeepsIndex(cache: map<int, Cached>, index: map<string, seq<int>>, id: int, c: Option<Cached>)
    requires IndexMatches(cache, index)
    requires c.Some? ==> id in cache && c.value.sig == cache[id].sig
    ensures IndexMatches(Put(cache, id, c),
                         if c.None? then map key | key in index :: Without(index[key], {id}) else index)
  {
  }

  lemma ReconcileCoherent(m: State, id: int, reply: Reply)
    requires Coherent(m) && id in m.rows
    ensures Coherent(Reconcile(m, id, reply))
  {
    hide OnReply, IndexMatches;
    ReplyKeepsAgreement(CachedOf(m, id), m.rows[id], reply);
    PutKeepsIndex(m.cache, m.index, id, OnReply(CachedOf(m, id), m.rows[id], reply).cached);
  }

  lemma StepCoherent(m: State, op: Op)
    requires Coherent(m) && Enabled(m, op)
    ensures Coherent(StepRaw(m, op))
  {
    match op
    case DoTick(key, p) => if p > 0 && key in m.index { TickCoherent(m, key, p); }
    case DoRebuild(order) => RebuildCoherent(m, order);
    case DoReconcile(id, reply) => ReconcileCoherent(m, id, reply);
    case DoInsert(_, _, _, _) =>
  }

  ghost predicate Legal(m: State, ops: seq<Op>)
    requires Coherent(m)
    decreases |ops|
  {
    ops == [] || (Enabled(m, ops[0]) && Legal(Step(m, ops[0]), ops[1..]))
  }

  function Run(m: State, ops: seq<Op>): (m': State)
    requires Coherent(m) && Legal(m, ops)
    ensures Coherent(m')
    decreases |ops|
  {
    if ops == [] then m else Run(Step(m, ops[0]), ops[1..])
  }

  // ----- One signal's view of a run -----

  function NotesOf(log: seq<Entry>, id: int): seq<Note> {
    if log == [] then []
    else
      var n := |log| - 1;
      NotesOf(log[..n], id) + (if log[n].id == id then [log[n].note] else [])
  }

  function ViewOf(m: State, id: int): Option<Result> {
    if id in m.rows then Some(Result(m.rows[id], CachedOf(m, id), NotesOf(m.log, id))) else None
  }

  function StepView(v: Option<Result>, id: int, op: Op): Option<Result> {
    match op
    case DoTick(key, p) =>
      if v.Some? && v.value.cached.Some? && v.value.row.sig.key == key && p > 0 then
        var t := OnTick(v.value.cached.value, v.value.row, p);
        Some(t.(notes := v.value.notes + t.notes))
      else v
    case DoRebuild(_) =>
      if v.None? then v
      else Some(v.value.(cached := if Cacheable(v.value.row) then Some(FreshCached(v.value.row)) else None))
    case DoReconcile(i, reply) =>
      if v.None? || i != id then v
      else
        var t := OnReply(v.value.cached, v.value.row, reply);
        Some(t.(notes := v.value.notes + t.notes))
    case DoInsert(i, sig, placed, hasGtt) =>
      if i != id then v else Some(Result(NewRow(sig, placed, hasGtt), None, []))
  }

  function RunView(v: Option<Result>, id: int, ops: seq<Op>): Option<Result>
    decreases |ops|
  {
    if ops == [] then v else RunView(StepView(v, id, ops[0]), id, ops[1..])
  }

  lemma {:induction false} NotesOfAppend(a: seq<Entry>, b: seq<Entry>, id: int)
    ensures NotesOf(a + b, id) == NotesOf(a, id) + NotesOf(b, id)
  {
    if b == [] {
      assert a + b == a;
    } else {
      assert (a + b)[..|a + b| - 1] == a + b[..|b| - 1];
      NotesOfAppend(a, b[..|b| - 1], id);
    }
  }

  lemma {:induction false} NotesOfTagged(i: int, notes: seq<Note>, id: int)
    ensures NotesOf(Tagged(i, notes), id) == if i == id then notes else []
  {
    if notes != [] {
      var n := |notes| - 1;
      assert Tagged(i, notes)[..n] == Tagged(i, notes[..n]);
      NotesOfTagged(i, notes[..n], id);
    }
  }

  lemma {:induction false} NotesOfTick(m: State, p: int, done: seq<int>, id: int)
    requires NoDuplicates(done) && forall i :: i in done ==> Stored(m, i)
    ensures NotesOf(TickLog(m, p, done), id) == if id in done then TickResult(m, id, p).notes else []
  {
    hide OnTick;
    if done != [] {
      var n := |done| - 1;
      var notes := TickResult(m, done[n], p).notes;
      NotesOfTick(m, p, done[..n], id);
      NotesOfAppend(TickLog(m, p, done[..n]), Tagged(done[n], notes), id);
      NotesOfTagged(done[n], notes, id);
      assert id in done <==> id in done[..n] || id == done[n];
    }
  }

  lemma {:induction false} NoNotes(log: seq<Entry>, id: int)
    requires forall i :: 0 <= i < |log| ==> log[i].id != id
    ensures NotesOf(log, id) == []
  {
    if log != [] {
      NoNotes(log[..|log| - 1], id);
    }
  }

  lemma TickProjects(m: State, key: string, p: int, id: int)
    requires Coherent(m)
    ensures ViewOf(Tick(m, key, p), id) == StepView(ViewOf(m, id), id, DoTick(key, p))
  {
    if id in m.cache {
      assert id in Listed(m, m.cache[id].sig.key);
    }
    if p > 0 && key in m.index {
      var ids := m.index[key];
      var m' := TickOn(m, key, p, ids);
      NotesOfTick(m, p, ids, id);
      NotesOfAppend(m.log, TickLog(m, p, ids), id);
      if id in ids {
        assert m'.rows[id] == TickResult(m, id, p).row;
        assert CachedOf(m', id) == TickResult(m, id, p).cached;
      } else {
        assert id in m.rows ==> m'.rows[id] == m.rows[id];
        assert CachedOf(m', id) == CachedOf(m, id);
        assert NotesOf(m.log, id) + [] == NotesOf(m.log, id);
        assert ViewOf(m', id) == ViewOf(m, id);
      }
    }
  }

  lemma ReconcileProjects(m: State, i: int, reply: Reply, id: int)
    requires Coherent(m) && i in m.rows
    ensures ViewOf(Reconcile(m, i, reply), id) == StepView(ViewOf(m, id), id, DoReconcile(i, reply))
  {
    var res := OnReply(CachedOf(m, i), m.rows[i], reply);
    var m' := Reconcile(m, i, reply);
    NotesOfAppend(m.log, Tagged(i, res.notes), id);
    NotesOfTagged(i, res.notes, id);
    if i == id {
      assert CachedOf(m', id) == res.cached;
    } else {
      assert CachedOf(m', id) == CachedOf(m, id);
      assert NotesOf(m.log, id) + [] == NotesOf(m.log, id);
      assert ViewOf(m', id) == ViewOf(m, id);
    }
  }

  /** Each step acts on every signal by itself: no signal is skipped, none disturbs another. */
  lemma StepProjects(m: State, op: Op, id: int)
    requires Coherent(m) && Enabled(m, op)
    ensures ViewOf(Step(m, op), id) == StepView(ViewOf(m, id), id, op)
  {
    match op
    case DoTick(key, p) => TickProjects(m, key, p, id);
    case DoRebuild(order) =>
    case DoReconcile(i, reply) => ReconcileProjects(m, i, reply, id);
    case DoInsert(i, _, _, _) => if i == id { NoNotes(m.log, id); }
  }

  /** So a run of the monitor is, for each signal, a run of the one-signal machine. */
  lemma {:induction false} RunProjects(m: State, ops: seq<Op>, id: int)
    requires Coherent(m) && Legal(m, ops)
    ensures ViewOf(Run(m, ops), id) == RunView(ViewOf(m, id), id, ops)
    decreases |ops|
  {
    if ops != [] {
      StepProjects(m, ops[0], id);
      RunProjects(Step(m, ops[0]), ops[1..], id);
    }
  }
}
