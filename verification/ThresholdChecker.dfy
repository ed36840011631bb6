/**
 The ThresholdChecker object itself: lists of cached signals per instrument, changed in place while
 a check walks a snapshot of one of them. Each method is shown to do steps of ExpiryMachine.
 */
module ThresholdChecker {
  import opened Options
  import opened ExpiryMachine
  import opened ExpiryRuns

  const REFRESH_MS := 60_000

  // ----- A tick on an instrument as steps of the machine -----

  /** A visit, followed by the cancellation if the visit decides for it. */
  function VisitOps(on: bool, s: State, id: int, p: int, time: int): seq<Op> {
    if DoVisit(on, s, id, p, time).cancelling.Some? then [Visit(id, p, time), Cancel] else [Visit(id, p, time)]
  }

  function SweepOps(on: bool, s: State, ids: seq<int>, p: int, time: int): seq<Op> {
    if ids == [] then []
    else
      var before := SweepOps(on, s, ids[..|ids| - 1], p, time);
      before + VisitOps(on, Run(on, s, before), ids[|ids| - 1], p, time)
  }

  function Visited(on: bool, s: State, id: int, p: int, time: int): State {
    var v := DoVisit(on, s, id, p, time);
    if v.cancelling.Some? then DoCancel(v) else v
  }

  lemma CancelDone(s: State)
    ensures DoCancel(s).cancelling.None?
  {
  }

  lemma VisitOpsRun(on: bool, s: State, before: seq<Op>, id: int, p: int, time: int)
    requires Run(on, s, before).cancelling.None?
    ensures var at := Run(on, s, before);
      && Run(on, s, before + VisitOps(on, at, id, p, time)) == Visited(on, at, id, p, time)
      && (Legal(on, s, before) ==> Legal(on, s, before + VisitOps(on, at, id, p, time)))
      && Visited(on, at, id, p, time).cancelling.None?
  {
    hide DoVisit, DoCancel, Run, Legal;
    var at := Run(on, s, before);
    var visit := before + [Visit(id, p, time)];
    MoreSteps(on, s, before, Visit(id, p, time));
    MoreSteps(on, s, visit, Cancel);
    CancelDone(DoVisit(on, at, id, p, time));
    assert before + [Visit(id, p, time), Cancel] == visit + [Cancel];
  }

  lemma SweepOneMore(on: bool, s: State, ids: seq<int>, id: int, p: int, time: int)
    requires Run(on, s, SweepOps(on, s, ids, p, time)).cancelling.None?
    ensures var before := SweepOps(on, s, ids, p, time);
      && Run(on, s, SweepOps(on, s, ids + [id], p, time)) == Visited(on, Run(on, s, before), id, p, time)
      && (Legal(on, s, before) ==> Legal(on, s, SweepOps(on, s, ids + [id], p, time)))
      && Run(on, s, SweepOps(on, s, ids + [id], p, time)).cancelling.None?
  {
    hide Run, Legal, VisitOps, Visited;
    assert (ids + [id])[..|ids|] == ids;
    VisitOpsRun(on, s, SweepOps(on, s, ids, p, time), id, p, time);
  }

  lemma {:induction false} SweepIsLegal(on: bool, s: State, ids: seq<int>, p: int, time: int)
    requires s.cancelling.None?
    ensures var ops := SweepOps(on, s, ids, p, time);
      Legal(on, s, ops) && Run(on, s, ops).cancelling.None?
  {
    hide Run, Legal, VisitOps, Visited;
    if ids == [] {
      NoOps(on, s);
    } else {
      SweepIsLegal(on, s, ids[..|ids| - 1], p, time);
      SweepOneMore(on, s, ids[..|ids| - 1], ids[|ids| - 1], p, time);
      assert ids[..|ids| - 1] + [ids[|ids| - 1]] == ids;
    }
  }

  lemma NoOps(on: bool, s: State)
    ensures Legal(on, s, []) && Run(on, s, []) == s
  {
  }

  /** What the two states say about one signal. */
  predicate SameSignal(a: State, b: State, id: int) {
    && (id in a.mem <==> id in b.mem) && (id in a.mem ==> a.mem[id] == b.mem[id])
    && (id in a.rows <==> id in b.rows) && (id in a.rows ==> a.rows[id] == b.rows[id])
    && multiset(a.cancels)[id] == multiset(b.cancels)[id]
  }

  /** What the database answers to the update of a signal's row. */
  datatype Answer = Answered | Raised(committed: bool)

  function AnswerFor(answers: map<int, Answer>, id: int): Answer {
    if id in answers then answers[id] else Answered
  }

  /** The visit decides for a cancellation, and its update raises: the exception ends the whole tick. */
  predicate Interrupted(on: bool, s: State, id: int, p: int, time: int, a: Answer) {
    a.Raised? && DoVisit(on, s, id, p, time).cancelling.Some?
  }

  function AfterFailure(on: bool, s: State, id: int, p: int, time: int, a: Answer): State
    requires a.Raised?
  {
    DoCancelFails(DoVisit(on, s, id, p, time), id, a.committed)
  }

  function FailedVisit(id: int, p: int, time: int, a: Answer): seq<Op>
    requires a.Raised?
  {
    [Visit(id, p, time), CancelFails(id, a.committed)]
  }

  lemma VisitCancels(on: bool, s: State, id: int, p: int, time: int)
    requires s.cancelling.None?
    ensures DoVisit(on, s, id, p, time).cancelling in {None, Some(id)}
  {
  }

  /** A visit whose update raises is two steps of the machine. */
  lemma FailedVisitRun(on: bool, s: State, before: seq<Op>, id: int, p: int, time: int, a: Answer)
    requires Legal(on, s, before) && Run(on, s, before).cancelling.None?
    requires Interrupted(on, Run(on, s, before), id, p, time, a)
    ensures Legal(on, s, before + FailedVisit(id, p, time, a))
    ensures Run(on, s, before + FailedVisit(id, p, time, a)) == AfterFailure(on, Run(on, s, before), id, p, time, a)
  {
    hide DoVisit, Run, Legal;
    VisitCancels(on, Run(on, s, before), id, p, time);
    MoreSteps(on, s, before, Visit(id, p, time));
    MoreSteps(on, s, before + [Visit(id, p, time)], CancelFails(id, a.committed));
    assert before + FailedVisit(id, p, time, a) == before + [Visit(id, p, time)] + [CancelFails(id, a.committed)];
  }

  lemma Same(s: State, id: int)
    ensures SameSignal(s, s, id)
  {
  }

  lemma Chain(a: State, b: State, c: State, id: int)
    requires SameSignal(a, b, id) && SameSignal(b, c, id)
    ensures SameSignal(a, c, id)
  {
  }

  lemma VisitIsLocal(on: bool, a: State, b: State, id: int, p: int, time: int)
    requires a.cancelling.None? && b.cancelling.None? && SameSignal(a, b, id)
    ensures var a', b' := DoVisit(on, a, id, p, time), DoVisit(on, b, id, p, time);
      && SameSignal(a', b', id) && a'.cancelling == b'.cancelling && (a'.cancelling.Some? ==> a'.cancelling.value == id)
      && forall other :: other != id ==> SameSignal(a', a, other)
  {
    hide QueueAfter, Expires, Touching;
  }

  lemma CancelIsLocal(a: State, b: State, id: int)
    requires a.cancelling == b.cancelling == Some(id) && SameSignal(a, b, id)
    ensures SameSignal(DoCancel(a), DoCancel(b), id)
    ensures forall other :: other != id ==> SameSignal(DoCancel(a), a, other)
  {
    hide Keys;
  }

  lemma VisitedIsLocal(on: bool, a: State, b: State, id: int, p: int, time: int)
    requires a.cancelling.None? && b.cancelling.None? && SameSignal(a, b, id)
    ensures SameSignal(Visited(on, a, id, p, time), Visited(on, b, id, p, time), id)
    ensures forall other :: other != id ==> SameSignal(Visited(on, a, id, p, time), a, other)
  {
    hide DoVisit, DoCancel, SameSignal;
    VisitIsLocal(on, a, b, id, p, time);
    var a', b' := DoVisit(on, a, id, p, time), DoVisit(on, b, id, p, time);
    if a'.cancelling.Some? {
      CancelIsLocal(a', b', id);
      forall other | other != id ensures SameSignal(DoCancel(a'), a, other) {
        Chain(DoCancel(a'), a', a, other);
      }
    }
  }

  /**
   One tick is a pointwise map: although the list shrinks under the walk, every signal of the snapshot
   gets what a tick gives to it alone, and every other signal is left as it was.
   */
  lemma {:induction false} SweepIsPointwise(on: bool, s: State, ids: seq<int>, p: int, time: int, id: int)
    requires s.cancelling.None?
    requires forall i, j :: 0 <= i < j < |ids| ==> ids[i] != ids[j]
    ensures var alone := if id in ids then Visited(on, s, id, p, time) else s;
      SameSignal(Run(on, s, SweepOps(on, s, ids, p, time)), alone, id)
  {
    hide Run, Visited, VisitOps, SameSignal;
    if ids == [] {
      NoOps(on, s);
      Same(s, id);
    } else {
      var n := |ids| - 1;
      SweepIsPointwise(on, s, ids[..n], p, time, id);
      SweepIsLegal(on, s, ids[..n], p, time);
      SweepOneMore(on, s, ids[..n], ids[n], p, time);
      assert ids[..n] + [ids[n]] == ids;
      var before := Run(on, s, SweepOps(on, s, ids[..n], p, time));
      if id == ids[n] {
        VisitedIsLocal(on, before, s, id, p, time);
      } else {
        Same(before, ids[n]);
        VisitedIsLocal(on, before, before, ids[n], p, time);
        Chain(Visited(on, before, ids[n], p, time), before, if id in ids then Visited(on, s, id, p, time) else s, id);
      }
    }
  }

  // ----- Lists and the set of cached signals -----

  predicate Distinct(list: seq<Sig>) {
    forall i, j :: 0 <= i < j < |list| ==> list[i].id != list[j].id
  }

  /** The lists hold exactly the cached signals, each once, under its own instrument; none is empty. */
  ghost predicate Lists(lists: map<string, seq<Sig>>, mem: map<int, Sig>) {
    && (forall k :: k in lists ==> lists[k] != [] && Distinct(lists[k]))
    && (forall k, sig :: k in lists && sig in lists[k] ==>
        sig.terms.key == Some(k) && sig.id in mem && mem[sig.id] == sig)
    && (forall id :: id in mem ==>
          && mem[id].id == id && mem[id].terms.key.Some?
          && mem[id].terms.key.value in lists && mem[id] in lists[mem[id].terms.key.value])
  }

  function ListOf(lists: map<string, seq<Sig>>, key: string): seq<Sig> {
    if key in lists then lists[key] else []
  }

  function Find(list: seq<Sig>, id: int): Option<Sig> {
    if list == [] then None else if list[0].id == id then Some(list[0]) else Find(list[1..], id)
  }

  function Without(list: seq<Sig>, id: int): seq<Sig> {
    if list == [] then []
    else (if list[0].id == id then [] else [list[0]]) + Without(list[1..], id)
  }

  function Ids(list: seq<Sig>): seq<int> { seq(|list|, i requires 0 <= i < |list| => list[i].id) }

  lemma {:induction false} FindFinds(list: seq<Sig>, id: int)
    ensures Find(list, id).Some? ==> Find(list, id).value in list && Find(list, id).value.id == id
    ensures Find(list, id).None? ==> forall sig :: sig in list ==> sig.id != id
  {
    if list != [] {
      FindFinds(list[1..], id);
      assert list == [list[0]] + list[1..];
    }
  }

  lemma {:induction false} WithoutMembers(list: seq<Sig>, id: int)
    ensures forall sig :: sig in Without(list, id) <==> sig in list && sig.id != id
    ensures Distinct(list) ==> Distinct(Without(list, id))
  {
    if list != [] {
      WithoutMembers(list[1..], id);
      assert list == [list[0]] + list[1..];
      if Distinct(list) {
        assert forall sig :: sig in list[1..] ==> sig.id != list[0].id;
      }
    }
  }

  lemma KeysOfLists(lists: map<string, seq<Sig>>, mem: map<int, Sig>)
    requires Lists(lists, mem)
    ensures Keys(mem) == lists.Keys
  {
    forall k | k in lists ensures k in Keys(mem) {
      var sig := lists[k][0];
      assert sig in lists[k];
      assert sig.id in mem && mem[sig.id].terms.key == Some(k);
    }
  }

  lemma CachedIsListed(lists: map<string, seq<Sig>>, mem: map<int, Sig>, key: string, id: int)
    requires Lists(lists, mem) && (id in mem ==> mem[id].terms.key == Some(key))
    ensures Find(ListOf(lists, key), id) == if id in mem then Some(mem[id]) else None
  {
    FindFinds(ListOf(lists, key), id);
  }

  lemma ReplacedList(list: seq<Sig>, i: nat, sig: Sig)
    requires Distinct(list) && i < |list| && sig.id == list[i].id
    ensures Distinct(list[i := sig])
    ensures forall x :: x in list[i := sig] ==> x == sig || (x in list && x.id != sig.id)
    ensures forall x :: x in list && x.id != sig.id ==> x in list[i := sig]
    ensures sig in list[i := sig]
  {
    var after := list[i := sig];
    assert after[i] == sig;
    forall x | x in list && x.id != sig.id ensures x in after {
      var j :| 0 <= j < |list| && list[j] == x;
      assert after[j] == x;
    }
  }

  /** Writing to a dictionary in place changes one element of one list. */
  lemma Replaced(lists: map<string, seq<Sig>>, mem: map<int, Sig>, key: string, i: nat, sig: Sig)
    requires Lists(lists, mem) && key in lists && i < |lists[key]|
    requires sig.id == lists[key][i].id && sig.terms == lists[key][i].terms
    ensures Lists(lists[key := lists[key][i := sig]], mem[sig.id := sig])
  {
    var list := lists[key];
    assert list[i] in list;
    ReplacedList(list, i, sig);
    hide Distinct;
  }

  function Evicted(lists: map<string, seq<Sig>>, key: string, id: int): map<string, seq<Sig>>
    requires key in lists
  {
    var rest := Without(lists[key], id);
    if rest == [] then lists - {key} else lists[key := rest]
  }

  predicate Cached(mem: map<int, Sig>, key: string, sig: Sig) {
    sig.id in mem && mem[sig.id] == sig && sig.terms.key == Some(key)
  }

  lemma StillListed(lists: map<string, seq<Sig>>, mem: map<int, Sig>, key: string, sig: Sig)
    requires Lists(lists, mem) && Cached(mem, key, sig)
    ensures key in lists && sig in lists[key]
  {
  }

  lemma EvictedHolds(lists: map<string, seq<Sig>>, mem: map<int, Sig>, key: string, id: int)
    requires Lists(lists, mem) && id in mem && mem[id].terms.key == Some(key)
    ensures Lists(Evicted(lists, key, id), mem - {id})
  {
    WithoutMembers(lists[key], id);
    hide Distinct, Without;
  }

  lemma EvictedLists(lists: map<string, seq<Sig>>, mem: map<int, Sig>, key: string, id: int)
    requires Lists(lists, mem) && id in mem && mem[id].terms.key == Some(key)
    ensures key in lists
    ensures Lists(Evicted(lists, key, id), mem - {id})
    ensures Keys(mem) - Keys(mem - {id}) == if Without(lists[key], id) == [] then {key} else {}
  {
    StillListed(lists, mem, key, mem[id]);
    hide Lists, Without, Keys, Distinct;
    EvictedHolds(lists, mem, key, id);
    KeysOfLists(lists, mem);
    KeysOfLists(Evicted(lists, key, id), mem - {id});
  }

  lemma Appended(lists: map<string, seq<Sig>>, mem: map<int, Sig>, key: string, sig: Sig)
    requires Lists(lists, mem) && sig.id !in mem && sig.terms.key == Some(key)
    ensures Lists(lists[key := ListOf(lists, key) + [sig]], mem[sig.id := sig])
  {
    var list := ListOf(lists, key);
    assert forall x :: x in list ==> x.id != sig.id;
    assert Distinct(list + [sig]);
  }


  // ----- Lemmas the methods below need -----

  /** The copies made of the first rows that a refresh reads. */
  function LoadedFrom(s: State, ids: seq<int>): map<int, Sig> {
    map id | id in s.rows && id in ids :: Loaded(s, id)
  }

  lemma LoadedMore(s: State, ids: seq<int>, id: int)
    requires id in s.rows
    ensures LoadedFrom(s, ids + [id]) == LoadedFrom(s, ids)[id := Loaded(s, id)]
  {
  }

  lemma LoadedAll(s: State, ids: seq<int>)
    requires forall id :: id in ids <==> id in s.rows && Watched(s.rows[id])
    ensures LoadedFrom(s, ids) == DoRefresh(s).mem
  {
  }

  /** Looking for the old dictionary in the instrument's list finds the cached signal. */
  lemma CarriesTouch(lists: map<string, seq<Sig>>, s: State, id: int)
    requires Lists(lists, s.mem) && Sound(s) && id in s.rows && s.rows[id].terms.key.Some?
    ensures var r := s.rows[id];
      var existing := Find(ListOf(lists, r.terms.key.value), id);
      Loaded(s, id) == Sig(id, r.terms, r.status != Pending, r.touched || (existing.Some? && existing.value.touched))
  {
    SoundAt(s, id);
    hide Lists, Sound, TouchHolds, CancelHolds;
    CachedIsListed(lists, s.mem, s.rows[id].terms.key.value, id);
  }

  lemma NoLists()
    ensures Lists(map[], map[])
  {
  }

  lemma FirstIs(t: Terms, p: int, k: nat)
    requires k <= |t.targets|
    requires forall i :: 0 <= i < k ==> !Reached(t.action, p, t.targets[i])
    requires k < |t.targets| ==> Reached(t.action, p, t.targets[k])
    ensures FirstReached(t, p, 0) == k
  {
  }

  lemma FailureKeepsSound(on: bool, s: State, id: int, p: int, time: int, a: Answer)
    requires Sound(s) && s.cancelling.None? && Interrupted(on, s, id, p, time, a)
    ensures Sound(AfterFailure(on, s, id, p, time, a))
  {
    hide Sound, DoVisit;
    VisitCancels(on, s, id, p, time);
    StepKeepsSound(on, s, Visit(id, p, time));
    StepKeepsSound(on, DoVisit(on, s, id, p, time), CancelFails(id, a.committed));
  }

  lemma VisitKeepsSound(on: bool, s: State, id: int, p: int, time: int)
    requires Sound(s) && s.cancelling.None?
    ensures Sound(Visited(on, s, id, p, time))
  {
    hide Sound, DoVisit, DoCancel;
    StepKeepsSound(on, s, Visit(id, p, time));
    var v := DoVisit(on, s, id, p, time);
    if v.cancelling.Some? {
      StepKeepsSound(on, v, Cancel);
    }
  }

  lemma IdsAt(list: seq<Sig>)
    ensures |Ids(list)| == |list| && forall n :: 0 <= n < |list| ==> Ids(list)[n] == list[n].id
  {
  }

  lemma SnapshotOf(lists: map<string, seq<Sig>>, mem: map<int, Sig>, key: string)
    requires Lists(lists, mem)
    ensures var ids := Ids(ListOf(lists, key));
      && (forall i, j :: 0 <= i < j < |ids| ==> ids[i] != ids[j])
      && (forall id :: id in ids <==> id in mem && mem[id].terms.key == Some(key))
    ensures forall i :: 0 <= i < |ListOf(lists, key)| ==> Cached(mem, key, ListOf(lists, key)[i])
  {
    var list := ListOf(lists, key);
    forall id | id in mem && mem[id].terms.key == Some(key) ensures id in Ids(list) {
      var i :| 0 <= i < |list| && list[i] == mem[id];
      assert Ids(list)[i] == id;
    }
    forall i | 0 <= i < |list| ensures Cached(mem, key, list[i]) {
      assert list[i] in list;
    }
  }

  /** A walk leaves the signals it has not reached yet as they were. */
  lemma OthersStayCached(on: bool, s: State, id: int, p: int, time: int, key: string, sig: Sig)
    requires s.cancelling.None? && sig.id != id && Cached(s.mem, key, sig)
    ensures Cached(Visited(on, s, id, p, time).mem, key, sig)
  {
    hide Visited;
    Same(s, id);
    VisitedIsLocal(on, s, s, id, p, time);
    assert SameSignal(Visited(on, s, id, p, time), s, sig.id);
  }

  lemma SweepNone(on: bool, s: State, p: int, time: int)
    ensures SweepOps(on, s, [], p, time) == []
  {
  }

  lemma SweepNext(on: bool, s: State, ids: seq<int>, n: nat, p: int, time: int)
    requires s.cancelling.None? && n < |ids|
    ensures Run(on, s, SweepOps(on, s, ids[..n + 1], p, time))
         == Visited(on, Run(on, s, SweepOps(on, s, ids[..n], p, time)), ids[n], p, time)
  {
    hide Run, Visited, SweepOps;
    SweepIsLegal(on, s, ids[..n], p, time);
    SweepOneMore(on, s, ids[..n], ids[n], p, time);
    assert ids[..n + 1] == ids[..n] + [ids[n]];
  }

  /** The walk did its visits up to the n-th, whose update raised. */
  predicate StoppedAt(on: bool, s: State, end: State, ids: seq<int>, n: nat, p: int, time: int,
                      answers: map<int, Answer>)
  {
    && n < |ids| && AnswerFor(answers, ids[n]).Raised?
    && var ops := SweepOps(on, s, ids[..n], p, time) + FailedVisit(ids[n], p, time, AnswerFor(answers, ids[n]));
       Legal(on, s, ops) && end == Run(on, s, ops)
  }

  lemma StopsAt(on: bool, s: State, ids: seq<int>, n: nat, p: int, time: int, answers: map<int, Answer>)
    requires s.cancelling.None? && n < |ids|
    requires var before := Run(on, s, SweepOps(on, s, ids[..n], p, time));
      Interrupted(on, before, ids[n], p, time, AnswerFor(answers, ids[n]))
    ensures var before, a := Run(on, s, SweepOps(on, s, ids[..n], p, time)), AnswerFor(answers, ids[n]);
      StoppedAt(on, s, AfterFailure(on, before, ids[n], p, time, a), ids, n, p, time, answers)
  {
    hide Run, Legal, SweepOps, Interrupted, AfterFailure, FailedVisit;
    SweepIsLegal(on, s, ids[..n], p, time);
    RaisedThen(on, s, ids, n, p, time, answers);
    FailedVisitRun(on, s, SweepOps(on, s, ids[..n], p, time), ids[n], p, time, AnswerFor(answers, ids[n]));
  }

  lemma RaisedThen(on: bool, s: State, ids: seq<int>, n: nat, p: int, time: int, answers: map<int, Answer>)
    requires n < |ids|
    requires Interrupted(on, Run(on, s, SweepOps(on, s, ids[..n], p, time)), ids[n], p, time,
                         AnswerFor(answers, ids[n]))
    ensures AnswerFor(answers, ids[n]).Raised?
  {
  }

  class Checker {
    const on: bool
    var thresholds: map<string, seq<Sig>>
    var trackedKeys: set<string>
    var lastRefresh: int
    // The database, the write queue and the requests to the broker.
    var rows: map<int, Row>
    var events: seq<Write>
    var queue: seq<Write>
    var cancels: seq<int>
    var failed: seq<int>
    ghost var mem: map<int, Sig>

    ghost function At(cancelling: Option<int>): State
      reads this
    {
      ExpiryMachine.State(rows, events, mem, trackedKeys, queue, cancels, failed, cancelling)
    }

    ghost function State(): State
      reads this
    {
      At(None)
    }

    ghost predicate Valid()
      reads this
    {
      Lists(thresholds, mem) && Sound(State())
    }

    /** A new process over a database; `keys` is what load_initial_keys selects. */
    constructor (on: bool, rows: map<int, Row>, keys: set<string>)
      requires forall k :: k in keys <==> exists id :: id in rows && Watched(rows[id]) && rows[id].terms.key == Some(k)
      ensures Valid() && this.on == on && this.rows == rows && mem == map[]
      ensures TracksAll(State())
    {
      this.on := on;
      this.rows := rows;
      thresholds, trackedKeys, lastRefresh := map[], keys, 0;
      events, queue, cancels, failed, mem := [], [], [], [], map[];
      new;
      StartIsSound(State());
    }

    method AddInstrument(key: string)
      requires Valid()
      modifies this
      ensures Valid() && State() == Step(on, old(State()), Subscribe(key))
    {
      StepKeepsSound(on, State(), Subscribe(key));
      if key != "" {
        trackedKeys := trackedKeys + {key};
      }
    }

    method RemoveInstrument(key: string)
      requires Valid()
      modifies this
      ensures Valid() && State() == Step(on, old(State()), Unsubscribe(key))
    {
      StepKeepsSound(on, State(), Unsubscribe(key));
      trackedKeys := trackedKeys - {key};
    }

    method Enqueue(w: Write)
      modifies this`queue
      ensures queue == Enqueued(old(queue), w)
    {
      if |queue| < QUEUE_SIZE {
        queue := queue + [w];
      }
    }

    /** One copy per watched row, keeping a touch the cache knows of; `order` is the order of the rows. */
    method CopyRows(order: seq<int>) returns (lists: map<string, seq<Sig>>)
      requires Valid()
      requires forall id :: id in order <==> id in rows && Watched(rows[id])
      requires forall i, j :: 0 <= i < j < |order| ==> order[i] != order[j]
      ensures Lists(lists, DoRefresh(State()).mem)
    {
      hide Lists, Sound, Keys, Distinct, Find, ListOf, Loaded, DoRefresh;
      ghost var before := State();
      lists := map[];
      NoLists();
      for n := 0 to |order|
        invariant Lists(lists, LoadedFrom(before, order[..n]))
      {
        var id := order[n];
        assert id in order;
        var row := rows[id];
        var key := row.terms.key.value;
        CarriesTouch(thresholds, before, id);
        var existing := Find(ListOf(thresholds, key), id);
        var sig := Sig(id, row.terms, row.status != Pending, row.touched || (existing.Some? && existing.value.touched));
        assert id !in order[..n];
        Appended(lists, LoadedFrom(before, order[..n]), key, sig);
        LoadedMore(before, order[..n], id);
        lists := lists[key := ListOf(lists, key) + [sig]];
        assert order[..n + 1] == order[..n] + [id];
      }
      assert order[..|order|] == order;
      LoadedAll(before, order);
    }

    method RefreshThresholds(order: seq<int>, now: int)
      requires Valid()
      requires forall id :: id in order <==> id in rows && Watched(rows[id])
      requires forall i, j :: 0 <= i < j < |order| ==> order[i] != order[j]
      modifies this
      ensures Valid()
      ensures if now - old(lastRefresh) < 60_000 then State() == old(State()) && lastRefresh == old(lastRefresh)
              else State() == DoRefresh(old(State())) && lastRefresh == now
    {
      hide Lists, Sound, Keys, Loaded;
      if now - lastRefresh < REFRESH_MS {
        return;
      }
      ghost var before := State();
      var lists := CopyRows(order);
      KeysOfLists(thresholds, mem);
      KeysOfLists(lists, DoRefresh(before).mem);
      StepKeepsSound(on, before, Refresh);
      trackedKeys := trackedKeys + (lists.Keys - thresholds.Keys) - (thresholds.Keys - lists.Keys);
      thresholds, lastRefresh := lists, now;
      mem := DoRefresh(before).mem;
    }

    /** The loop over the targets: the first one reached. */
    static method FirstTarget(t: Terms, p: int) returns (k: nat)
      ensures k <= |t.targets|
      ensures forall i :: 0 <= i < k ==> !Reached(t.action, p, t.targets[i])
      ensures k < |t.targets| ==> Reached(t.action, p, t.targets[k])
    {
      k := 0;
      while k < |t.targets|
        invariant k <= |t.targets|
        invariant forall i :: 0 <= i < k ==> !Reached(t.action, p, t.targets[i])
      {
        if Reached(t.action, p, t.targets[k]) {
          return;
        }
        k := k + 1;
      }
    }

    /** The broker is asked to cancel, the row is expired if it is still PENDING, the signal is evicted. */
    method CancelUnfilledGtts(key: string, id: int, a: Answer) returns (ok: bool)
      requires Lists(thresholds, mem) && key in thresholds && id in mem && mem[id].terms.key == Some(key)
      modifies this
      ensures ok == a.Answered? && Lists(thresholds, mem) && lastRefresh == old(lastRefresh)
      ensures var asked := old(At(Some(id))).(cancels := old(cancels) + [id]);
        State() == if ok then DoCancel(asked) else DoCancelFails(asked, id, a.committed)
      ensures thresholds == if ok then Evicted(old(thresholds), key, id) else old(thresholds)
    {
      hide Lists, Keys, Without;
      EvictedLists(thresholds, mem, key, id);
      cancels := cancels + [id];
      ok := ExpireIfPending(id, a);
      if !ok {
        failed := failed + [id];
        return;
      }
      var rest := Without(thresholds[key], id);
      if rest == [] {
        thresholds := thresholds - {key};
        trackedKeys := trackedKeys - {key};
      } else {
        thresholds := thresholds[key := rest];
      }
      mem := mem - {id};
    }

    /** UPDATE signals SET status = 'EXPIRED' WHERE id = ... AND status = 'PENDING'. */
    method ExpireIfPending(id: int, a: Answer) returns (ok: bool)
      modifies this`rows
      ensures ok == a.Answered? && rows == if ok || a.committed then Expire(old(rows), id) else old(rows)
    {
      ok := a.Answered?;
      if (ok || a.committed) && id in rows && rows[id].status == Pending {
        rows := rows[id := rows[id].(status := Expired)];
      }
    }

    /** The touched flag is set in the dictionary at once; its database write is queued. */
    method MarkTouched(key: string, i: nat, p: int) returns (sig: Sig)
      requires Lists(thresholds, mem) && key in thresholds && i < |thresholds[key]|
      modifies this`thresholds, this`mem, this`queue
      ensures Lists(thresholds, mem) && sig == Touching(on, old(thresholds[key][i]), p)
      ensures sig.id == old(thresholds[key][i].id) && sig.terms == old(thresholds[key][i].terms)
      ensures sig.id in mem && sig.id in old(mem) && old(mem)[sig.id] == old(thresholds[key][i])
      ensures mem == old(mem)[sig.id := sig] && sig.terms.key == Some(key) && key in thresholds
      ensures queue == if sig != old(thresholds[key][i]) then Enqueued(old(queue), SetTouched(sig.id)) else old(queue)
    {
      sig := thresholds[key][i];
      assert sig in thresholds[key];
      hide Distinct;
      if on && !sig.touched && InZone(sig.terms, p) {
        sig := sig.(touched := true);
        Replaced(thresholds, mem, key, i, sig);
        thresholds := thresholds[key := thresholds[key][i := sig]];
        mem := mem[sig.id := sig];
        Enqueue(SetTouched(sig.id));
      }
    }

    /** One dictionary of the list meets a tick; `a` is the database's answer if its row is to expire. */
    method CheckSignal(key: string, i: nat, p: int, time: int, a: Answer) returns (ok: bool)
      requires Valid() && key in thresholds && i < |thresholds[key]|
      modifies this
      ensures Valid() && lastRefresh == old(lastRefresh)
      ensures ok == !Interrupted(on, old(State()), old(thresholds[key][i].id), p, time, a)
      ensures var id := old(thresholds[key][i].id);
        State() == if ok then Visited(on, old(State()), id, p, time) else AfterFailure(on, old(State()), id, p, time, a)
    {
      hide Lists, Sound, Touching, InZone, FirstReached, DoCancel, DoCancelFails, Evicted;
      ghost var before := State();
      ghost var id := thresholds[key][i].id;
      VisitKeepsSound(on, before, id, p, time);
      if Interrupted(on, before, id, p, time, a) { FailureKeepsSound(on, before, id, p, time, a); }
      ok := true;
      var sig := MarkTouched(key, i, p);
      var k := FirstTarget(sig.terms, p);
      FirstIs(sig.terms, p, k);
      if k < |sig.terms.targets| {
        Enqueue(PriceEvent(sig.id, p, TargetReached(k)));
        if k == 0 && Expires(on, sig, p, time) {
          ok := CancelUnfilledGtts(key, sig.id, a);
        }
      } else if Stopped(sig.terms, p) {
        Enqueue(PriceEvent(sig.id, p, StoplossReached));
      }
    }

    /**
     A tick on an instrument: refresh if due, then walk a snapshot of the instrument's list, from which
     the walk itself evicts. The walk ends early where an update raises.
     */
    method Check(key: string, p: int, time: int, order: seq<int>, now: int, answers: map<int, Answer>)
      returns (ok: bool)
      requires Valid()
      requires forall id :: id in order <==> id in rows && Watched(rows[id])
      requires forall i, j :: 0 <= i < j < |order| ==> order[i] != order[j]
      modifies this
      ensures Valid()
      ensures exists ids: seq<int> ::
        var due := now - old(lastRefresh) >= 60_000;
        var start := if due then DoRefresh(old(State())) else old(State());
        && (forall i, j :: 0 <= i < j < |ids| ==> ids[i] != ids[j])
        && (forall id :: id in ids <==> id in start.mem && start.mem[id].terms.key == Some(key))
        && (if ok then State() == Run(on, start, SweepOps(on, start, ids, p, time))
            else exists n :: StoppedAt(on, start, State(), ids, n, p, time, answers))
    {
      hide Sound, Visited, SweepOps, Run, DoRefresh, Lists, Loaded, Cached, Ids, StoppedAt;
      RefreshThresholds(order, now);
      ghost var start := State();
      var snapshot := ListOf(thresholds, key);
      ghost var ids := Ids(snapshot);
      assert |ids| == |snapshot| && forall n :: 0 <= n < |ids| ==> ids[n] == snapshot[n].id by { IdsAt(snapshot); }
      SnapshotOf(thresholds, mem, key);
      NoOps(on, start);
      assert ids[..0] == [] && SweepOps(on, start, [], p, time) == [] by { SweepNone(on, start, p, time); }
      ok := true;
      for n := 0 to |snapshot|
        invariant ok && Valid() && State() == Run(on, start, SweepOps(on, start, ids[..n], p, time))
        invariant forall j :: n <= j < |snapshot| ==> Cached(mem, key, snapshot[j])
      {
        StillListed(thresholds, mem, key, snapshot[n]);
        var i :| 0 <= i < |thresholds[key]| && thresholds[key][i] == snapshot[n];
        ghost var before := State();
        SweepNext(on, start, ids, n, p, time);
        forall j | n < j < |snapshot| ensures Cached(Visited(on, before, ids[n], p, time).mem, key, snapshot[j]) {
          OthersStayCached(on, before, ids[n], p, time, key, snapshot[j]);
        }
        ok := CheckSignal(key, i, p, time, AnswerFor(answers, snapshot[n].id));
        if !ok {
          StopsAt(on, start, ids, n, p, time, answers);
          assert StoppedAt(on, start, State(), ids, n, p, time, answers);
          return;
        }
      }
      assert ids[..|snapshot|] == ids;
    }
  }
}
