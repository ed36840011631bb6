/**
 What a price path means for one watched signal, read off the whole path at once, and the proof
 that the tick-by-tick machine of price_monitor.py computes exactly that.
 */
module PathReading {
  import opened Options
  import opened SignalStep

  datatype Level = AtEntry | AtStop | AtTarget(k: nat)

  predicate Past(sig: Signal, level: Level, p: int) {
    match level
    case AtEntry => PastEntry(sig, p)
    case AtStop => PastStop(sig, p)
    case AtTarget(k) => PastTarget(sig, k, p)
  }

  /** The first tick at or after `from` that is past the level; |ps| when there is none. */
  function First(sig: Signal, level: Level, ps: seq<int>, from: nat): (i: nat)
    requires from <= |ps|
    ensures from <= i <= |ps|
    ensures forall j :: from <= j < i ==> !Past(sig, level, ps[j])
    ensures i < |ps| ==> Past(sig, level, ps[i])
    decreases |ps| - from
  {
    if from == |ps| || Past(sig, level, ps[from]) then from else First(sig, level, ps, from + 1)
  }

  // ----- The reading -----

  /** A signal at the start of a path: `open` says that it is in the market already, entered at `entry`. */
  datatype Watch = Watch(sig: Signal, open: bool, entry: int)

  function WatchOf(r: Row): Watch { Watch(r.sig, r.status == Active, r.entryPrice) }

  /** The first tick in the market. */
  function EntryTick(w: Watch, ps: seq<int>): (e: nat)
    ensures e <= |ps|
  {
    if w.open then 0 else First(w.sig, AtEntry, ps, 0)
  }

  function EntryPrice(w: Watch, ps: seq<int>): int
    requires w.open || EntryTick(w, ps) < |ps|
  {
    if w.open then w.entry else ps[EntryTick(w, ps)]
  }

  /** The price that P&L counts from. */
  function Basis(w: Watch, ps: seq<int>): int
    requires w.open || EntryTick(w, ps) < |ps|
  {
    EntryBasis(w.sig, EntryPrice(w, ps))
  }

  function Entered(r: Row, price: int): Row {
    if r.status == Active then r else r.(status := Active, entryPrice := price)
  }

  /** The stop was reached strictly before the entry. */
  predicate StoppedFirst(w: Watch, ps: seq<int>) {
    First(w.sig, AtStop, ps, 0) < EntryTick(w, ps)
  }

  /** First tick from the entry tick on, that tick included, that reaches target k. */
  function HitTick(w: Watch, ps: seq<int>, k: nat): nat {
    First(w.sig, AtTarget(k), ps, EntryTick(w, ps))
  }

  function StopTick(w: Watch, ps: seq<int>): nat {
    First(w.sig, AtStop, ps, EntryTick(w, ps))
  }

  function Max(a: nat, b: nat): nat { if a >= b then a else b }

  function HitTickIfDefined(w: Watch, ps: seq<int>, k: nat): nat {
    if Defined(w.sig, k) then HitTick(w, ps, k) else 0
  }

  /** The tick by which every defined target has been reached; never, if none is defined. */
  function DoneTick(w: Watch, ps: seq<int>): nat {
    if !Defined(w.sig, 0) && !Defined(w.sig, 1) && !Defined(w.sig, 2) then |ps|
    else Max(HitTickIfDefined(w, ps, 0), Max(HitTickIfDefined(w, ps, 1), HitTickIfDefined(w, ps, 2)))
  }

  /** The stoploss counts only while some defined target is still unreached. */
  predicate Stopped(w: Watch, ps: seq<int>) {
    StopTick(w, ps) < |ps| && StopTick(w, ps) < DoneTick(w, ps)
  }

  /** The last tick that is looked at; |ps| while the signal is still watched. */
  function EndTick(w: Watch, ps: seq<int>): nat {
    if Stopped(w, ps) then StopTick(w, ps) else DoneTick(w, ps)
  }

  function HitsSoFar(w: Watch, ps: seq<int>): set<nat> {
    set k: nat | k < TARGETS && Defined(w.sig, k) && HitTick(w, ps, k) < |ps|
  }

  function ReadRow(r: Row, ps: seq<int>): Row {
    var w, e := WatchOf(r), EntryTick(WatchOf(r), ps);
    if StoppedFirst(w, ps) then
      Exited(r, StoplossHit, ps[First(r.sig, AtStop, ps, 0)], 0)
    else if e == |ps| then r
    else
      var entered, basis := Entered(r, EntryPrice(w, ps)), Basis(w, ps);
      if Stopped(w, ps) then
        Exited(entered, StoplossHit, ps[StopTick(w, ps)], Pnl(r.sig, basis, ps[StopTick(w, ps)]))
      else if Defined(r.sig, 0) && HitTick(w, ps, 0) < |ps| then
        Exited(entered, Target1Hit, ps[HitTick(w, ps, 0)], Pnl(r.sig, basis, ps[HitTick(w, ps, 0)]))
      else entered
  }

  function ReadCached(r: Row, ps: seq<int>): Option<Cached> {
    var w, e := WatchOf(r), EntryTick(WatchOf(r), ps);
    if StoppedFirst(w, ps) then None
    else if e == |ps| then Some(FreshCached(r))
    else if EndTick(w, ps) < |ps| then None
    else Some(Cached(r.sig, Active, EntryPrice(w, ps), HitsSoFar(w, ps)))
  }

  /** The targets first reached at tick i, in the order T1, T2, T3. */
  function TargetNotesAt(w: Watch, ps: seq<int>, i: nat, n: nat): seq<Note>
    requires i < |ps| && n <= TARGETS
  {
    if n == 0 then []
    else
      TargetNotesAt(w, ps, i, n - 1)
      + (if Defined(w.sig, n - 1) && HitTick(w, ps, n - 1) == i
          then [Note(TargetHit(n - 1), ps[i], Target(w.sig, n - 1))] else [])
  }

  /** The price events of tick i. */
  function NotesAt(w: Watch, ps: seq<int>, i: nat): seq<Note>
    requires i < |ps|
  {
    if StoppedFirst(w, ps) then
      if i == First(w.sig, AtStop, ps, 0) then [Note(StopHit, ps[i], w.sig.stoploss)] else []
    else if i < EntryTick(w, ps) || EndTick(w, ps) < i then []
    else
      (if !w.open && i == EntryTick(w, ps) then [Note(EntryHit, ps[i], w.sig.entryLow)] else [])
      + TargetNotesAt(w, ps, i, TARGETS)
      + (if Stopped(w, ps) && i == StopTick(w, ps) then [Note(StopHit, ps[i], w.sig.stoploss)] else [])
  }

  function NotesBefore(w: Watch, ps: seq<int>, n: nat): seq<Note>
    requires n <= |ps|
  {
    if n == 0 then [] else NotesBefore(w, ps, n - 1) + NotesAt(w, ps, n - 1)
  }

  function ReadPath(r: Row, ps: seq<int>): Result {
    Result(ReadRow(r, ps), ReadCached(r, ps), NotesBefore(WatchOf(r), ps, |ps|))
  }

  // ----- The machine -----

  function TickOne(s: Result, p: int): Result {
    if s.cached.None? then s
    else
      var t := OnTick(s.cached.value, s.row, p);
      t.(notes := s.notes + t.notes)
  }

  function TickAll(s: Result, ps: seq<int>): Result {
    if ps == [] then s else TickOne(TickAll(s, ps[..|ps| - 1]), ps[|ps| - 1])
  }

  // ----- Appending a tick -----

  function Extended(sig: Signal, level: Level, ps: seq<int>, from: nat, p: int): nat
    requires from <= |ps|
  {
    var i := First(sig, level, ps, from);
    if i < |ps| then i else if Past(sig, level, p) then |ps| else |ps| + 1
  }

  lemma FirstExtends(sig: Signal, level: Level, ps: seq<int>, from: nat, p: int)
    requires from <= |ps|
    ensures First(sig, level, ps + [p], from) == Extended(sig, level, ps, from, p)
  {
    var longer, i, j := ps + [p], First(sig, level, ps, from), First(sig, level, ps + [p], from);
    assert forall n :: 0 <= n < |ps| ==> Past(sig, level, longer[n]) == Past(sig, level, ps[n]);
    assert longer[|ps|] == p;
  }

  function EntryExtended(w: Watch, ps: seq<int>, p: int): nat {
    if w.open then 0 else Extended(w.sig, AtEntry, ps, 0, p)
  }

  /** The new tick p is the first one in the market. */
  predicate Enters(w: Watch, ps: seq<int>, p: int) {
    EntryTick(w, ps) == |ps| && (w.open || PastEntry(w.sig, p))
  }

  /** Once the entry is in the past, every first tick extends from the same starting point. */
  lemma EnteredExtends(w: Watch, ps: seq<int>, p: int, level: Level)
    ensures EntryTick(w, ps + [p]) == EntryExtended(w, ps, p)
    ensures StoppedFirst(w, ps) ==> StoppedFirst(w, ps + [p])
    ensures First(w.sig, AtStop, ps + [p], 0) == Extended(w.sig, AtStop, ps, 0, p)
    ensures EntryTick(w, ps) < |ps| ==>
      First(w.sig, level, ps + [p], EntryTick(w, ps + [p])) == Extended(w.sig, level, ps, EntryTick(w, ps), p)
    ensures Enters(w, ps, p) ==>
      First(w.sig, level, ps + [p], EntryTick(w, ps + [p])) == (if Past(w.sig, level, p) then |ps| else |ps| + 1)
  {
    FirstExtends(w.sig, AtEntry, ps, 0, p);
    FirstExtends(w.sig, AtStop, ps, 0, p);
    FirstExtends(w.sig, level, ps, EntryTick(w, ps), p);
  }

  lemma AllExtend(w: Watch, ps: seq<int>, p: int)
    ensures EntryTick(w, ps + [p]) == EntryExtended(w, ps, p)
    ensures First(w.sig, AtStop, ps + [p], 0) == Extended(w.sig, AtStop, ps, 0, p)
    ensures EntryTick(w, ps) < |ps| ==>
      && StopTick(w, ps + [p]) == Extended(w.sig, AtStop, ps, EntryTick(w, ps), p)
      && forall k: nat :: HitTick(w, ps + [p], k) == Extended(w.sig, AtTarget(k), ps, EntryTick(w, ps), p)
    ensures Enters(w, ps, p) ==>
      && StopTick(w, ps + [p]) == (if PastStop(w.sig, p) then |ps| else |ps| + 1)
      && forall k: nat :: HitTick(w, ps + [p], k) == (if PastTarget(w.sig, k, p) then |ps| else |ps| + 1)
  {
    EnteredExtends(w, ps, p, AtStop);
    forall k: nat
      ensures EntryTick(w, ps) < |ps| ==>
        HitTick(w, ps + [p], k) == Extended(w.sig, AtTarget(k), ps, EntryTick(w, ps), p)
      ensures Enters(w, ps, p) ==>
        HitTick(w, ps + [p], k) == (if PastTarget(w.sig, k, p) then |ps| else |ps| + 1)
    {
      EnteredExtends(w, ps, p, AtTarget(k));
    }
  }

  lemma DoneTickMeaning(w: Watch, ps: seq<int>, i: nat)
    requires i < |ps|
    ensures DoneTick(w, ps) <= i <==>
      DefinedTargets(w.sig) != {} && forall k :: k in DefinedTargets(w.sig) ==> HitTick(w, ps, k) <= i
  {
    assert forall k: nat :: Defined(w.sig, k) <==> k in DefinedTargets(w.sig);
    assert forall k: nat :: k in DefinedTargets(w.sig) ==> k == 0 || k == 1 || k == 2;
  }

  // ----- Refinement -----

  lemma {:induction false} TargetNotesExtend(w: Watch, ps: seq<int>, p: int, i: nat, n: nat)
    requires i < |ps| && n <= TARGETS
    requires EntryTick(w, ps) < |ps|
    ensures TargetNotesAt(w, ps + [p], i, n) == TargetNotesAt(w, ps, i, n)
  {
    if n > 0 {
      TargetNotesExtend(w, ps, p, i, n - 1);
      AllExtend(w, ps, p);
    }
  }

  lemma DoneExtends(w: Watch, ps: seq<int>, p: int)
    requires EntryTick(w, ps) < |ps|
    ensures DoneTick(w, ps) < |ps| ==> DoneTick(w, ps + [p]) == DoneTick(w, ps)
    ensures DoneTick(w, ps) >= |ps| ==> DoneTick(w, ps + [p]) >= |ps|
  {
    hide First, Past, Defined, EntryTick;
    EnteredExtends(w, ps, p, AtTarget(0));
    EnteredExtends(w, ps, p, AtTarget(1));
    EnteredExtends(w, ps, p, AtTarget(2));
  }

  lemma EndExtends(w: Watch, ps: seq<int>, p: int)
    requires EntryTick(w, ps) < |ps|
    ensures Stopped(w, ps) ==> Stopped(w, ps + [p])
    ensures EndTick(w, ps) < |ps| ==>
      EndTick(w, ps + [p]) == EndTick(w, ps) && Stopped(w, ps + [p]) == Stopped(w, ps)
    ensures EndTick(w, ps) >= |ps| ==> EndTick(w, ps + [p]) >= |ps|
  {
    DoneExtends(w, ps, p);
    EnteredExtends(w, ps, p, AtStop);
  }

  lemma NotesAtExtend(w: Watch, ps: seq<int>, p: int, i: nat)
    requires i < |ps|
    ensures NotesAt(w, ps + [p], i) == NotesAt(w, ps, i)
  {
    AllExtend(w, ps, p);
    if EntryTick(w, ps) < |ps| && !StoppedFirst(w, ps) {
      EndExtends(w, ps, p);
      TargetNotesExtend(w, ps, p, i, TARGETS);
    }
  }

  lemma {:induction false} NotesBeforeExtend(w: Watch, ps: seq<int>, p: int, n: nat)
    requires n <= |ps|
    ensures NotesBefore(w, ps + [p], n) == NotesBefore(w, ps, n)
  {
    hide NotesAt;
    if n > 0 {
      NotesBeforeExtend(w, ps, p, n - 1);
      NotesAtExtend(w, ps, p, n - 1);
    }
  }

  /** The hits of the new tick, in the machine's terms. */
  lemma {:induction false} NewNotes(w: Watch, ps: seq<int>, p: int, hits: set<nat>, n: nat)
    requires n <= TARGETS
    requires EntryTick(w, ps) < |ps| ==> hits == HitsSoFar(w, ps)
    requires EntryTick(w, ps) == |ps| ==> hits == {} && Enters(w, ps, p)
    ensures TargetNotesAt(w, ps + [p], |ps|, n) == HitNotes(w.sig, hits, p, n)
  {
    if n > 0 {
      hide First;
      NewNotes(w, ps, p, hits, n - 1);
      EnteredExtends(w, ps, p, AtTarget(n - 1));
    }
  }

  /** The signal is in the market at the new tick p, and was still watched before it. */
  predicate Live(w: Watch, ps: seq<int>, p: int) {
    && !StoppedFirst(w, ps + [p])
    && EntryTick(w, ps + [p]) <= |ps|
    && (EntryTick(w, ps) < |ps| ==> EndTick(w, ps) >= |ps|)
  }

  function HitsBefore(w: Watch, ps: seq<int>): set<nat> {
    if EntryTick(w, ps) < |ps| then HitsSoFar(w, ps) else {}
  }

  lemma HitsGrow(w: Watch, ps: seq<int>, p: int)
    requires Live(w, ps, p)
    ensures HitsBefore(w, ps) + NewHits(w.sig, HitsBefore(w, ps), p, TARGETS) == HitsSoFar(w, ps + [p])
  {
    AllExtend(w, ps, p);
  }

  lemma TickEnds(w: Watch, ps: seq<int>, p: int)
    requires Live(w, ps, p)
    ensures var longer, n := ps + [p], |ps|;
      var done := DefinedTargets(w.sig) != {} && DefinedTargets(w.sig) <= HitsSoFar(w, longer);
      && (Stopped(w, longer) <==> !done && PastStop(w.sig, p))
      && (Stopped(w, longer) ==> StopTick(w, longer) == n)
      && EndTick(w, longer) >= n
      && (EndTick(w, longer) == n <==> done || PastStop(w.sig, p))
  {
    var longer, n := ps + [p], |ps|;
    EnteredExtends(w, ps, p, AtStop);
    AllDoneOrNot(w, longer, n);
    if EntryTick(w, ps) < n {
      EndExtends(w, ps, p);
      DoneExtends(w, ps, p);
    } else {
      EnteredExtends(w, ps, p, AtTarget(0));
      EnteredExtends(w, ps, p, AtTarget(1));
      EnteredExtends(w, ps, p, AtTarget(2));
    }
  }

  lemma AllDoneOrNot(w: Watch, longer: seq<int>, n: nat)
    requires |longer| == n + 1
    ensures DoneTick(w, longer) <= n <==> DefinedTargets(w.sig) != {} && DefinedTargets(w.sig) <= HitsSoFar(w, longer)
  {
    DoneTickMeaning(w, longer, n);
  }

  /** The row the new tick p finds in the market. */
  function LiveRow(r: Row, ps: seq<int>, p: int): Row {
    if EntryTick(WatchOf(r), ps) < |ps| then ReadRow(r, ps) else Entered(r, p)
  }

  function EntryNote(w: Watch, ps: seq<int>, p: int): seq<Note> {
    if !w.open && EntryTick(w, ps) == |ps| then [Note(EntryHit, p, w.sig.entryLow)] else []
  }

  /** The row of a signal in the market, its stoploss left aside. */
  function Unstopped(r: Row, ps: seq<int>): Row
    requires WatchOf(r).open || EntryTick(WatchOf(r), ps) < |ps|
  {
    var w, entered := WatchOf(r), Entered(r, EntryPrice(WatchOf(r), ps));
    if Defined(r.sig, 0) && HitTick(w, ps, 0) < |ps|
    then Exited(entered, Target1Hit, ps[HitTick(w, ps, 0)], Pnl(r.sig, Basis(w, ps), ps[HitTick(w, ps, 0)]))
    else entered
  }

  /** The new tick p books the first target if it is the first to reach it. */
  lemma TargetRow(r: Row, ps: seq<int>, p: int)
    requires Live(WatchOf(r), ps, p)
    ensures var w, longer, row := WatchOf(r), ps + [p], LiveRow(r, ps, p);
      Unstopped(r, longer)
      == if 0 in NewHits(r.sig, HitsBefore(w, ps), p, TARGETS)
         then Exited(row, Target1Hit, p, Pnl(r.sig, Basis(w, longer), p)) else row
  {
    hide Pnl, EntryBasis, First;
    var w := WatchOf(r);
    EnteredExtends(w, ps, p, AtTarget(0));
    EntryPriceKept(w, ps, p);
  }

  lemma ActiveRow(r: Row, ps: seq<int>, p: int)
    requires Live(WatchOf(r), ps, p)
    ensures var sig, w, longer := r.sig, WatchOf(r), ps + [p];
      var gain := Pnl(sig, Basis(w, longer), p);
      var row := LiveRow(r, ps, p);
      var booked := if 0 in NewHits(sig, HitsBefore(w, ps), p, TARGETS) then Exited(row, Target1Hit, p, gain) else row;
      ReadRow(r, longer) == if Stopped(w, longer) then Exited(booked, StoplossHit, p, gain) else booked
  {
    hide Pnl, EntryBasis, First, NewHits, HitsBefore, Past, PastStop, DoneTick, LiveRow;
    TickEnds(WatchOf(r), ps, p);
    TargetRow(r, ps, p);
  }

  lemma EntryPriceKept(w: Watch, ps: seq<int>, p: int)
    requires Live(w, ps, p)
    ensures EntryPrice(w, ps + [p])
         == if w.open then w.entry else if EntryTick(w, ps) < |ps| then EntryPrice(w, ps) else p
  {
    EnteredExtends(w, ps, p, AtStop);
  }

  /** From the entry tick on, one machine step is one more tick of the reading. */
  lemma ActiveStep(r: Row, ps: seq<int>, p: int)
    requires Live(WatchOf(r), ps, p)
    ensures var w, longer := WatchOf(r), ps + [p];
      var t := OnActiveTick(Cached(r.sig, Active, EntryPrice(w, longer), HitsBefore(w, ps)), LiveRow(r, ps, p), p);
      && t.row == ReadRow(r, longer)
      && t.cached == ReadCached(r, longer)
      && NotesAt(w, longer, |ps|) == EntryNote(w, ps, p) + t.notes
  {
    hide ReadRow, LiveRow, Pnl, First, Extended, HitNotes, HitsBefore, NewHits, StopTick, HitsSoFar, EndTick, Stopped;
    hide TargetNotesAt, PastStop, Past, NotesAt, ReadCached;
    var w := WatchOf(r);
    ActiveRow(r, ps, p);
    HitsGrow(w, ps, p);
    TickEnds(w, ps, p);
    ActiveNotes(w, ps, p);
    ActiveCached(r, ps, p);
  }

  lemma LiveEnters(w: Watch, ps: seq<int>, p: int)
    requires Live(w, ps, p) && EntryTick(w, ps) == |ps|
    ensures Enters(w, ps, p)
  {
    if !w.open { assert Past(w.sig, AtEntry, (ps + [p])[|ps|]); }
  }

  lemma ActiveNotes(w: Watch, ps: seq<int>, p: int)
    requires Live(w, ps, p)
    ensures NotesAt(w, ps + [p], |ps|)
         == EntryNote(w, ps, p) + HitNotes(w.sig, HitsBefore(w, ps), p, TARGETS)
            + (if Stopped(w, ps + [p]) then [Note(StopHit, p, w.sig.stoploss)] else [])
  {
    hide Past, HitNotes, TargetNotesAt, Enters;
    TickEnds(w, ps, p);
    if EntryTick(w, ps) == |ps| { LiveEnters(w, ps, p); }
    EnteredExtends(w, ps, p, AtStop);
    NewNotes(w, ps, p, HitsBefore(w, ps), TARGETS);
  }

  lemma ActiveCached(r: Row, ps: seq<int>, p: int)
    requires Live(WatchOf(r), ps, p)
    ensures var w, longer := WatchOf(r), ps + [p];
      ReadCached(r, longer) == if EndTick(w, longer) == |ps| then None
                               else Some(Cached(r.sig, Active, EntryPrice(w, longer), HitsSoFar(w, longer)))
  {
    TickEnds(WatchOf(r), ps, p);
    hide First, Past;
  }

  /** After the end the reading does not move. */
  lemma EndedStep(r: Row, ps: seq<int>, p: int)
    requires ReadCached(r, ps).None?
    ensures ReadPath(r, ps + [p]) == ReadPath(r, ps)
  {
    hide First, Pnl, EntryBasis;
    var w := WatchOf(r);
    EnteredExtends(w, ps, p, AtStop);
    NotesBeforeExtend(w, ps, p, |ps|);
    if !StoppedFirst(w, ps) {
      EndExtends(w, ps, p);
      EnteredExtends(w, ps, p, AtTarget(0));
    }
  }

  /** Before the entry it moves in step with the machine. */
  lemma WaitingStep(r: Row, ps: seq<int>, p: int)
    requires Watchable(r.status)
    requires ReadCached(r, ps).Some? && EntryTick(WatchOf(r), ps + [p]) > |ps|
    ensures ReadCached(r, ps) == Some(FreshCached(r)) && ReadRow(r, ps) == r && !PastEntry(r.sig, p)
    ensures var t := OnTick(FreshCached(r), r, p);
      && ReadRow(r, ps + [p]) == t.row && ReadCached(r, ps + [p]) == t.cached
      && NotesAt(WatchOf(r), ps + [p], |ps|) == t.notes
  {
    hide First, Pnl, EntryBasis;
    EnteredExtends(WatchOf(r), ps, p, AtStop);
  }

  /** What the machine does at a tick that finds the signal in the market. */
  lemma LiveStep(r: Row, ps: seq<int>, p: int)
    requires Watchable(r.status)
    requires ReadCached(r, ps).Some? && EntryTick(WatchOf(r), ps + [p]) <= |ps|
    ensures Live(WatchOf(r), ps, p)
    ensures var w, longer := WatchOf(r), ps + [p];
      var t := OnActiveTick(Cached(r.sig, Active, EntryPrice(w, longer), HitsBefore(w, ps)), LiveRow(r, ps, p), p);
      OnTick(ReadCached(r, ps).value, ReadRow(r, ps), p) == t.(notes := EntryNote(w, ps, p) + t.notes)
  {
    var w, longer := WatchOf(r), ps + [p];
    EnteredExtends(w, ps, p, AtStop);
    EntryPriceKept(w, ps, p);
    if EntryTick(w, ps) == |ps| && !w.open {
      assert Past(r.sig, AtEntry, longer[|ps|]);
    }
  }

  lemma Step(r: Row, ps: seq<int>, p: int)
    requires Watchable(r.status)
    ensures TickOne(ReadPath(r, ps), p) == ReadPath(r, ps + [p])
  {
    var s, w := ReadPath(r, ps), WatchOf(r);
    NotesBeforeExtend(w, ps, p, |ps|);
    assert NotesBefore(w, ps + [p], |ps| + 1) == s.notes + NotesAt(w, ps + [p], |ps|);
    if ReadCached(r, ps).None? {
      EndedStep(r, ps, p);
    } else if EntryTick(w, ps + [p]) > |ps| {
      WaitingStep(r, ps, p);
    } else {
      LiveStep(r, ps, p);
      ActiveStep(r, ps, p);
    }
  }

  /** The incremental machine computes the reading of the whole path, from PENDING and from ACTIVE. */
  lemma {:induction false} TicksReadPath(r: Row, ps: seq<int>)
    requires Watchable(r.status)
    ensures TickAll(Result(r, Some(FreshCached(r)), []), ps) == ReadPath(r, ps)
  {
    if ps != [] {
      var before, p := ps[..|ps| - 1], ps[|ps| - 1];
      assert ps == before + [p];
      TicksReadPath(r, before);
      Step(r, before, p);
    }
  }
}
