/**
 What whole runs of the expiry monitor do: when a signal expires, how often it is cancelled, what
 becomes of rows that somebody else moved, and which instruments stay tracked.
 */
module ExpiryRuns {
  import opened Options
  import opened ExpiryMachine

  // ----- When a signal expires -----

  datatype Tick = Tick(price: int, time: int)

  function Ticks(ops: seq<Op>, id: int): seq<Tick> {
    if ops == [] then []
    else
      var op := ops[|ops| - 1];
      Ticks(ops[..|ops| - 1], id) + (if op.Visit? && op.id == id then [Tick(op.price, op.time)] else [])
  }

  /** The ticks since the last update of the signal's row that failed. */
  function TicksSince(ops: seq<Op>, id: int): seq<Tick> {
    if ops == [] then []
    else
      var op, before := ops[|ops| - 1], TicksSince(ops[..|ops| - 1], id);
      if op.CancelFails? && op.id == id then []
      else before + (if op.Visit? && op.id == id then [Tick(op.price, op.time)] else [])
  }

  /** Whether a touch was known at that moment: where the touch logic is on, no update is tried without one. */
  function KnownSince(on: bool, known: bool, ops: seq<Op>, id: int): bool {
    if ops == [] then known
    else if ops[|ops| - 1].CancelFails? && ops[|ops| - 1].id == id then known || on
    else KnownSince(on, known, ops[..|ops| - 1], id)
  }

  lemma {:induction false} OneStretch(on: bool, known: bool, ops: seq<Op>, id: int)
    requires forall i :: 0 <= i < |ops| ==> ops[i].CancelFails? ==> ops[i].id != id
    ensures TicksSince(ops, id) == Ticks(ops, id) && KnownSince(on, known, ops, id) == known
  {
    if ops != [] {
      OneStretch(on, known, ops[..|ops| - 1], id);
    }
  }

  /** Tick j lay in the entry zone. */
  predicate ZoneAt(t: Terms, ticks: seq<Tick>, j: nat) {
    j < |ticks| && InZone(t, ticks[j].price)
  }

  ghost predicate TouchedBy(t: Terms, ticks: seq<Tick>, n: nat) {
    exists j :: 0 <= j < n && ZoneAt(t, ticks, j)
  }

  /**
   Tick i expires a signal nobody filled. With the touch logic: it is not older than the signal, is
   strictly past the first target, and it or an earlier tick lay in the entry zone, unless a touch
   was known before. Without: it is at or past the first target.
   */
  ghost predicate FiresAt(on: bool, t: Terms, known: bool, ticks: seq<Tick>, i: nat) {
    && i < |ticks| && t.targets != []
    && if on then OnTime(t, ticks[i].time) && Crossed(t.action, ticks[i].price, t.targets[0])
        && (known || TouchedBy(t, ticks, i + 1))
       else Reached(t.action, ticks[i].price, t.targets[0])
  }

  ghost predicate Fires(on: bool, t: Terms, known: bool, ticks: seq<Tick>) {
    exists i :: 0 <= i < |ticks| && FiresAt(on, t, known, ticks, i)
  }

  lemma TouchedByMore(t: Terms, ticks: seq<Tick>, tick: Tick, n: nat)
    ensures n <= |ticks| ==> (TouchedBy(t, ticks + [tick], n) <==> TouchedBy(t, ticks, n))
    ensures TouchedBy(t, ticks + [tick], |ticks| + 1) <==> TouchedBy(t, ticks, |ticks|) || InZone(t, tick.price)
  {
    var more := ticks + [tick];
    hide InZone;
    assert forall j :: 0 <= j < |ticks| ==> ZoneAt(t, more, j) == ZoneAt(t, ticks, j);
    assert ZoneAt(t, more, |ticks|) == InZone(t, tick.price);
  }

  lemma FiresMore(on: bool, t: Terms, known: bool, ticks: seq<Tick>, tick: Tick)
    ensures Fires(on, t, known, ticks + [tick]) <==>
      Fires(on, t, known, ticks) || FiresAt(on, t, known, ticks + [tick], |ticks|)
  {
    var more := ticks + [tick];
    hide TouchedBy;
    forall i | 0 <= i < |ticks|
      ensures FiresAt(on, t, known, more, i) == FiresAt(on, t, known, ticks, i)
    {
      TouchedByMore(t, ticks, tick, i + 1);
    }
  }

  /** The signal's row and cache entry after it met these ticks, as long as nobody else moved the row. */
  ghost predicate Follows(on: bool, s: State, id: int, t: Terms, known: bool, ticks: seq<Tick>) {
    && id in s.rows && s.rows[id].terms == t
    && if Fires(on, t, known, ticks) then
         && Standing(s, id)
         && if s.cancelling != Some(id) then s.rows[id].status == Expired
            else s.rows[id].status == Pending && id in s.mem && s.mem[id].touched == (known || on)
       else
         && s.rows[id].status == Pending && !Standing(s, id) && s.cancelling != Some(id)
         && id in s.mem && s.mem[id].id == id && s.mem[id].terms == t && !s.mem[id].filled
         && s.mem[id].touched == (known || (on && TouchedBy(t, ticks, |ticks|)))
  }

  lemma OtherVisitFollows(on: bool, s: State, other: int, tick: Tick, id: int, t: Terms, known: bool, ticks: seq<Tick>)
    requires s.cancelling.None? && other != id && Follows(on, s, id, t, known, ticks)
    ensures Follows(on, DoVisit(on, s, other, tick.price, tick.time), id, t, known, ticks)
  {
    hide Fires, TouchedBy, QueueAfter, Expires;
  }

  lemma CancelFollows(on: bool, s: State, id: int, t: Terms, known: bool, ticks: seq<Tick>)
    requires Follows(on, s, id, t, known, ticks)
    ensures Follows(on, DoCancel(s), id, t, known, ticks)
  {
    hide Fires, TouchedBy, Keys;
  }

  lemma OtherStepFollows(on: bool, s: State, op: Op, id: int, t: Terms, known: bool, ticks: seq<Tick>)
    requires Enabled(s, op) && Follows(on, s, id, t, known, ticks)
    requires !op.Refresh? && !op.Visit? && !op.Cancel? && !op.CancelFails? && (op.Move? ==> op.id != id)
    ensures Follows(on, Step(on, s, op), id, t, known, ticks)
  {
    hide Fires, TouchedBy, DoVisit, DoCancel, DoRefresh, DoCancelFails;
  }

  lemma FailureFollows(on: bool, s: State, other: int, committed: bool,
                       id: int, t: Terms, known: bool, ticks: seq<Tick>)
    requires s.cancelling == Some(other) && other != id && Follows(on, s, id, t, known, ticks)
    ensures Follows(on, DoCancelFails(s, other, committed), id, t, known, ticks)
  {
    hide Fires, TouchedBy;
  }

  lemma FailureStep(on: bool, s: State, op: Op)
    requires op.CancelFails? && Enabled(s, op)
    ensures s.cancelling == Some(op.id) && Step(on, s, op) == DoCancelFails(s, op.id, op.committed)
  {
  }

  lemma RefreshFollows(on: bool, s: State, id: int, t: Terms, known: bool, ticks: seq<Tick>)
    requires Sound(s) && s.cancelling.None? && Follows(on, s, id, t, known, ticks)
    ensures Follows(on, DoRefresh(s), id, t, known, ticks)
  {
    assert SoundFor(s, id);
    hide Fires, TouchedBy, Keys, Sound;
  }

  lemma VisitFollows(on: bool, s: State, id: int, tick: Tick, t: Terms, known: bool, ticks: seq<Tick>)
    requires Sound(s) && s.cancelling.None? && Follows(on, s, id, t, known, ticks)
    ensures Follows(on, DoVisit(on, s, id, tick.price, tick.time), id, t, known, ticks + [tick])
  {
    assert SoundFor(s, id);
    TouchedByMore(t, ticks, tick, |ticks| + 1);
    FiresMore(on, t, known, ticks, tick);
    assert (ticks + [tick])[|ticks|] == tick;
    hide Fires, TouchedBy, Keys, QueueAfter, Sound, InZone, TouchHolds;
  }

  predicate NoMoves(ops: seq<Op>, id: int) {
    forall i :: 0 <= i < |ops| ==> ops[i].Move? ==> ops[i].id != id
  }

  /** No update of this signal's row raises an error although it was committed. */
  predicate NoLostAnswers(ops: seq<Op>, id: int) {
    forall i :: 0 <= i < |ops| ==> ops[i].CancelFails? && ops[i].committed ==> ops[i].id != id
  }

  lemma OwnFailureFollows(on: bool, s: State, id: int, t: Terms, known: bool, ticks: seq<Tick>)
    requires Sound(s) && s.cancelling == Some(id) && Follows(on, s, id, t, known, ticks)
    ensures Follows(on, DoCancelFails(s, id, false), id, t, known || on, [])
  {
    SoundAt(s, id);
    assert !Fires(on, t, known || on, []) && !TouchedBy(t, [], 0);
    hide Fires, TouchedBy, Sound, TouchHolds;
  }

  lemma {:induction false} RunFollows(on: bool, s: State, ops: seq<Op>, id: int, t: Terms, known: bool)
    requires Sound(s) && Legal(on, s, ops) && NoMoves(ops, id) && NoLostAnswers(ops, id)
    requires Follows(on, s, id, t, known, [])
    ensures Follows(on, Run(on, s, ops), id, t, KnownSince(on, known, ops, id), TicksSince(ops, id))
  {
    hide Follows, Sound, Step, Enabled;
    if ops != [] {
      var n := |ops| - 1;
      RunFollows(on, s, ops[..n], id, t, known);
      RunKeepsSound(on, s, ops[..n]);
      var k, ticks := KnownSince(on, known, ops[..n], id), TicksSince(ops[..n], id);
      SinceNext(on, known, ops, id);
      NextFollows(on, Run(on, s, ops[..n]), ops[n], id, t, k, ticks);
    }
  }

  lemma SinceNext(on: bool, known: bool, ops: seq<Op>, id: int)
    requires ops != []
    ensures var op, before := ops[|ops| - 1], ops[..|ops| - 1];
      var k, ticks := KnownSince(on, known, before, id), TicksSince(before, id);
      && KnownSince(on, known, ops, id) == (if op.CancelFails? && op.id == id then k || on else k)
      && TicksSince(ops, id)
         == if op.CancelFails? && op.id == id then []
            else if op.Visit? && op.id == id then ticks + [Tick(op.price, op.time)] else ticks
  {
    KnownOnly(on, known, ops[..|ops| - 1], id);
  }

  lemma {:induction false} KnownOnly(on: bool, known: bool, ops: seq<Op>, id: int)
    ensures KnownSince(on, known, ops, id) in {known, known || on}
  {
    if ops != [] {
      KnownOnly(on, known, ops[..|ops| - 1], id);
    }
  }

  lemma NextFollows(on: bool, s: State, op: Op, id: int, t: Terms, known: bool, ticks: seq<Tick>)
    requires Sound(s) && Enabled(s, op) && Follows(on, s, id, t, known, ticks)
    requires op.Move? ==> op.id != id
    requires op.CancelFails? && op.committed ==> op.id != id
    ensures var after := Step(on, s, op);
      if op.CancelFails? && op.id == id then Follows(on, after, id, t, known || on, [])
      else if op.Visit? && op.id == id then Follows(on, after, id, t, known, ticks + [Tick(op.price, op.time)])
      else Follows(on, after, id, t, known, ticks)
  {
    hide Follows, Sound, Step, Enabled;
    match op
    case Visit(seen, price, time) =>
      VisitStep(on, s, op);
      if seen == id {
        VisitFollows(on, s, id, Tick(price, time), t, known, ticks);
      } else {
        OtherVisitFollows(on, s, seen, Tick(price, time), id, t, known, ticks);
      }
    case Cancel =>
      CancelStep(on, s);
      CancelFollows(on, s, id, t, known, ticks);
    case CancelFails(other, committed) =>
      FailureStep(on, s, op);
      if other == id {
        OwnFailureFollows(on, s, id, t, known, ticks);
      } else {
        FailureFollows(on, s, other, committed, id, t, known, ticks);
      }
    case Refresh =>
      RefreshStep(on, s);
      RefreshFollows(on, s, id, t, known, ticks);
    case _ => OtherStepFollows(on, s, op, id, t, known, ticks);
  }

  lemma VisitStep(on: bool, s: State, op: Op)
    requires op.Visit? && Enabled(s, op)
    ensures s.cancelling.None? && Step(on, s, op) == DoVisit(on, s, op.id, op.price, op.time)
  {
  }

  lemma RefreshStep(on: bool, s: State)
    requires Enabled(s, Refresh)
    ensures s.cancelling.None? && Step(on, s, Refresh) == DoRefresh(s)
  {
  }

  lemma CancelStep(on: bool, s: State)
    ensures Step(on, s, Cancel) == DoCancel(s)
  {
  }

  /** A signal that waits for its entry: PENDING, cached, and without a standing cancellation. */
  predicate Waiting(s: State, id: int) {
    && id in s.rows && s.rows[id].status == Pending && id in s.mem && !Standing(s, id)
  }

  /** After an update that failed, the signal waits again, with its touch; the next tick may ask the broker again. */
  lemma FailedWaitsAgain(on: bool, s: State, id: int)
    requires Sound(s) && s.cancelling == Some(id) && id in s.rows && s.rows[id].status == Pending
    ensures var t := Step(on, s, CancelFails(id, false));
      Waiting(t, id) && t.cancelling.None? && id in s.mem && t.mem[id] == s.mem[id]
  {
    SoundAt(s, id);
    hide Sound, CopyHolds, TouchHolds;
  }

  /**
   Expiry is exact. Whatever refreshes, late or lost writes, failing updates and other signals come in between,
   a waiting signal that nobody moves is expired, or about to be, if and only if one of its ticks fires since
   the last update that failed; otherwise it still waits and its touched flag says whether a tick has been in
   the zone.
   */
  lemma ExpiryExact(on: bool, s: State, ops: seq<Op>, id: int)
    requires Sound(s) && Legal(on, s, ops) && NoMoves(ops, id) && NoLostAnswers(ops, id) && Waiting(s, id)
    ensures var t, end := s.rows[id].terms, Run(on, s, ops);
      && id in end.rows && id in s.mem
      && var known, ticks := KnownSince(on, s.mem[id].touched, ops, id), TicksSince(ops, id);
         var fired := Fires(on, t, known, ticks);
      && (end.rows[id].status == Expired <==> fired && end.cancelling != Some(id))
      && (end.rows[id].status == Pending <==> !fired || end.cancelling == Some(id))
      && (Standing(end, id) <==> fired)
      && (!fired ==> id in end.mem && end.mem[id].touched == (known || (on && TouchedBy(t, ticks, |ticks|))))
  {
    SoundAt(s, id);
    var t, known := s.rows[id].terms, s.mem[id].touched;
    assert !Fires(on, t, known, []) && !TouchedBy(t, [], 0);
    hide Fires, TouchedBy, Sound, Run, Legal;
    assert Follows(on, s, id, t, known, []);
    RunFollows(on, s, ops, id, t, known);
  }

  // ----- Cancelling, and rows that others move -----

  /** The broker is asked at most once per signal, plus once for each update that failed, in any run. */
  lemma CancelledOnce(on: bool, s: State, ops: seq<Op>, id: int)
    requires Sound(s) && Legal(on, s, ops)
    ensures multiset(Run(on, s, ops).cancels)[id] <= 1 + multiset(Run(on, s, ops).failed)[id]
  {
    RunKeepsSound(on, s, ops);
    assert SoundFor(Run(on, s, ops), id);
  }

  /** The monitor never overwrites the status of a row that has left PENDING. */
  lemma {:induction false} MovedRowKept(on: bool, s: State, ops: seq<Op>, id: int)
    requires Legal(on, s, ops) && NoMoves(ops, id)
    requires id in s.rows && s.rows[id].status != Pending
    ensures id in Run(on, s, ops).rows && Run(on, s, ops).rows[id].status == s.rows[id].status
  {
    hide Keys, QueueAfter, DoVisit;
    if ops != [] {
      MovedRowKept(on, s, ops[..|ops| - 1], id);
      if ops[|ops| - 1].Visit? { VisitKeepsRows(on, Run(on, s, ops[..|ops| - 1]), ops[|ops| - 1]); }
    }
  }

  lemma VisitKeepsRows(on: bool, s: State, op: Op)
    requires op.Visit?
    ensures Step(on, s, op).rows == s.rows
  {
  }

  // ----- The touch latch -----

  lemma TouchStep(on: bool, s: State, op: Op, id: int)
    requires Sound(s) && Enabled(s, op) && id in s.mem && s.mem[id].touched
    requires id in Step(on, s, op).rows && Step(on, s, op).rows[id].status == Pending
    ensures id in Step(on, s, op).mem && Step(on, s, op).mem[id].touched
  {
    assert SoundFor(s, id);
    hide Keys, QueueAfter, Sound, TouchHolds, InZone, Expires;
  }

  /** While its row is PENDING, a touched signal stays cached and touched, whatever happens to its write. */
  lemma {:induction false} TouchLatch(on: bool, s: State, ops: seq<Op>, id: int)
    requires Sound(s) && Legal(on, s, ops) && id in s.mem && s.mem[id].touched
    requires id in Run(on, s, ops).rows && Run(on, s, ops).rows[id].status == Pending
    ensures id in Run(on, s, ops).mem && Run(on, s, ops).mem[id].touched
  {
    hide Step, Sound, Enabled;
    if ops != [] {
      var before, op := Run(on, s, ops[..|ops| - 1]), ops[|ops| - 1];
      RunKeepsSound(on, s, ops[..|ops| - 1]);
      RunKeepsRow(on, s, ops[..|ops| - 1], id);
      WasPending(on, before, op, id);
      TouchLatch(on, s, ops[..|ops| - 1], id);
      TouchStep(on, before, op, id);
    }
  }

  lemma {:induction false} RunKeepsRow(on: bool, s: State, ops: seq<Op>, id: int)
    requires Sound(s) && Legal(on, s, ops) && id in s.mem
    ensures id in Run(on, s, ops).rows
  {
    hide Sound, Step, Enabled;
    if ops == [] {
      assert SoundFor(s, id) by { SoundAt(s, id); }
    } else {
      RunKeepsRow(on, s, ops[..|ops| - 1], id);
      StepKeepsRow(on, Run(on, s, ops[..|ops| - 1]), ops[|ops| - 1], id);
    }
  }

  lemma StepKeepsRow(on: bool, s: State, op: Op, id: int)
    requires id in s.rows
    ensures id in Step(on, s, op).rows
  {
    hide DoVisit, Keys;
    if op.Visit? { VisitKeepsRows(on, s, op); }
  }

  lemma WasPending(on: bool, s: State, op: Op, id: int)
    requires Enabled(s, op) && id in s.rows && id in Step(on, s, op).rows && Step(on, s, op).rows[id].status == Pending
    ensures s.rows[id].status == Pending
  {
    hide DoVisit, Keys;
    if op.Visit? { VisitKeepsRows(on, s, op); }
  }

  // ----- Tracked instruments -----

  predicate TracksAll(s: State) { Keys(s.mem) <= s.tracked }

  lemma {:induction false} ThresholdsAreTracked(on: bool, s: State, ops: seq<Op>)
    requires Sound(s) && Legal(on, s, ops) && TracksAll(s)
    requires forall i :: 0 <= i < |ops| ==> !ops[i].Unsubscribe?
    ensures TracksAll(Run(on, s, ops))
  {
    hide Sound, Enabled, QueueAfter, Expires, Loaded;
    if ops != [] {
      var n := |ops| - 1;
      ThresholdsAreTracked(on, s, ops[..n]);
      RunKeepsSound(on, s, ops[..n]);
      StepTracks(on, Run(on, s, ops[..n]), ops[n]);
    }
  }

  lemma StepTracks(on: bool, s: State, op: Op)
    requires TracksAll(s) && !op.Unsubscribe?
    ensures TracksAll(Step(on, s, op))
  {
    hide QueueAfter, Expires, Loaded, EventOf, FirstReached;
    if op.Visit? && op.id in s.mem {
      SameKeys(s.mem, op.id, Touching(on, s.mem[op.id], op.price));
    } else if op.Refresh? {
      var after := DoRefresh(s);
      assert after.tracked == s.tracked + (Keys(after.mem) - Keys(s.mem)) - (Keys(s.mem) - Keys(after.mem));
    }
  }

  lemma SameKeys(mem: map<int, Sig>, id: int, sig: Sig)
    requires id in mem && sig.terms == mem[id].terms
    ensures Keys(mem[id := sig]) == Keys(mem)
  {
    var after := mem[id := sig];
    forall k | k in Keys(mem) ensures k in Keys(after) {
      var i :| i in mem && mem[i].terms.key == Some(k);
      assert i in after && after[i].terms.key == Some(k);
    }
  }

  /**
   The unsubscribe message at step i still counts after n steps: nobody has subscribed since, and the
   instrument has had thresholds at every moment since.
   */
  predicate UnsubscribedSince(on: bool, s: State, ops: seq<Op>, key: string, i: nat, n: nat) {
    && i < n <= |ops| && ops[i] == Unsubscribe(key)
    && (forall j :: i < j < n ==> ops[j] != Subscribe(key) || key == "")
    && (forall j :: i < j <= n ==> key in Keys(Run(on, s, ops[..j]).mem))
  }

  lemma {:induction false} SincePrefix(on: bool, s: State, ops: seq<Op>, key: string, i: nat, n: nat, m: nat)
    requires n <= m <= |ops|
    ensures UnsubscribedSince(on, s, ops[..m], key, i, n) <==> UnsubscribedSince(on, s, ops, key, i, n)
  {
    hide Run, Keys;
    assert forall j :: 0 <= j <= m ==> ops[..m][..j] == ops[..j];
  }

  /** How one step changes whether an instrument is tracked that has thresholds before and after it. */
  lemma StepTracksKey(on: bool, s: State, op: Op, key: string)
    requires key in Keys(Step(on, s, op).mem)
    ensures key in Step(on, s, op).tracked <==>
      if op == Unsubscribe(key) then false
      else if op == Subscribe(key) && key != "" then true
      else key in s.tracked || key !in Keys(s.mem)
  {
    hide QueueAfter, Expires, Loaded, EventOf, FirstReached;
    match op
    case Visit(id, price, _) =>
      if id in s.mem { SameKeys(s.mem, id, Touching(on, s.mem[id], price)); }
    case Refresh =>
      var after := DoRefresh(s);
      assert after.tracked == s.tracked + (Keys(after.mem) - Keys(s.mem)) - (Keys(s.mem) - Keys(after.mem));
    case Cancel =>
      FewerKeys(s);
    case _ =>
  }

  lemma FewerKeys(s: State)
    ensures Keys(DoCancel(s).mem) <= Keys(s.mem)
  {
  }

  /** Only a refresh gives thresholds to an instrument, and then it tracks it. */
  lemma NewKeyTracked(on: bool, s: State, op: Op, key: string)
    requires key in Keys(Step(on, s, op).mem) && key !in Keys(s.mem)
    ensures op.Refresh?
  {
    hide QueueAfter, Expires, Loaded, EventOf, FirstReached;
    match op
    case Visit(id, price, _) =>
      if id in s.mem { SameKeys(s.mem, id, Touching(on, s.mem[id], price)); }
    case Cancel =>
      FewerKeys(s);
    case _ =>
  }

  /**
   Exactly when an instrument with thresholds is not tracked: an unsubscribe message has been followed
   neither by a subscribe message nor by a moment without thresholds. A refresh alone never brings it back.
   */
  lemma {:induction false} UntrackedIff(on: bool, s: State, ops: seq<Op>, key: string)
    requires TracksAll(s) && key in Keys(Run(on, s, ops).mem)
    ensures key !in Run(on, s, ops).tracked <==>
      exists i :: 0 <= i < |ops| && UnsubscribedSince(on, s, ops, key, i, |ops|)
  {
    hide Step, Keys;
    if ops != [] {
      var n, op := |ops| - 1, ops[|ops| - 1];
      var before := Run(on, s, ops[..n]);
      StepTracksKey(on, before, op, key);
      assert ops[..|ops|] == ops;
      if key in Keys(before.mem) {
        UntrackedIff(on, s, ops[..n], key);
        forall i | 0 <= i < n
          ensures UnsubscribedSince(on, s, ops, key, i, |ops|) <==>
            UnsubscribedSince(on, s, ops[..n], key, i, n) && (op != Subscribe(key) || key == "")
        {
          SincePrefix(on, s, ops, key, i, n, n);
        }
      } else {
        NewKeyTracked(on, before, op, key);
        forall i | 0 <= i < n ensures !UnsubscribedSince(on, s, ops, key, i, |ops|) {
        }
      }
      assert UnsubscribedSince(on, s, ops, key, n, |ops|) <==> op == Unsubscribe(key);
    }
  }

  // ----- What the code does not promise -----

  /** A tick older than the signal never expires it, but its touch counts for a later tick. */
  lemma PreSignalTouchCounts(t: Terms, early: Tick, late: Tick)
    requires t.targets != [] && InZone(t, early.price) && !OnTime(t, early.time)
    requires OnTime(t, late.time) && Crossed(t.action, late.price, t.targets[0]) && !InZone(t, late.price)
    ensures !Fires(true, t, false, [early]) && !Fires(true, t, false, [late])
    ensures Fires(true, t, false, [early, late])
  {
    hide InZone, OnTime, Crossed;
    assert forall j :: 0 <= j < 1 ==> !ZoneAt(t, [late], j);
    assert ZoneAt(t, [early, late], 0);
    assert FiresAt(true, t, false, [early, late], 1);
  }

  // ----- Fills that the cache does not know of -----

  /** The signal's cache entry after it met these ticks, whatever became of its row. */
  ghost predicate Stale(on: bool, s: State, id: int, t: Terms, known: bool, ticks: seq<Tick>) {
    if Fires(on, t, known, ticks) then id in s.cancels
    else
      && id !in s.cancels && s.cancelling != Some(id)
      && id in s.mem && s.mem[id].id == id && s.mem[id].terms == t && !s.mem[id].filled
      && s.mem[id].touched == (known || (on && TouchedBy(t, ticks, |ticks|)))
  }

  lemma StaleVisit(on: bool, s: State, id: int, tick: Tick, t: Terms, known: bool, ticks: seq<Tick>)
    requires s.cancelling.None? && Stale(on, s, id, t, known, ticks)
    ensures Stale(on, DoVisit(on, s, id, tick.price, tick.time), id, t, known, ticks + [tick])
  {
    hide Fires, TouchedBy, Keys, QueueAfter, InZone;
    TouchedByMore(t, ticks, tick, |ticks| + 1);
    FiresMore(on, t, known, ticks, tick);
    assert (ticks + [tick])[|ticks|] == tick;
  }

  lemma StaleStep(on: bool, s: State, op: Op, id: int, t: Terms, known: bool, ticks: seq<Tick>)
    requires Enabled(s, op) && Stale(on, s, id, t, known, ticks)
    requires !op.Refresh? && (op.Visit? ==> op.id != id)
    ensures Stale(on, Step(on, s, op), id, t, known, ticks)
  {
    hide Fires, TouchedBy, Keys, QueueAfter, Expires, DoRefresh;
  }

  lemma {:induction false} RunStale(on: bool, s: State, ops: seq<Op>, id: int, t: Terms, known: bool)
    requires Legal(on, s, ops) && (forall i :: 0 <= i < |ops| ==> !ops[i].Refresh?)
    requires Stale(on, s, id, t, known, [])
    ensures Stale(on, Run(on, s, ops), id, t, known, Ticks(ops, id))
  {
    hide Stale, Step, Enabled;
    if ops != [] {
      var n := |ops| - 1;
      RunStale(on, s, ops[..n], id, t, known);
      var before, op := Run(on, s, ops[..n]), ops[n];
      if op.Visit? && op.id == id {
        VisitStep(on, before, op);
        StaleVisit(on, before, id, Tick(op.price, op.time), t, known, Ticks(ops[..n], id));
      } else {
        StaleStep(on, before, op, id, t, known, Ticks(ops[..n], id));
        assert Ticks(ops, id) == Ticks(ops[..n], id);
      }
    }
  }

  /**
   Until the next refresh, fills do not count: whatever moves the row, the broker is asked to cancel
   if and only if a tick fires for the signal as it was cached, unfilled.
   */
  lemma CancelledIffFires(on: bool, s: State, ops: seq<Op>, id: int)
    requires Sound(s) && Legal(on, s, ops) && forall i :: 0 <= i < |ops| ==> !ops[i].Refresh?
    requires id in s.mem && !s.mem[id].filled && id !in s.cancels
    ensures id in Run(on, s, ops).cancels <==> Fires(on, s.mem[id].terms, s.mem[id].touched, Ticks(ops, id))
  {
    SoundAt(s, id);
    hide Sound, Run, Legal;
    var t, known := s.mem[id].terms, s.mem[id].touched;
    assert !Fires(on, t, known, []) && !TouchedBy(t, [], 0);
    RunStale(on, s, ops, id, t, known);
  }

  /** The cache, if it has the signal, knows that it is filled. */
  predicate KnownFilled(s: State, id: int) {
    && id in s.rows && s.rows[id].status != Pending
    && (id in s.mem ==> s.mem[id].filled) && s.cancelling != Some(id)
  }

  lemma StepKeepsKnown(on: bool, s: State, op: Op, id: int)
    requires Enabled(s, op) && KnownFilled(s, id)
    ensures KnownFilled(Step(on, s, op), id) && (id in Step(on, s, op).cancels <==> id in s.cancels)
  {
    hide Keys, QueueAfter, InZone;
  }

  /** Once the row has left PENDING and the cache knows, no run ever cancels the signal. */
  lemma {:induction false} KnownFillIsNeverCancelled(on: bool, s: State, ops: seq<Op>, id: int)
    requires Legal(on, s, ops) && KnownFilled(s, id)
    ensures KnownFilled(Run(on, s, ops), id) && (id in Run(on, s, ops).cancels <==> id in s.cancels)
  {
    hide Step, Enabled, KnownFilled;
    if ops != [] {
      KnownFillIsNeverCancelled(on, s, ops[..|ops| - 1], id);
      StepKeepsKnown(on, Run(on, s, ops[..|ops| - 1]), ops[|ops| - 1], id);
    }
  }

  /** A refresh is what makes a fill known. */
  lemma RefreshKnowsFill(s: State, id: int)
    requires s.cancelling.None? && id in s.rows && s.rows[id].status != Pending
    ensures KnownFilled(DoRefresh(s), id)
  {
  }

  /**
   The cache learns of a fill only at a refresh. Between the two, a tick that would have expired the
   signal still has the broker cancel its GTTs; only the row is protected.
   */
  lemma LateFillIsStillCancelled(on: bool, s: State, id: int, p: int, time: int)
    requires Sound(s) && s.cancelling.None? && Waiting(s, id)
    requires Expires(on, Touching(on, s.mem[id], p), p, time)
    ensures var ops := [Move(id, Active), Visit(id, p, time), Cancel];
      && Legal(on, s, ops) && id in Run(on, s, ops).cancels
      && id in Run(on, s, ops).rows && Run(on, s, ops).rows[id].status == Active
  {
    var first := Move(id, Active);
    var s1 := Step(on, s, first);
    OneStep(on, s, first);
    MoreSteps(on, s, [first], Visit(id, p, time));
    MoreSteps(on, s, [first, Visit(id, p, time)], Cancel);
    hide Sound, Expires, Touching, QueueAfter, Keys;
    assert [first] + [Visit(id, p, time)] + [Cancel] == [first, Visit(id, p, time), Cancel];
    assert Step(on, s1, Visit(id, p, time)) == DoVisit(on, s1, id, p, time);
  }

  lemma OneStep(on: bool, s: State, op: Op)
    ensures Run(on, s, [op]) == Step(on, s, op) && (Legal(on, s, [op]) <==> Enabled(s, op))
  {
    hide Step, Enabled;
    assert [op][..0] == [];
  }

  lemma MoreSteps(on: bool, s: State, ops: seq<Op>, op: Op)
    ensures Run(on, s, ops + [op]) == Step(on, Run(on, s, ops), op)
    ensures Legal(on, s, ops + [op]) <==> Legal(on, s, ops) && Enabled(Run(on, s, ops), op)
  {
    hide Step, Enabled;
    assert (ops + [op])[..|ops|] == ops;
  }
}
