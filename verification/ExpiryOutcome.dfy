/**
 The second-generation price monitor in plain prices: which ticks touch the entry zone, which expire a signal, and
 which events are logged, over whole runs.
 */
module ExpiryOutcome {
  import opened Options
  import opened ExpiryMachine
  import opened ExpiryRuns

  // ----- The entry zone -----

  /** From low to high; up to five points above low where no high end is given; nowhere without a low end. */
  predicate Touches(t: Terms, p: int) {
    match (t.low, t.high)
    case (None, _) => false
    case (Some(low), None) => p <= low + 500
    case (Some(low), Some(high)) => low <= p && p <= high
  }

  lemma ZoneIs(t: Terms, p: int)
    ensures InZone(t, p) <==> Touches(t, p)
  {
  }

  /** A touch was known before, or the touch logic is on and some tick touched the zone. */
  ghost predicate Touched(on: bool, t: Terms, known: bool, ticks: seq<Tick>) {
    known || (on && exists j :: 0 <= j < |ticks| && Touches(t, ticks[j].price))
  }

  /** While its row is PENDING, the signal is cached with this flag. */
  ghost predicate FlagIs(s: State, id: int, t: Terms, touched: bool) {
    && id in s.rows && s.rows[id].terms == t
    && (s.rows[id].status == Pending ==> id in s.mem && s.mem[id].terms == t && s.mem[id].touched == touched)
  }

  lemma VisitFlags(on: bool, s: State, tick: Tick, id: int, t: Terms, touched: bool)
    requires FlagIs(s, id, t, touched)
    ensures FlagIs(DoVisit(on, s, id, tick.price, tick.time), id, t, touched || (on && Touches(t, tick.price)))
  {
    ZoneIs(t, tick.price);
    hide QueueAfter, Expires, Touches, InZone;
  }

  lemma OtherFlags(on: bool, s: State, op: Op, id: int, t: Terms, touched: bool)
    requires Sound(s) && Enabled(s, op) && FlagIs(s, id, t, touched) && !(op.Visit? && op.id == id)
    ensures FlagIs(Step(on, s, op), id, t, touched)
  {
    SoundAt(s, id);
    hide QueueAfter, Expires, Touching, Keys, Sound, CancelHolds;
  }

  lemma TouchedMore(on: bool, t: Terms, known: bool, ticks: seq<Tick>, tick: Tick)
    ensures Touched(on, t, known, ticks + [tick]) <==> Touched(on, t, known, ticks) || (on && Touches(t, tick.price))
  {
    hide Touches;
    var more := ticks + [tick];
    assert forall j :: 0 <= j < |ticks| ==> more[j] == ticks[j];
    assert more[|ticks|] == tick;
  }

  lemma {:induction false} RunFlags(on: bool, s: State, ops: seq<Op>, id: int, t: Terms, known: bool)
    requires Sound(s) && Legal(on, s, ops) && FlagIs(s, id, t, known)
    ensures FlagIs(Run(on, s, ops), id, t, Touched(on, t, known, Ticks(ops, id)))
  {
    hide FlagIs, Touched, Sound, Step, Enabled;
    if ops == [] {
      NotTouched(on, t, known);
    } else {
      var n := |ops| - 1;
      var before, op, ticks := Run(on, s, ops[..n]), ops[n], Ticks(ops[..n], id);
      RunFlags(on, s, ops[..n], id, t, known);
      RunKeepsSound(on, s, ops[..n]);
      if op.Visit? && op.id == id {
        VisitStep(on, before, op);
        VisitFlags(on, before, Tick(op.price, op.time), id, t, Touched(on, t, known, ticks));
        TouchedMore(on, t, known, ticks, Tick(op.price, op.time));
      } else {
        OtherFlags(on, before, op, id, t, Touched(on, t, known, ticks));
        assert ticks + [] == ticks;
      }
    }
  }

  lemma NotTouched(on: bool, t: Terms, known: bool)
    ensures Touched(on, t, known, []) <==> known
  {
  }

  /**
   In every run, with refreshes, late and lost writes, failing updates and moves by others: as long as its row is
   PENDING, a signal that was untouched is touched if and only if the touch logic is on and some tick lay between low
   and high; where no high end is given, at most five points above low; and never where no low end is given.
   */
  lemma TouchExact(on: bool, s: State, ops: seq<Op>, id: int)
    requires Sound(s) && Legal(on, s, ops) && Waiting(s, id) && !s.mem[id].touched
    ensures var t, end, ticks := s.rows[id].terms, Run(on, s, ops), Ticks(ops, id);
      id in end.rows && (end.rows[id].status == Pending ==>
        && id in end.mem
        && (!on ==> !end.mem[id].touched)
        && (on && t.low.Some? && t.high.Some? ==>
              (end.mem[id].touched <==>
                 exists j :: 0 <= j < |ticks| && t.low.value <= ticks[j].price <= t.high.value))
        && (on && t.low.Some? && t.high.None? ==>
              (end.mem[id].touched <==> exists j :: 0 <= j < |ticks| && ticks[j].price <= t.low.value + 500))
        && (t.low.None? ==> !end.mem[id].touched))
  {
    SoundAt(s, id);
    var t, ticks := s.rows[id].terms, Ticks(ops, id);
    hide Sound, Run, Legal, Ticks;
    RunFlags(on, s, ops, id, t, false);
  }

  // ----- Outside the zone -----

  /** Nobody asked the broker about the signal, and its row waits. */
  predicate Unasked(s: State, id: int) {
    id !in s.cancels && s.cancelling != Some(id) && id in s.rows && s.rows[id].status == Pending
  }

  lemma StaysUnasked(on: bool, s: State, op: Op, id: int, t: Terms)
    requires on && Enabled(s, op) && Unasked(s, id) && FlagIs(s, id, t, false)
    requires op.Visit? && op.id == id ==> !Touches(t, op.price)
    requires op.Move? ==> op.id != id
    ensures Unasked(Step(on, s, op), id)
  {
    if op.Visit? { ZoneIs(t, op.price); }
    hide QueueAfter, InZone, Touches, Keys, OnTime, Crossed, Reached, Loaded;
  }

  lemma {:induction false} RunUnasked(on: bool, s: State, ops: seq<Op>, id: int, t: Terms)
    requires on && Sound(s) && Legal(on, s, ops) && NoMoves(ops, id) && FlagIs(s, id, t, false) && Unasked(s, id)
    requires !Touched(on, t, false, Ticks(ops, id))
    ensures Unasked(Run(on, s, ops), id)
  {
    hide FlagIs, Touches, Sound, Step, Enabled, Unasked;
    if ops != [] {
      var n := |ops| - 1;
      var op, ticks := ops[n], Ticks(ops[..n], id);
      if op.Visit? && op.id == id {
        TouchedMore(on, t, false, ticks, Tick(op.price, op.time));
      } else {
        assert ticks + [] == ticks;
      }
      RunUnasked(on, s, ops[..n], id, t);
      RunFlags(on, s, ops[..n], id, t, false);
      StaysUnasked(on, Run(on, s, ops[..n]), op, id, t);
    }
  }

  /**
   Where the touch logic is on, a signal whose ticks all lie outside its entry zone is never expired, and the broker
   is never asked, however far past the target they are.
   */
  lemma OutsideIsKept(s: State, ops: seq<Op>, id: int)
    requires Sound(s) && Legal(true, s, ops) && NoMoves(ops, id)
    requires Waiting(s, id) && !s.mem[id].touched && id !in s.cancels
    requires forall j :: 0 <= j < |Ticks(ops, id)| ==> !Touches(s.rows[id].terms, Ticks(ops, id)[j].price)
    ensures var end := Run(true, s, ops);
      && id in end.rows && end.rows[id].status == Pending && id in end.mem && !end.mem[id].touched
      && id !in end.cancels
  {
    SoundAt(s, id);
    var t := s.rows[id].terms;
    hide Sound, Run, Legal, Ticks, Touches;
    RunUnasked(true, s, ops, id, t);
    RunFlags(true, s, ops, id, t, false);
  }

  // ----- The tick that expires -----

  /** Past the first target: at least at it, or strictly beyond. */
  predicate PastFirst(t: Terms, p: int, strictly: bool) {
    && t.targets != []
    && match t.action
       case Buy => if strictly then p > t.targets[0] else p >= t.targets[0]
       case Sell => if strictly then p < t.targets[0] else p <= t.targets[0]
       case OtherAction => false
  }

  /** Tick i expires the signal: late enough, strictly past the target, with a touch by then; or, old style, at it. */
  ghost predicate ExpiresAt(on: bool, t: Terms, known: bool, ticks: seq<Tick>, i: nat) {
    && i < |ticks|
    && if on then
         && (t.signalAt.Some? ==> t.signalAt.value <= ticks[i].time) && PastFirst(t, ticks[i].price, true)
         && (known || exists j :: 0 <= j <= i && Touches(t, ticks[j].price))
       else PastFirst(t, ticks[i].price, false)
  }

  lemma FiresIs(on: bool, t: Terms, known: bool, ticks: seq<Tick>, i: nat)
    ensures FiresAt(on, t, known, ticks, i) <==> ExpiresAt(on, t, known, ticks, i)
  {
    hide InZone, Touches;
    forall j | 0 <= j < |ticks| ensures ZoneAt(t, ticks, j) <==> Touches(t, ticks[j].price) {
      ZoneIs(t, ticks[j].price);
    }
  }

  /**
   So the row of a waiting signal that nobody moves is expired, or about to be, exactly where the broker was asked, and
   that exactly where one of its ticks, since the last update that failed, expires it.
   */
  lemma ExpiredIff(on: bool, s: State, ops: seq<Op>, id: int)
    requires Sound(s) && Legal(on, s, ops) && NoMoves(ops, id) && NoLostAnswers(ops, id) && Waiting(s, id)
    ensures var t, end := s.rows[id].terms, Run(on, s, ops);
      && id in end.rows && id in s.mem
      && var known, ticks := KnownSince(on, s.mem[id].touched, ops, id), TicksSince(ops, id);
         var expires := exists i: nat :: ExpiresAt(on, t, known, ticks, i);
      && (end.rows[id].status == Expired <==> expires && end.cancelling != Some(id))
      && (end.rows[id].status == Pending <==> !expires || end.cancelling == Some(id))
  {
    ExpiryExact(on, s, ops, id);
    hide Sound, Run, Legal, TicksSince, KnownSince, FiresAt, ExpiresAt, Standing, TouchedBy;
    var t, known, ticks := s.rows[id].terms, KnownSince(on, s.mem[id].touched, ops, id), TicksSince(ops, id);
    forall i: nat ensures FiresAt(on, t, known, ticks, i) <==> ExpiresAt(on, t, known, ticks, i) {
      FiresIs(on, t, known, ticks, i);
    }
    assert forall i: nat :: ExpiresAt(on, t, known, ticks, i) ==> i < |ticks| by { ExpiresWithin(on, t, known, ticks); }
  }

  lemma ExpiresWithin(on: bool, t: Terms, known: bool, ticks: seq<Tick>)
    ensures forall i: nat :: ExpiresAt(on, t, known, ticks, i) ==> i < |ticks|
  {
  }

  // ----- Events -----

  /** At or past the level in the signal's favour. */
  predicate Ahead(t: Terms, p: int, level: int) {
    match t.action
    case Buy => p >= level
    case Sell => p <= level
    case OtherAction => false
  }

  /** The first target in list order that the price is at; or the stoploss, where it is at no target but at that. */
  predicate Tells(t: Terms, p: int, kind: Kind) {
    match kind
    case TargetReached(k) =>
      k < |t.targets| && Ahead(t, p, t.targets[k]) && forall i :: 0 <= i < k ==> !Ahead(t, p, t.targets[i])
    case StoplossReached =>
      && (forall i :: 0 <= i < |t.targets| ==> !Ahead(t, p, t.targets[i]))
      && t.stop != 0 && match t.action
                        case Buy => p <= t.stop
                        case Sell => p >= t.stop
                        case OtherAction => false
  }

  lemma EventIs(t: Terms, p: int)
    ensures forall kind :: Tells(t, p, kind) <==> EventOf(t, p) == Some(kind)
  {
    var k := FirstReached(t, p, 0);
    assert forall i :: 0 <= i < |t.targets| ==> (Ahead(t, p, t.targets[i]) <==> Reached(t.action, p, t.targets[i]));
    hide FirstReached, Ahead, Reached;
    forall kind ensures Tells(t, p, kind) <==> EventOf(t, p) == Some(kind) {
      if kind.TargetReached? {
        assert Tells(t, p, kind) ==> !(kind.k < k) && !(k < kind.k);
      }
    }
  }

  /** Every stored event, and every one that still waits to be written, tells the truth about its signal. */
  predicate EventTrue(s: State, w: Write) {
    w.PriceEvent? ==> w.id in s.rows && Tells(s.rows[w.id].terms, w.price, w.kind)
  }

  predicate EventsTrue(s: State) {
    && (forall i :: 0 <= i < |s.events| ==> EventTrue(s, s.events[i]))
    && (forall i :: 0 <= i < |s.queue| ==> EventTrue(s, s.queue[i]))
  }

  lemma TermsStay(on: bool, s: State, op: Op, w: Write)
    requires Enabled(s, op) && EventTrue(s, w)
    ensures EventTrue(Step(on, s, op), w)
  {
    hide DoVisit, Keys, Tells;
    if op.Visit? { VisitKeepsRows(on, s, op); }
  }

  lemma NewWritesTell(on: bool, s: State, sig: Sig, p: int, w: Write)
    requires w in QueueAfter(on, s, sig, p)
    ensures w in s.queue || w.SetTouched? || (w.id == sig.id && w.price == p && Tells(sig.terms, p, w.kind))
  {
    EventIs(sig.terms, p);
    hide EventOf, InZone, Tells;
  }

  lemma VisitEvents(on: bool, s: State, id: int, p: int, time: int)
    requires Sound(s) && EventsTrue(s)
    ensures EventsTrue(DoVisit(on, s, id, p, time))
  {
    SoundAt(s, id);
    hide Sound, QueueAfter, Expires, Tells, TouchHolds, CancelHolds;
    if id in s.mem {
      var t := DoVisit(on, s, id, p, time);
      forall i | 0 <= i < |t.queue| ensures EventTrue(t, t.queue[i]) {
        NewWritesTell(on, s, s.mem[id], p, t.queue[i]);
      }
    }
  }

  lemma OtherEvents(on: bool, s: State, op: Op)
    requires Enabled(s, op) && EventsTrue(s) && !op.Visit?
    ensures EventsTrue(Step(on, s, op))
  {
    forall w | EventTrue(s, w) ensures EventTrue(Step(on, s, op), w) { TermsStay(on, s, op, w); }
    hide Keys, EventTrue, Loaded, Expire;
  }

  /** In every run, each event that is logged for a signal says which level its price was at, and the first of them. */
  lemma {:induction false} EventsTell(on: bool, s: State, ops: seq<Op>)
    requires Sound(s) && Legal(on, s, ops) && EventsTrue(s)
    ensures EventsTrue(Run(on, s, ops))
  {
    hide Sound, Step, Enabled, EventsTrue;
    if ops != [] {
      var n := |ops| - 1;
      EventsTell(on, s, ops[..n]);
      RunKeepsSound(on, s, ops[..n]);
      var before, op := Run(on, s, ops[..n]), ops[n];
      if op.Visit? {
        VisitStep(on, before, op);
        VisitEvents(on, before, op.id, op.price, op.time);
      } else {
        OtherEvents(on, before, op);
      }
    }
  }

  /** And none is left out: a tick queues its touch and its event, unless the queue is full. */
  lemma VisitLogs(on: bool, s: State, id: int, p: int, time: int)
    requires id in s.mem
    ensures var sig, queue := s.mem[id], DoVisit(on, s, id, p, time).queue;
      var touch := if on && !sig.touched && Touches(sig.terms, p) then [SetTouched(sig.id)] else [];
      && (|s.queue| >= 10_000 ==> queue == s.queue)
      && (|s.queue| + 2 <= 10_000 ==>
            && (forall kind :: Tells(sig.terms, p, kind) ==> queue == s.queue + touch + [PriceEvent(sig.id, p, kind)])
            && ((forall kind :: !Tells(sig.terms, p, kind)) ==> queue == s.queue + touch))
  {
    hide EventOf, InZone, Tells, Touches, Expires;
    EventIs(s.mem[id].terms, p);
    ZoneIs(s.mem[id].terms, p);
  }

  // ----- The writes of the queue -----

  function Writing(oks: seq<bool>): seq<Op> { seq(|oks|, i requires 0 <= i < |oks| => WriteOne(oks[i])) }

  /** The events among the writes that succeed. */
  function Arriving(queue: seq<Write>, oks: seq<bool>): seq<Write>
    requires |oks| <= |queue|
  {
    if oks == [] then []
    else
      var n := |oks| - 1;
      Arriving(queue, oks[..n]) + (if oks[n] && queue[n].PriceEvent? then [queue[n]] else [])
  }

  /**
   The queue is written in order. A write that succeeds stores its event, or the touch of its row, which the next
   refresh then knows even in a new process; one that fails is lost.
   */
  lemma {:induction false} QueueIsWritten(on: bool, s: State, oks: seq<bool>)
    requires |oks| <= |s.queue|
    ensures var t, n := Run(on, s, Writing(oks)), |oks|;
      && t.queue == s.queue[n..] && t.events == s.events + Arriving(s.queue, oks)
      && t.rows.Keys == s.rows.Keys
      && forall id :: id in s.rows ==>
           t.rows[id] == s.rows[id].(touched :=
             s.rows[id].touched || exists i :: 0 <= i < n && oks[i] && s.queue[i] == SetTouched(id))
  {
    hide DoWrite, DoVisit, DoCancel, DoRefresh, DoCancelFails;
    if oks != [] {
      var n := |oks| - 1;
      QueueIsWritten(on, s, oks[..n]);
      assert Writing(oks)[..n] == Writing(oks[..n]) && Writing(oks)[n] == WriteOne(oks[n]);
      OneWritten(Run(on, s, Writing(oks[..n])), oks[n]);
    }
  }

  lemma OneWritten(s: State, ok: bool)
    requires s.queue != []
    ensures var t, w := DoWrite(s, ok), s.queue[0];
      && t.queue == s.queue[1..]
      && t.events == (if ok && w.PriceEvent? then s.events + [w] else s.events)
      && t.rows.Keys == s.rows.Keys
      && forall id :: id in s.rows ==>
           t.rows[id] == s.rows[id].(touched := s.rows[id].touched || (ok && w == SetTouched(id)))
  {
  }

  // ----- What a refresh watches -----

  /** Exactly the PENDING and ACTIVE rows with an instrument; a touch is kept from the row and from the copy before. */
  lemma RefreshOutcome(s: State, id: int)
    ensures var mem := DoRefresh(s).mem;
      && (id in mem <==> id in s.rows && s.rows[id].status in {Pending, Active} && s.rows[id].terms.key != None)
      && (id in mem ==>
            mem[id] == Sig(id, s.rows[id].terms, s.rows[id].status == Active,
                           s.rows[id].touched || (id in s.mem && s.mem[id].touched)))
  {
    hide Keys;
  }
}
