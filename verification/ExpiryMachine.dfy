/**
 gtt_v2/services/price_monitor/main.py as a state machine: cached thresholds, the signal rows they
 were copied from, the queue of database writes that may be late or lost, and fills that move rows
 at any moment, also between the decision to expire a signal and the update that expires it.

 Prices are hundredths. A NULL stoploss is 0, because the code only tests it for truth.
 */
module ExpiryMachine {
  import opened Options

  datatype Action = Buy | Sell | OtherAction
  datatype Status = Pending | Active | Expired | Closed

  /** The columns nobody changes after the row was inserted. */
  datatype Terms = Terms(key: Option<string>, action: Action, low: Option<int>, high: Option<int>,
                         stop: int, targets: seq<int>, signalAt: Option<int>)

  datatype Row = Row(terms: Terms, status: Status, touched: bool)

  /** A dictionary in `_thresholds`. */
  datatype Sig = Sig(id: int, terms: Terms, filled: bool, touched: bool)

  datatype Kind = TargetReached(k: nat) | StoplossReached
  datatype Write = SetTouched(id: int) | PriceEvent(id: int, price: int, kind: Kind)

  /**
   `cancels` lists the signals whose GTTs the broker was asked to cancel, `failed` those where the update of
   the row that follows raised an error.
   */
  datatype State = State(rows: map<int, Row>, events: seq<Write>, mem: map<int, Sig>, tracked: set<string>,
                         queue: seq<Write>, cancels: seq<int>, failed: seq<int>, cancelling: Option<int>)

  const QUEUE_SIZE := 10_000
  const SYNTHETIC_RANGE := 500

  // ----- One signal, one tick -----

  predicate InZone(t: Terms, p: int) {
    && t.low.Some?
    && if t.high.None? then p <= t.low.value + SYNTHETIC_RANGE else t.low.value <= p <= t.high.value
  }

  predicate Reached(a: Action, p: int, level: int) {
    (a == Buy && p >= level) || (a == Sell && p <= level)
  }

  predicate Crossed(a: Action, p: int, level: int) {
    (a == Buy && p > level) || (a == Sell && p < level)
  }

  predicate Stopped(t: Terms, p: int) {
    t.stop != 0 && ((t.action == Buy && p <= t.stop) || (t.action == Sell && p >= t.stop))
  }

  predicate OnTime(t: Terms, time: int) { t.signalAt.Some? ==> time >= t.signalAt.value }

  /** The first target from index k on that the tick reaches; the number of targets when none is. */
  function FirstReached(t: Terms, p: int, k: nat): (r: nat)
    requires k <= |t.targets|
    ensures k <= r <= |t.targets|
    ensures forall i :: k <= i < r ==> !Reached(t.action, p, t.targets[i])
    ensures r < |t.targets| ==> Reached(t.action, p, t.targets[r])
    decreases |t.targets| - k
  {
    if k == |t.targets| || Reached(t.action, p, t.targets[k]) then k else FirstReached(t, p, k + 1)
  }

  function EventOf(t: Terms, p: int): Option<Kind> {
    var k := FirstReached(t, p, 0);
    if k < |t.targets| then Some(TargetReached(k))
    else if Stopped(t, p) then Some(StoplossReached)
    else None
  }

  /** The decision for a signal whose touched flag is up to date; `on` is use_entry_touch_logic. */
  predicate Expires(on: bool, sig: Sig, p: int, time: int) {
    && sig.terms.targets != [] && !sig.filled
    && Reached(sig.terms.action, p, sig.terms.targets[0])
    && (on ==> sig.touched && OnTime(sig.terms, time) && Crossed(sig.terms.action, p, sig.terms.targets[0]))
  }

  function Touching(on: bool, sig: Sig, p: int): Sig {
    sig.(touched := sig.touched || (on && InZone(sig.terms, p)))
  }

  function Enqueued(queue: seq<Write>, w: Write): seq<Write> {
    if |queue| < QUEUE_SIZE then queue + [w] else queue
  }

  // ----- Steps -----

  datatype Op =
    | Refresh
    | Visit(id: int, price: int, time: int)
    | Cancel
    | CancelFails(id: int, committed: bool)
    | WriteOne(ok: bool)
    | Move(id: int, status: Status)
    | Insert(id: int, row: Row)
    | Subscribe(key: string)
    | Unsubscribe(key: string)

  predicate Watched(r: Row) { r.status in {Pending, Active} && r.terms.key.Some? }

  function Loaded(s: State, id: int): Sig
    requires id in s.rows
  {
    var r := s.rows[id];
    Sig(id, r.terms, r.status != Pending, r.touched || (id in s.mem && s.mem[id].touched))
  }

  function Keys(mem: map<int, Sig>): set<string> {
    set id | id in mem && mem[id].terms.key.Some? :: mem[id].terms.key.value
  }

  function DoRefresh(s: State): State {
    var mem := map id | id in s.rows && Watched(s.rows[id]) :: Loaded(s, id);
    var before, after := Keys(s.mem), Keys(mem);
    s.(mem := mem, tracked := s.tracked + (after - before) - (before - after))
  }

  function QueueAfter(on: bool, s: State, sig: Sig, p: int): seq<Write> {
    var touch := if Touching(on, sig, p) != sig then Enqueued(s.queue, SetTouched(sig.id)) else s.queue;
    var event := EventOf(sig.terms, p);
    if event.Some? then Enqueued(touch, PriceEvent(sig.id, p, event.value)) else touch
  }

  /** A tick meets one signal. Nothing happens to a signal that is not cached. */
  function DoVisit(on: bool, s: State, id: int, p: int, time: int): State {
    if id !in s.mem then s
    else
      var sig := Touching(on, s.mem[id], p);
      var next := s.(mem := s.mem[id := sig], queue := QueueAfter(on, s, s.mem[id], p));
      if Expires(on, sig, p, time) then next.(cancels := s.cancels + [id], cancelling := Some(id)) else next
  }

  function Expire(rows: map<int, Row>, id: int): map<int, Row> {
    if id in rows && rows[id].status == Pending then rows[id := rows[id].(status := Expired)] else rows
  }

  /** UPDATE ... WHERE status = 'PENDING', then eviction. */
  function DoCancel(s: State): State {
    if s.cancelling.None? then s
    else
      var id := s.cancelling.value;
      var mem := s.mem - {id};
      s.(rows := Expire(s.rows, id), mem := mem, tracked := s.tracked - (Keys(s.mem) - Keys(mem)), cancelling := None)
  }

  /** The update raises: the check ends, nothing is evicted, and the row was expired only if it was committed. */
  function DoCancelFails(s: State, id: int, committed: bool): State {
    s.(rows := if committed then Expire(s.rows, id) else s.rows, failed := s.failed + [id], cancelling := None)
  }

  function DoWrite(s: State, ok: bool): State {
    if s.queue == [] then s
    else
      var next, w := s.(queue := s.queue[1..]), s.queue[0];
      if !ok then next
      else match w
           case SetTouched(id) =>
             if id in s.rows then next.(rows := s.rows[id := s.rows[id].(touched := true)]) else next
           case PriceEvent(_, _, _) => next.(events := s.events + [w])
  }

  /** Checks run one after the other; everybody else may step at any time. No row becomes PENDING again. */
  predicate Enabled(s: State, op: Op) {
    match op
    case Refresh => s.cancelling.None?
    case Visit(_, _, _) => s.cancelling.None?
    case Cancel => s.cancelling.Some?
    case CancelFails(id, _) => s.cancelling == Some(id)
    case Move(id, status) => id in s.rows && status != Pending
    case Insert(id, row) => id !in s.rows && !row.touched
    case _ => true
  }

  function Step(on: bool, s: State, op: Op): State {
    match op
    case Refresh => DoRefresh(s)
    case Visit(id, price, time) => DoVisit(on, s, id, price, time)
    case Cancel => DoCancel(s)
    case CancelFails(id, committed) => DoCancelFails(s, id, committed)
    case WriteOne(ok) => DoWrite(s, ok)
    case Move(id, status) => if id in s.rows then s.(rows := s.rows[id := s.rows[id].(status := status)]) else s
    case Insert(id, row) => s.(rows := s.rows[id := row])
    case Subscribe(key) => if key == "" then s else s.(tracked := s.tracked + {key})
    case Unsubscribe(key) => s.(tracked := s.tracked - {key})
  }

  function Run(on: bool, s: State, ops: seq<Op>): State {
    if ops == [] then s
    else Step(on, Run(on, s, ops[..|ops| - 1]), ops[|ops| - 1])
  }

  predicate Legal(on: bool, s: State, ops: seq<Op>) {
    ops == [] || (Legal(on, s, ops[..|ops| - 1]) && Enabled(Run(on, s, ops[..|ops| - 1]), ops[|ops| - 1]))
  }

  // ----- What always holds -----

  /** The cache entry of a signal is a copy of its row that may be out of date. */
  predicate CopyHolds(s: State, id: int) {
    id in s.mem ==>
      && id in s.rows && s.mem[id].id == id && s.mem[id].terms == s.rows[id].terms && s.mem[id].terms.key.Some?
      && (s.rows[id].status == Pending ==> !s.mem[id].filled)
  }

  /** A touch that is stored or on its way is known to the cache as long as it matters. */
  predicate TouchHolds(s: State, id: int) {
    && (id in s.mem && !s.mem[id].filled && id in s.rows && s.rows[id].touched ==> s.mem[id].touched)
    && (id in s.mem && !s.mem[id].filled && SetTouched(id) in s.queue ==> s.mem[id].touched)
    && (SetTouched(id) in s.queue ==> id in s.rows)
    && (id in s.rows && s.rows[id].status == Pending && SetTouched(id) in s.queue ==> id in s.mem)
  }

  /** The broker was asked to cancel, and the update of the row did not fail since. */
  predicate Standing(s: State, id: int) { multiset(s.cancels)[id] > multiset(s.failed)[id] }

  /** A signal with a standing cancellation cannot be cancelled again. */
  predicate CancelHolds(s: State, id: int) {
    && multiset(s.failed)[id] <= multiset(s.cancels)[id] <= multiset(s.failed)[id] + 1
    && (s.cancelling == Some(id) ==> Standing(s, id) && id in s.mem)
    && (Standing(s, id) && s.cancelling != Some(id) ==>
          id in s.rows && s.rows[id].status != Pending && (id in s.mem ==> s.mem[id].filled))
  }

  predicate SoundFor(s: State, id: int) { CopyHolds(s, id) && TouchHolds(s, id) && CancelHolds(s, id) }

  ghost predicate Sound(s: State) { forall id :: SoundFor(s, id) }

  lemma SoundAt(s: State, id: int)
    requires Sound(s)
    ensures SoundFor(s, id)
  {
  }

  /** A process that just started, over any database. */
  lemma StartIsSound(s: State)
    requires s.mem == map[] && s.queue == [] && s.cancels == [] && s.failed == [] && s.cancelling.None?
    ensures Sound(s)
  {
  }

  lemma StepKeepsCopy(on: bool, s: State, op: Op, id: int)
    requires SoundFor(s, id) && Enabled(s, op)
    requires s.cancelling.Some? ==> CopyHolds(s, s.cancelling.value)
    ensures CopyHolds(Step(on, s, op), id)
  {
    hide Keys, InZone, FirstReached, EventOf, Expires, TouchHolds, CancelHolds;
  }

  lemma NewWrites(on: bool, s: State, op: Op, id: int)
    requires SetTouched(id) in Step(on, s, op).queue
    requires id in s.mem ==> s.mem[id].id == id
    requires op.Visit? && op.id in s.mem ==> s.mem[op.id].id == op.id
    ensures SetTouched(id) in s.queue
         || (op.Visit? && op.id == id && id in s.mem && Touching(on, s.mem[id], op.price).touched)
  {
    hide Keys, InZone, FirstReached, EventOf, Expires;
  }

  lemma VisitKeepsTouch(on: bool, s: State, seen: int, p: int, time: int, id: int)
    requires SoundFor(s, id) && SoundFor(s, seen) && s.cancelling.None?
    ensures TouchHolds(DoVisit(on, s, seen, p, time), id)
  {
    hide Keys, InZone, FirstReached, EventOf, Expires, QueueAfter, CancelHolds;
    if SetTouched(id) in DoVisit(on, s, seen, p, time).queue {
      NewWrites(on, s, Visit(seen, p, time), id);
    }
  }

  lemma RefreshKeepsTouch(s: State, id: int)
    requires SoundFor(s, id)
    ensures TouchHolds(DoRefresh(s), id)
  {
    hide Keys, CancelHolds;
  }

  lemma StepKeepsTouch(on: bool, s: State, op: Op, id: int)
    requires SoundFor(s, id) && Enabled(s, op)
    requires op.Visit? ==> SoundFor(s, op.id)
    ensures TouchHolds(Step(on, s, op), id)
  {
    hide Keys, DoVisit, DoRefresh, CopyHolds;
    match op
    case Visit(seen, price, time) => VisitKeepsTouch(on, s, seen, price, time, id);
    case Refresh => RefreshKeepsTouch(s, id);
    case _ =>
  }

  lemma CountMore(ids: seq<int>, more: int, id: int)
    ensures multiset(ids + [more])[id] == multiset(ids)[id] + if more == id then 1 else 0
  {
  }

  lemma VisitKeepsCancels(on: bool, s: State, seen: int, p: int, time: int, id: int)
    requires CancelHolds(s, id) && s.cancelling.None?
    ensures CancelHolds(DoVisit(on, s, seen, p, time), id)
  {
    hide InZone, FirstReached, EventOf, QueueAfter;
    CountMore(s.cancels, seen, id);
  }

  lemma StopKeepsCancels(on: bool, s: State, op: Op, id: int)
    requires CopyHolds(s, id) && CancelHolds(s, id) && Enabled(s, op) && (op.Cancel? || op.CancelFails?)
    ensures CancelHolds(Step(on, s, op), id)
  {
    hide Keys, DoVisit, DoRefresh;
    if op.CancelFails? { CountMore(s.failed, op.id, id); }
  }

  lemma StepKeepsCancels(on: bool, s: State, op: Op, id: int)
    requires SoundFor(s, id) && Enabled(s, op)
    ensures CancelHolds(Step(on, s, op), id)
  {
    hide Keys, DoVisit, DoCancel, DoCancelFails, TouchHolds;
    match op
    case Visit(seen, price, time) => VisitKeepsCancels(on, s, seen, price, time, id);
    case Cancel => StopKeepsCancels(on, s, op, id);
    case CancelFails(_, _) => StopKeepsCancels(on, s, op, id);
    case _ =>
  }

  lemma StepKeepsSound(on: bool, s: State, op: Op)
    requires Sound(s) && Enabled(s, op)
    ensures Sound(Step(on, s, op))
  {
    hide Step, CopyHolds, TouchHolds, CancelHolds;
    forall id ensures SoundFor(Step(on, s, op), id) {
      assert SoundFor(s, id);
      assert s.cancelling.Some? ==> SoundFor(s, s.cancelling.value);
      assert op.Visit? ==> SoundFor(s, op.id);
      StepKeepsCopy(on, s, op, id);
      StepKeepsTouch(on, s, op, id);
      StepKeepsCancels(on, s, op, id);
    }
  }

  lemma {:induction false} RunKeepsSound(on: bool, s: State, ops: seq<Op>)
    requires Sound(s) && Legal(on, s, ops)
    ensures Sound(Run(on, s, ops))
  {
    hide Step, Sound, Enabled;
    if ops != [] {
      RunKeepsSound(on, s, ops[..|ops| - 1]);
      StepKeepsSound(on, Run(on, s, ops[..|ops| - 1]), ops[|ops| - 1]);
    }
  }
}
