/**
 From the Redis stream to the broker: any number of trading-engine workers
 (gtt_v2/services/trading_engine/main.py), each free to stop, crash, or take over messages of others
 between any two of its commands. The unique signal hash decides who may place an order.
 */
module Placement {
  import opened Options

  type Msg = int
  type Hash = int

  /** Where a worker stands in process_signal; `Holding` is between the insert and place_gtt. */
  datatype Stage = Idle | Gating(msg: Msg) | Holding(msg: Msg, hash: Hash) | Finishing(msg: Msg)

  datatype Worker = Worker(inbox: seq<Msg>, stage: Stage)

  /** A row of `signals`; `owner` is the worker whose insert returned its id, None for a BLOCKED row. */
  datatype Row = Row(owner: Option<nat>)

  datatype Call = Call(hash: Hash, worker: nat)

  /** `pending` is the group's list of delivered, unacknowledged messages; `blocked` the queued BLOCKED rows. */
  datatype State = State(hashes: map<Msg, Hash>, unread: set<Msg>, pending: set<Msg>, acked: set<Msg>,
                         workers: seq<Worker>, rows: map<Hash, Row>, calls: seq<Call>, blocked: seq<Hash>)

  datatype Op =
    | Publish(msg: Msg, hash: Hash)
    | Deliver(w: nat, msg: Msg)
    | Reclaim(w: nat, msg: Msg)
    | Take(w: nat)
    | Block(w: nat)
    | Insert(w: nat)
    | InsertUnseen(w: nat)
    | Place(w: nat)
    | GiveUp(w: nat)
    | Ack(w: nat)
    | Abort(w: nat)
    | Crash(w: nat)
    | WriteBlocked(ok: bool)

  predicate Working(s: State, w: nat) { w < |s.workers| && !s.workers[w].stage.Idle? }

  predicate Enabled(s: State, op: Op) {
    match op
    case Publish(msg, _) => msg !in s.hashes
    case Deliver(w, msg) => w < |s.workers| && msg in s.unread
    case Reclaim(w, msg) => w < |s.workers| && msg in s.pending
    case Take(w) => w < |s.workers| && s.workers[w].stage.Idle? && s.workers[w].inbox != []
    case Block(w) => w < |s.workers| && s.workers[w].stage.Gating? && s.workers[w].stage.msg in s.hashes
    case Insert(w) => w < |s.workers| && s.workers[w].stage.Gating? && s.workers[w].stage.msg in s.hashes
    case InsertUnseen(w) => w < |s.workers| && s.workers[w].stage.Gating? && s.workers[w].stage.msg in s.hashes
    case Place(w) => w < |s.workers| && s.workers[w].stage.Holding?
    case GiveUp(w) => Working(s, w)
    case Ack(w) => w < |s.workers| && s.workers[w].stage.Finishing?
    case Abort(w) => Working(s, w)
    case Crash(w) => w < |s.workers|
    case WriteBlocked(_) => s.blocked != []
  }

  function Moved(s: State, w: nat, g: Stage): State
    requires w < |s.workers|
  {
    s.(workers := s.workers[w := s.workers[w].(stage := g)])
  }

  function Received(s: State, w: nat, msg: Msg): State
    requires w < |s.workers|
  {
    s.(workers := s.workers[w := s.workers[w].(inbox := s.workers[w].inbox + [msg])])
  }

  /** INSERT ... ON CONFLICT (signal_hash) DO NOTHING. */
  function WithRow(rows: map<Hash, Row>, hash: Hash, owner: Option<nat>): map<Hash, Row> {
    if hash in rows then rows else rows[hash := Row(owner)]
  }

  function Step(s: State, op: Op): State {
    if !Enabled(s, op) then s
    else match op
         case Publish(msg, hash) => s.(hashes := s.hashes[msg := hash], unread := s.unread + {msg})
         case Deliver(w, msg) => Received(s.(unread := s.unread - {msg}, pending := s.pending + {msg}), w, msg)
         case Reclaim(w, msg) => Received(s, w, msg)
         case Take(w) =>
           var inbox := s.workers[w].inbox;
           s.(workers := s.workers[w := Worker(inbox[1..], Gating(inbox[0]))])
         case Block(w) =>
           var msg := s.workers[w].stage.msg;
           Moved(s, w, Finishing(msg)).(blocked := s.blocked + [s.hashes[msg]])
         case Insert(w) =>
           var msg := s.workers[w].stage.msg;
           var hash := s.hashes[msg];
           var next := if hash in s.rows then Finishing(msg) else Holding(msg, hash);
           Moved(s, w, next).(rows := WithRow(s.rows, hash, Some(w)))
         case InsertUnseen(w) =>
           Moved(s, w, Idle).(rows := WithRow(s.rows, s.hashes[s.workers[w].stage.msg], Some(w)))
         case Place(w) =>
           var g := s.workers[w].stage;
           Moved(s, w, Finishing(g.msg)).(calls := s.calls + [Call(g.hash, w)])
         case GiveUp(w) => Moved(s, w, Finishing(s.workers[w].stage.msg))
         case Ack(w) =>
           var msg := s.workers[w].stage.msg;
           Moved(s, w, Idle).(pending := s.pending - {msg}, acked := s.acked + {msg})
         case Abort(w) => Moved(s, w, Idle)
         case Crash(w) => s.(workers := s.workers[w := Worker([], Idle)])
         case WriteBlocked(ok) =>
           s.(blocked := s.blocked[1..], rows := if ok then WithRow(s.rows, s.blocked[0], None) else s.rows)
  }

  function Run(s: State, ops: seq<Op>): State {
    if ops == [] then s else Step(Run(s, ops[..|ops| - 1]), ops[|ops| - 1])
  }

  // ----- Placement happens at most once -----

  predicate Holds(s: State, w: nat, hash: Hash) {
    w < |s.workers| && s.workers[w].stage.Holding? && s.workers[w].stage.hash == hash
  }

  predicate Placed(s: State, hash: Hash) {
    exists i :: 0 <= i < |s.calls| && s.calls[i].hash == hash
  }

  /** A worker that holds a hash inserted its row, and nobody has placed it. */
  predicate HoldersOwn(s: State) {
    forall w :: 0 <= w < |s.workers| && s.workers[w].stage.Holding? ==>
      var hash := s.workers[w].stage.hash;
      hash in s.rows && s.rows[hash].owner == Some(w) && !Placed(s, hash)
  }

  predicate CallersOwn(s: State) {
    && (forall i :: 0 <= i < |s.calls| ==>
          s.calls[i].hash in s.rows && s.rows[s.calls[i].hash].owner == Some(s.calls[i].worker))
    && (forall i, j :: 0 <= i < j < |s.calls| ==> s.calls[i].hash != s.calls[j].hash)
  }

  predicate Safe(s: State) { HoldersOwn(s) && CallersOwn(s) }

  lemma StepKeepsHolders(s: State, op: Op)
    requires Safe(s)
    ensures HoldersOwn(Step(s, op))
  {
  }

  lemma StepKeepsCallers(s: State, op: Op)
    requires Safe(s)
    ensures CallersOwn(Step(s, op))
  {
  }

  lemma StepKeepsSafe(s: State, op: Op)
    requires Safe(s)
    ensures Safe(Step(s, op))
  {
    hide Step, HoldersOwn, CallersOwn;
    StepKeepsHolders(s, op);
    StepKeepsCallers(s, op);
  }

  lemma {:induction false} RunKeepsSafe(s: State, ops: seq<Op>)
    requires Safe(s)
    ensures Safe(Run(s, ops))
  {
    hide Step, Safe;
    if ops != [] {
      RunKeepsSafe(s, ops[..|ops| - 1]);
      StepKeepsSafe(Run(s, ops[..|ops| - 1]), ops[|ops| - 1]);
    }
  }

  /** Nothing is held and nothing was placed: what a set of freshly started workers finds. */
  predicate Quiet(s: State) {
    s.calls == [] && forall w :: 0 <= w < |s.workers| ==> s.workers[w] == Worker([], Idle)
  }

  /**
   However workers interleave, crash, and take over each other's messages, place_gtt is called at most
   once per hash, and only by the worker whose insert returned the row.
   */
  lemma AtMostOncePlacement(s: State, ops: seq<Op>)
    requires Quiet(s)
    ensures var end := Run(s, ops);
      && (forall i, j :: 0 <= i < j < |end.calls| ==> end.calls[i].hash != end.calls[j].hash)
      && (forall i :: 0 <= i < |end.calls| ==>
            end.calls[i].hash in end.rows && end.rows[end.calls[i].hash].owner == Some(end.calls[i].worker))
  {
    hide Run;
    RunKeepsSafe(s, ops);
  }

  // ----- The price: a row without a holder is never placed -----

  /** The hash is taken: its row exists but no worker is about to place it. */
  predicate Orphaned(s: State, hash: Hash) {
    hash in s.rows && forall w :: 0 <= w < |s.workers| ==> !Holds(s, w, hash)
  }

  lemma StepKeepsOrphan(s: State, op: Op, hash: Hash)
    requires Orphaned(s, hash)
    ensures Orphaned(Step(s, op), hash) && (Placed(Step(s, op), hash) <==> Placed(s, hash))
  {
    var after := Step(s, op);
    forall w | 0 <= w < |after.workers|
      ensures !Holds(after, w, hash)
    {
      assert !Holds(s, w, hash);
    }
    if Enabled(s, op) && op.Place? {
      assert !Holds(s, op.w, hash);
      assert forall i :: 0 <= i < |s.calls| ==> after.calls[i] == s.calls[i];
    }
  }

  /**
   A hash whose row exists without a holder - its worker crashed or gave up before place_gtt, or the row
   is a BLOCKED one - is never placed afterwards, however often its message is delivered again.
   */
  lemma {:induction false} OrphanIsNeverPlaced(s: State, ops: seq<Op>, hash: Hash)
    requires Orphaned(s, hash)
    ensures Orphaned(Run(s, ops), hash) && (Placed(Run(s, ops), hash) <==> Placed(s, hash))
  {
    hide Step, Orphaned, Placed;
    if ops != [] {
      OrphanIsNeverPlaced(s, ops[..|ops| - 1], hash);
      StepKeepsOrphan(Run(s, ops[..|ops| - 1]), ops[|ops| - 1], hash);
    }
  }

  /** A crash between insert and placement leaves exactly such a row behind. */
  lemma CrashOrphans(s: State, w: nat, hash: Hash, ops: seq<Op>)
    requires Safe(s) && Holds(s, w, hash)
    ensures !Placed(Run(Step(s, Crash(w)), ops), hash)
  {
    var crashed := Step(s, Crash(w));
    assert Orphaned(crashed, hash) && !Placed(crashed, hash);
    hide *;
    OrphanIsNeverPlaced(crashed, ops, hash);
  }

  /** Once a BLOCKED row is written, its hash is never placed either, unless some worker holds it already. */
  lemma BlockedIsNeverPlaced(s: State, hash: Hash, ops: seq<Op>)
    requires s.blocked != [] && s.blocked[0] == hash && !Placed(s, hash)
    requires forall w :: 0 <= w < |s.workers| ==> !Holds(s, w, hash)
    ensures !Placed(Run(Step(s, WriteBlocked(true)), ops), hash)
  {
    var written := Step(s, WriteBlocked(true));
    assert forall w :: 0 <= w < |written.workers| ==> Holds(written, w, hash) == Holds(s, w, hash);
    assert Orphaned(written, hash) && !Placed(written, hash);
    hide *;
    OrphanIsNeverPlaced(written, ops, hash);
  }

  lemma FreshMsg(taken: set<Msg>) returns (msg: Msg)
    ensures forall m :: m in taken ==> m < msg
  {
    msg := 0;
    if m :| m in taken {
      msg := FreshMsg(taken - {m});
      msg := if m < msg then msg else m + 1;
      assert taken == (taken - {m}) + {m};
    }
  }

  /** A worker that starts afresh with a new message of an unknown hash inserts its row. */
  lemma FreshHolder(s: State, hash: Hash, msg: Msg)
    requires s.workers != [] && msg !in s.hashes && hash !in s.rows
    ensures Holds(Step(Step(Step(Step(Step(s, Crash(0)), Publish(msg, hash)), Deliver(0, msg)), Take(0)), Insert(0)),
                  0, hash)
  {
    var s2 := Step(Step(s, Crash(0)), Publish(msg, hash));
    assert s2.workers[0] == Worker([], Idle) && msg in s2.unread && s2.hashes[msg] == hash && s2.rows == s.rows;
    var s3 := Step(s2, Deliver(0, msg));
    assert s3.workers[0] == Worker([msg], Idle);
    var s4 := Step(s3, Take(0));
    assert s4.workers[0].stage == Gating(msg);
  }

  lemma FreshRun(s: State, hash: Hash, msg: Msg)
    requires s.workers != [] && msg !in s.hashes && hash !in s.rows
    ensures Placed(Run(s, [Crash(0), Publish(msg, hash), Deliver(0, msg), Take(0), Insert(0), Place(0)]), hash)
  {
    hide Run, Placed, Step, Holds;
    SixSteps(s, Crash(0), Publish(msg, hash), Deliver(0, msg), Take(0), Insert(0), Place(0));
    FreshHolder(s, hash, msg);
    LastCall(Step(Step(Step(Step(Step(s, Crash(0)), Publish(msg, hash)), Deliver(0, msg)), Take(0)), Insert(0)), hash);
  }

  lemma LastCall(s: State, hash: Hash)
    requires Holds(s, 0, hash)
    ensures Placed(Step(s, Place(0)), hash)
  {
    assert Step(s, Place(0)).calls[|s.calls|] == Call(hash, 0);
  }

  lemma SixSteps(s: State, a: Op, b: Op, c: Op, d: Op, e: Op, f: Op)
    ensures Run(s, [a, b, c, d, e, f]) == Step(Step(Step(Step(Step(Step(s, a), b), c), d), e), f)
  {
    hide Step, Run;
    NoOps(s);
    OneMore(s, [], a);
    OneMore(s, [a], b);
    OneMore(s, [a, b], c);
    OneMore(s, [a, b, c], d);
    OneMore(s, [a, b, c, d], e);
    OneMore(s, [a, b, c, d, e], f);
    assert [] + [a] == [a] && [a] + [b] == [a, b] && [a, b] + [c] == [a, b, c] && [a, b, c] + [d] == [a, b, c, d];
    assert [a, b, c, d] + [e] == [a, b, c, d, e] && [a, b, c, d, e] + [f] == [a, b, c, d, e, f];
  }

  lemma NoOps(s: State)
    ensures Run(s, []) == s
  {
  }

  lemma OneMore(s: State, ops: seq<Op>, op: Op)
    ensures Run(s, ops + [op]) == Step(Run(s, ops), op)
  {
    assert (ops + [op])[..|ops|] == ops;
  }

  /** Exactly the hashes that are not orphaned can still be placed. */
  lemma PlaceableIff(s: State, hash: Hash)
    requires Safe(s) && s.workers != [] && !Placed(s, hash)
    ensures (exists ops :: Placed(Run(s, ops), hash)) <==> !Orphaned(s, hash)
  {
    hide Run, Placed, Step;
    if Orphaned(s, hash) {
      forall ops ensures !Placed(Run(s, ops), hash) {
        OrphanIsNeverPlaced(s, ops, hash);
      }
    } else if hash !in s.rows {
      var msg := FreshMsg(s.hashes.Keys);
      FreshRun(s, hash, msg);
      assert exists ops :: Placed(Run(s, ops), hash);
    } else {
      var w :| 0 <= w < |s.workers| && Holds(s, w, hash);
      HolderPlaces(s, w, hash);
      assert exists ops :: Placed(Run(s, ops), hash);
    }
  }

  lemma HolderPlaces(s: State, w: nat, hash: Hash)
    requires Holds(s, w, hash)
    ensures Placed(Run(s, [Place(w)]), hash)
  {
    OneMore(s, [], Place(w));
    assert [] + [Place(w)] == [Place(w)];
    assert Step(s, Place(w)).calls[|s.calls|] == Call(hash, w);
  }

  // ----- No message vanishes -----

  predicate InHand(s: State, msg: Msg) { msg in s.pending || msg in s.acked }

  predicate WorkersHold(s: State) {
    forall w :: 0 <= w < |s.workers| ==>
      && (!s.workers[w].stage.Idle? ==> InHand(s, s.workers[w].stage.msg))
      && forall i :: 0 <= i < |s.workers[w].inbox| ==> InHand(s, s.workers[w].inbox[i])
  }

  predicate Accounted(s: State) {
    && s.hashes.Keys == s.unread + s.pending + s.acked
    && s.unread !! s.pending && s.unread !! s.acked && s.pending !! s.acked
    && WorkersHold(s)
  }

  lemma StepKeepsHands(s: State, op: Op)
    requires Accounted(s)
    ensures WorkersHold(Step(s, op))
  {
  }

  lemma StepKeepsAccounted(s: State, op: Op)
    requires Accounted(s)
    ensures Accounted(Step(s, op))
  {
    StepKeepsHands(s, op);
    if op.Ack? && Enabled(s, op) {
      assert InHand(s, s.workers[op.w].stage.msg);
    }
    hide WorkersHold;
  }

  /** Every published message is at every moment unread, pending (so that it can be claimed again) or acknowledged. */
  lemma {:induction false} NoMessageVanishes(s: State, ops: seq<Op>)
    requires Accounted(s)
    ensures Accounted(Run(s, ops))
  {
    hide Step, Accounted;
    if ops != [] {
      NoMessageVanishes(s, ops[..|ops| - 1]);
      StepKeepsAccounted(Run(s, ops[..|ops| - 1]), ops[|ops| - 1]);
    }
  }

  lemma FiveSteps(s: State, a: Op, b: Op, c: Op, d: Op, e: Op)
    ensures Run(s, [a, b, c, d, e]) == Step(Step(Step(Step(Step(s, a), b), c), d), e)
  {
    hide Step, Run;
    NoOps(s);
    OneMore(s, [], a);
    OneMore(s, [a], b);
    OneMore(s, [a, b], c);
    OneMore(s, [a, b, c], d);
    OneMore(s, [a, b, c, d], e);
    assert [] + [a] == [a] && [a] + [b] == [a, b] && [a, b] + [c] == [a, b, c] && [a, b, c] + [d] == [a, b, c, d];
    assert [a, b, c, d] + [e] == [a, b, c, d, e];
  }

  /** A fresh worker takes the message over, gives it up and acknowledges it. */
  lemma TakesOver(s: State, msg: Msg)
    requires s.workers != [] && (msg in s.unread || msg in s.pending)
    ensures var get := if msg in s.unread then Deliver(0, msg) else Reclaim(0, msg);
      msg in Step(Step(Step(Step(Step(s, Crash(0)), get), Take(0)), GiveUp(0)), Ack(0)).acked
  {
    var get := if msg in s.unread then Deliver(0, msg) else Reclaim(0, msg);
    var s1 := Step(s, Crash(0));
    assert s1.workers[0] == Worker([], Idle) && s1.unread == s.unread && s1.pending == s.pending;
    var s2 := Step(s1, get);
    assert s2.workers[0] == Worker([msg], Idle);
    var s3 := Step(s2, Take(0));
    assert s3.workers[0].stage == Gating(msg);
    var s4 := Step(s3, GiveUp(0));
    assert s4.workers[0].stage == Finishing(msg);
  }

  /** No message is stuck: whatever happened to the workers that had it, it can still be acknowledged. */
  lemma EveryMessageCanConclude(s: State, msg: Msg)
    requires Accounted(s) && s.workers != [] && msg in s.hashes
    ensures exists ops :: msg in Run(s, ops).acked
  {
    NoOps(s);
    hide Run, Step, WorkersHold;
    if msg in s.acked {
      assert msg in Run(s, []).acked;
    } else {
      var get := if msg in s.unread then Deliver(0, msg) else Reclaim(0, msg);
      TakesOver(s, msg);
      FiveSteps(s, Crash(0), get, Take(0), GiveUp(0), Ack(0));
      assert msg in Run(s, [Crash(0), get, Take(0), GiveUp(0), Ack(0)]).acked;
    }
  }

  // ----- One worker between two interruptions -----

  /**
   What the gates, the rate limiter, the broker and the database decide about a signal; `Disconnected` is a
   database connection lost at the insert, `committed` whether the row was stored nevertheless.
   */
  datatype Verdict = Blocked | RateLimited | Placeable | Failing | Disconnected(committed: bool)

  function SignalOps(w: nat, known: bool, v: Verdict): seq<Op> {
    match v
    case Blocked => [Block(w)]
    case RateLimited => if known then [Insert(w)] else [Insert(w), GiveUp(w)]
    case Placeable => if known then [Insert(w)] else [Insert(w), Place(w)]
    case Failing => [GiveUp(w)]
    case Disconnected(committed) => if committed then [InsertUnseen(w)] else [Abort(w)]
  }

  function VerdictOf(verdicts: map<Msg, Verdict>, msg: Msg): Verdict {
    if msg in verdicts then verdicts[msg] else Failing
  }

  /** The messages of a batch that get acknowledged. */
  function Concluded(verdicts: map<Msg, Verdict>, batch: seq<Msg>): set<Msg> {
    set msg | msg in batch && !VerdictOf(verdicts, msg).Disconnected?
  }

  lemma ConcludedMore(verdicts: map<Msg, Verdict>, batch: seq<Msg>, msg: Msg)
    ensures Concluded(verdicts, batch + [msg])
         == Concluded(verdicts, batch) + if VerdictOf(verdicts, msg).Disconnected? then {} else {msg}
  {
  }

  lemma TwoSteps(s: State, a: Op, b: Op)
    ensures Run(s, [a]) == Step(s, a) && Run(s, [a, b]) == Step(Step(s, a), b)
  {
    OneMore(s, [], a);
    OneMore(s, [a], b);
    assert [] + [a] == [a] && [a] + [b] == [a, b];
  }

  lemma {:induction false} RunJoins(s: State, a: seq<Op>, b: seq<Op>)
    ensures Run(s, a + b) == Run(Run(s, a), b)
  {
    hide Step;
    if b == [] {
      assert a + b == a;
    } else {
      assert (a + b)[..|a + b| - 1] == a + b[..|b| - 1];
      RunJoins(s, a, b[..|b| - 1]);
    }
  }

  lemma FirstThen(s: State, a: Op, ops: seq<Op>)
    ensures Run(s, [a] + ops) == Run(Step(s, a), ops)
  {
    hide Step;
    RunJoins(s, [a], ops);
    TwoSteps(s, a, a);
  }

  lemma TakeOne(s: State)
    requires s.workers != [] && s.workers[0].stage.Idle? && s.workers[0].inbox != []
    ensures var inbox := s.workers[0].inbox;
      Step(s, Take(0)) == s.(workers := s.workers[0 := Worker(inbox[1..], Gating(inbox[0]))])
  {
  }

  lemma AckOne(s: State, msg: Msg)
    requires s.workers != [] && s.workers[0].stage == Finishing(msg)
    ensures Step(s, Ack(0)) == Moved(s, 0, Idle).(pending := s.pending - {msg}, acked := s.acked + {msg})
  {
  }

  predicate Stores(v: Verdict) { v.RateLimited? || v.Placeable? || (v.Disconnected? && v.committed) }

  function Alone(s: State, inbox: seq<Msg>, g: Stage): State { s.(workers := [Worker(inbox, g)]) }

  lemma GateSteps(s: State, inbox: seq<Msg>, msg: Msg)
    requires s.workers == [Worker(inbox, Gating(msg))] && msg in s.hashes
    ensures var hash := s.hashes[msg];
      && Step(s, Block(0)) == Alone(s, inbox, Finishing(msg)).(blocked := s.blocked + [hash])
      && Step(s, GiveUp(0)) == Alone(s, inbox, Finishing(msg))
      && Step(s, Abort(0)) == Alone(s, inbox, Idle)
      && Step(s, InsertUnseen(0)) == Alone(s, inbox, Idle).(rows := WithRow(s.rows, hash, Some(0)))
      && var next := if hash in s.rows then Finishing(msg) else Holding(msg, hash);
         Step(s, Insert(0)) == Alone(s, inbox, next).(rows := WithRow(s.rows, hash, Some(0)))
  {
  }

  lemma HeldSteps(s: State, inbox: seq<Msg>, msg: Msg, hash: Hash)
    requires s.workers == [Worker(inbox, Holding(msg, hash))]
    ensures Step(s, Place(0)) == Alone(s, inbox, Finishing(msg)).(calls := s.calls + [Call(hash, 0)])
    ensures Step(s, GiveUp(0)) == Alone(s, inbox, Finishing(msg))
  {
  }

  /** What a signal's operations leave behind. */
  lemma SignalEffect(s: State, inbox: seq<Msg>, msg: Msg, v: Verdict)
    requires s.workers == [Worker(inbox, Gating(msg))] && msg in s.hashes
    ensures var hash := s.hashes[msg];
      Run(s, SignalOps(0, hash in s.rows, v))
      == Alone(s, inbox, if v.Disconnected? then Idle else Finishing(msg)).(
            rows := if Stores(v) then WithRow(s.rows, hash, Some(0)) else s.rows,
            calls := if v.Placeable? && hash !in s.rows then s.calls + [Call(hash, 0)] else s.calls,
            blocked := if v.Blocked? then s.blocked + [hash] else s.blocked)
  {
    hide Run, Step, WithRow;
    var hash := s.hashes[msg];
    GateSteps(s, inbox, msg);
    TwoSteps(s, Block(0), Ack(0));
    TwoSteps(s, InsertUnseen(0), Ack(0));
    TwoSteps(s, Abort(0), Ack(0));
    TwoSteps(s, Insert(0), Place(0));
    TwoSteps(s, Insert(0), GiveUp(0));
    TwoSteps(s, GiveUp(0), Ack(0));
    if hash !in s.rows {
      HeldSteps(Step(s, Insert(0)), inbox, msg, hash);
    }
  }

  /** The single worker of a process, with the tables it shares with nobody for the moment. */
  class Engine {
    var hashes: map<Msg, Hash>
    var pending: set<Msg>
    var acked: set<Msg>
    var inbox: seq<Msg>
    var rows: map<Hash, Row>
    var calls: seq<Call>
    var blocked: seq<Hash>

    ghost function View(stage: Stage): State
      reads this
    {
      State(hashes, {}, pending, acked, [Worker(inbox, stage)], rows, calls, blocked)
    }

    constructor (hashes: map<Msg, Hash>, inbox: seq<Msg>, rows: map<Hash, Row>)
      ensures this.hashes == hashes && this.inbox == inbox && this.rows == rows
      ensures calls == [] && blocked == [] && acked == {} && pending == hashes.Keys
    {
      this.hashes, this.inbox, this.rows := hashes, inbox, rows;
      calls, blocked, acked, pending := [], [], {}, hashes.Keys;
    }

    /** INSERT ... ON CONFLICT DO NOTHING RETURNING id. */
    method InsertSignal(hash: Hash) returns (inserted: bool)
      modifies this`rows
      ensures inserted == (hash !in old(rows)) && rows == WithRow(old(rows), hash, Some(0))
    {
      inserted := hash !in rows;
      if inserted {
        rows := rows[hash := Row(Some(0))];
      }
    }

    /** Returns whether the message may be acknowledged. */
    method ProcessSignal(msg: Msg, v: Verdict) returns (done: bool)
      requires msg in hashes
      modifies this`rows, this`calls, this`blocked
      ensures done == !v.Disconnected?
      ensures blocked == if v.Blocked? then old(blocked) + [hashes[msg]] else old(blocked)
      ensures rows == if (v.RateLimited? || v.Placeable? || v == Disconnected(true)) && hashes[msg] !in old(rows)
                      then old(rows)[hashes[msg] := Row(Some(0))] else old(rows)
      ensures View(if done then Finishing(msg) else Idle)
           == Run(old(View(Gating(msg))), SignalOps(0, hashes[msg] in old(rows), v))
      ensures calls
           == if v.Placeable? && hashes[msg] !in old(rows) then old(calls) + [Call(hashes[msg], 0)] else old(calls)
    {
      hide Run, Step, SignalOps;
      SignalEffect(View(Gating(msg)), inbox, msg, v);
      var hash := hashes[msg];
      done := !v.Disconnected?;
      if v.Blocked? {
        blocked := blocked + [hash];
      } else if v.Disconnected? {
        if v.committed {
          var _ := InsertSignal(hash);
        }
      } else if !v.Failing? {
        var inserted := InsertSignal(hash);
        if inserted && v.Placeable? {
          calls := calls + [Call(hash, 0)];
        }
      }
    }

    /** Take the next message, process it, and acknowledge it last, unless the database went away. */
    method HandleOne(v: Verdict) returns (ghost ops: seq<Op>)
      requires inbox != [] && inbox[0] in hashes
      modifies this
      ensures View(Idle) == Run(old(View(Idle)), ops)
      ensures inbox == old(inbox)[1..] && hashes == old(hashes)
      ensures var gone := if v.Disconnected? then {} else {old(inbox)[0]};
        acked == old(acked) + gone && pending == old(pending) - gone
      ensures blocked == if v.Blocked? then old(blocked) + [hashes[old(inbox)[0]]] else old(blocked)
      ensures var hash := hashes[old(inbox)[0]];
        rows == if (v.RateLimited? || v.Placeable? || v == Disconnected(true)) && hash !in old(rows)
                then old(rows)[hash := Row(Some(0))] else old(rows)
      ensures var hash := hashes[old(inbox)[0]];
        calls == if v.Placeable? && hash !in old(rows) then old(calls) + [Call(hash, 0)] else old(calls)
    {
      hide Run, SignalOps, Step;
      ghost var start := View(Idle);
      var msg := inbox[0];
      ghost var middle := SignalOps(0, hashes[msg] in rows, v);
      ops := [Take(0)] + middle;
      FirstThen(start, Take(0), middle);
      OneMore(start, ops, Ack(0));
      TakeOne(start);
      inbox := inbox[1..];
      assert View(Gating(msg)).workers == start.workers[0 := Worker(inbox, Gating(msg))];
      assert View(Gating(msg)) == Step(start, Take(0));
      var done := ProcessSignal(msg, v);
      if done {
        ghost var finished := View(Finishing(msg));
        AckOne(finished, msg);
        pending, acked := pending - {msg}, acked + {msg};
        assert View(Idle).workers == finished.workers[0 := finished.workers[0].(stage := Idle)];
        ops := ops + [Ack(0)];
      }
    }

    /** The loop over a batch. */
    method HandleBatch(verdicts: map<Msg, Verdict>) returns (ghost ops: seq<Op>)
      requires forall i :: 0 <= i < |inbox| ==> inbox[i] in hashes
      modifies this
      ensures View(Idle) == Run(old(View(Idle)), ops)
      ensures inbox == [] && hashes == old(hashes)
      ensures acked == old(acked) + Concluded(verdicts, old(inbox))
      ensures pending == old(pending) - Concluded(verdicts, old(inbox))
    {
      hide Run, Step;
      ops := [];
      ghost var start := View(Idle);
      NoOps(start);
      var batch := inbox;
      for i := 0 to |batch|
        invariant View(Idle) == Run(start, ops)
        invariant hashes == old(hashes) && inbox == batch[i..]
        invariant acked == old(acked) + Concluded(verdicts, batch[..i])
        invariant pending == old(pending) - Concluded(verdicts, batch[..i])
      {
        ghost var done := ops;
        assert batch[i..][0] == batch[i] && batch[i..][1..] == batch[i + 1..];
        ops := HandleOne(VerdictOf(verdicts, batch[i]));
        RunJoins(start, done, ops);
        ops := done + ops;
        ConcludedMore(verdicts, batch[..i], batch[i]);
        assert batch[..i + 1] == batch[..i] + [batch[i]];
      }
      assert batch[..|batch|] == batch;
    }
  }
}
