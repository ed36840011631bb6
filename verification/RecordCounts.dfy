/**
 Exactly how often the order tracker records a signal's exit: which fills record, which rows let a second one
 through, and what it takes to open such a row again.
 */
module RecordCounts {
  import opened Options
  import opened Vwap
  import opened FillRules
  import opened TrackerRuns

  predicate HasExit(s: State, id: int) { id in s.signals && s.signals[id].exit != 0 }

  /** The row has an exit that its status no longer shows: both guards let the next exit fill pass. */
  predicate Reopened(s: State, id: int) { HasExit(s, id) && !ExitBooked(s.signals[id].status) }

  predicate Reaches(s: State, f: Fill, id: int) {
    Meet(s, f).Meeting? && Meet(s, f).leg.signalId == id && id in s.signals
  }

  /** The fill is not already applied, is more than an entry, and makes a profit or a loss on a known entry. */
  predicate Records(s: State, f: Fill, id: int) {
    && Reaches(s, f, id)
    && var r, m := s.signals[id], Meet(s, f);
       && !AlreadyApplied(r, m.leg.strategy) && !EntryOnly(r, m.leg.strategy, m.price)
       && r.entry != 0 && Realized(r.action, r.entry, m.price, m.quantity) != 0
  }

  predicate RecordsNow(s: State, op: Op, id: int) { op.DoFill? && Records(s, op.f, id) }

  lemma NoGain(a: Side, price: int, quantity: nat)
    ensures Realized(a, price, price, quantity) == 0
  {
  }

  lemma ApplyRecords(s: State, leg: Rule, price: int, quantity: nat, id: int)
    requires Books(s) && leg.signalId in s.signals && price > 0
    ensures var t := ApplyFill(s, leg, price, quantity);
      var r := s.signals[leg.signalId];
      var records := leg.signalId == id && !AlreadyApplied(r, leg.strategy) && !EntryOnly(r, leg.strategy, price)
                     && r.entry != 0 && Realized(r.action, r.entry, price, quantity) != 0;
      Count(t.recorded, id) == Count(s.recorded, id) + if records then 1 else 0
  {
    var t, r := ApplyFill(s, leg, price, quantity), s.signals[leg.signalId];
    NoGain(r.action, price, quantity);
    hide Realized, AtTarget, AtStop;
    assert t.recorded == s.recorded || t.recorded[..|s.recorded|] == s.recorded;
  }

  /** A step adds a record for a signal if and only if it is such a fill. */
  lemma StepRecords(s: State, op: Op, id: int)
    requires Books(s) && Enabled(s, op)
    ensures Count(Step(s, op).recorded, id) == Count(s.recorded, id) + if RecordsNow(s, op, id) then 1 else 0
  {
    hide ApplyFill, ProcessFilledOrder, Meet, AlreadyApplied, EntryOnly, Realized;
    match op
    case DoFill(f) =>
      FillMeets(s, f);
      assert Step(s, op) == ProcessFilledOrder(s, f);
      var m := Meet(s, f);
      if m.Meeting? { ApplyRecords(m.at, m.leg, m.price, m.quantity, id); }
    case _ =>
  }

  lemma ApplyReopens(s: State, leg: Rule, price: int, quantity: nat, id: int)
    requires Books(s) && leg.signalId in s.signals && price > 0
    ensures var t := ApplyFill(s, leg, price, quantity);
      && (HasExit(s, id) ==> HasExit(t, id))
      && (!Reopened(s, id) ==> !Reopened(t, id))
      && (Reopened(s, id) && Reopened(t, id) && s.signals[id].status != Pending ==> t.signals[id] == s.signals[id])
  {
    var r := s.signals[leg.signalId];
    if !AlreadyApplied(r, leg.strategy) {
      AppliedOk(r, leg.strategy, price, quantity);
    }
  }

  /** Only a late notice opens a row again, and it always does. */
  lemma ReopensIff(s: State, op: Op, id: int)
    requires Books(s) && Enabled(s, op) && !Reopened(s, id)
    ensures Reopened(Step(s, op), id) <==> LateNotice(s, op, id)
    ensures Reopened(Step(s, op), id) ==> Step(s, op).signals[id].status in {Cancelled, Expired}
  {
    hide ApplyFill, ProcessFilledOrder, Meet;
    match op
    case DoFill(f) =>
      FillMeets(s, f);
      assert Step(s, op) == ProcessFilledOrder(s, f);
      var m := Meet(s, f);
      if m.Meeting? { ApplyReopens(m.at, m.leg, m.price, m.quantity, id); }
    case DoNotice(gttId, closes) =>
      if LegsOf(s.rules, gttId) != [] { assert LegsOf(s.rules, gttId)[0] in s.rules; }
    case _ =>
  }

  /** An exit, once there, stays; an open row stays as it is or is booked. */
  lemma StaysReopened(s: State, op: Op, id: int)
    requires Books(s) && Enabled(s, op)
    ensures HasExit(s, id) ==> HasExit(Step(s, op), id)
    ensures Reopened(s, id) && s.signals[id].status in {Cancelled, Expired} && Reopened(Step(s, op), id) ==>
      Step(s, op).signals[id].status in {Cancelled, Expired}
  {
    hide ApplyFill, ProcessFilledOrder, Meet;
    match op
    case DoFill(f) =>
      FillMeets(s, f);
      assert Step(s, op) == ProcessFilledOrder(s, f);
      var m := Meet(s, f);
      if m.Meeting? { ApplyReopens(m.at, m.leg, m.price, m.quantity, id); }
    case DoNotice(gttId, closes) =>
      if LegsOf(s.rules, gttId) != [] { assert LegsOf(s.rules, gttId)[0] in s.rules; }
    case _ =>
  }

  /** Where there is an exit, only a reopened row lets a fill record. */
  lemma RecordsAtReopened(s: State, f: Fill, id: int)
    requires Books(s) && HasExit(s, id)
    ensures Records(s, f, id) ==> Reopened(s, id)
    ensures Reopened(s, id) && s.signals[id].status in {Cancelled, Expired} && Reaches(s, f, id) ==>
      var r, m := s.signals[id], Meet(s, f);
      Records(s, f, id) <==> m.leg.strategy != EntryLeg && Realized(r.action, r.entry, m.price, m.quantity) != 0
  {
    hide Meet, Realized, AtTarget, AtStop;
  }

  // ----- Runs -----

  /** The steps that record a first exit, and those that record over an exit that is there. */
  function Firsts(s: State, ops: seq<Op>, id: int): nat
    requires Books(s) && Legal(s, ops)
    decreases |ops|
  {
    if ops == [] then 0
    else (if RecordsNow(s, ops[0], id) && !HasExit(s, id) then 1 else 0) + Firsts(Step(s, ops[0]), ops[1..], id)
  }

  function Agains(s: State, ops: seq<Op>, id: int): nat
    requires Books(s) && Legal(s, ops)
    decreases |ops|
  {
    if ops == [] then 0
    else (if RecordsNow(s, ops[0], id) && Reopened(s, id) then 1 else 0) + Agains(Step(s, ops[0]), ops[1..], id)
  }

  lemma RecordLeavesExit(s: State, op: Op, id: int)
    requires Books(s) && Enabled(s, op) && RecordsNow(s, op, id)
    ensures HasExit(Step(s, op), id)
  {
    hide ApplyFill, ProcessFilledOrder, Meet, AlreadyApplied, EntryOnly, Realized;
    FillMeets(s, op.f);
    assert Step(s, op) == ProcessFilledOrder(s, op.f);
    ApplyLeavesExit(Meet(s, op.f));
  }

  lemma ApplyLeavesExit(m: Meeting)
    requires m.Meeting? && m.leg.signalId in m.at.signals && m.price > 0
    requires var r := m.at.signals[m.leg.signalId];
      !AlreadyApplied(r, m.leg.strategy) && !EntryOnly(r, m.leg.strategy, m.price)
    ensures HasExit(ApplyFill(m.at, m.leg, m.price, m.quantity), m.leg.signalId)
  {
  }

  /** The number of records is exact: at most one first one, and one for each fill that records at a reopened row. */
  lemma {:induction false} CountExact(s: State, ops: seq<Op>, id: int)
    requires Books(s) && Legal(s, ops)
    ensures Count(Run(s, ops).recorded, id) == Count(s.recorded, id) + Firsts(s, ops, id) + Agains(s, ops, id)
    ensures Firsts(s, ops, id) <= if HasExit(s, id) then 0 else 1
    decreases |ops|
  {
    hide StepRaw, Books, Enabled, Records;
    if ops != [] {
      var op := ops[0];
      StepRecords(s, op, id);
      StaysReopened(s, op, id);
      if RecordsNow(s, op, id) {
        RecordLeavesExit(s, op, id);
        if HasExit(s, id) { RecordsAtReopened(s, op.f, id); }
      }
      CountExact(Step(s, op), ops[1..], id);
    }
  }

  lemma {:induction false} LegalSplit(s: State, a: seq<Op>, b: seq<Op>)
    requires Books(s) && Legal(s, a + b)
    ensures Legal(s, a) && Legal(Run(s, a), b) && Run(s, a + b) == Run(Run(s, a), b)
    decreases |a|
  {
    hide StepRaw, Books, Enabled;
    if a == [] {
      assert a + b == b;
    } else {
      assert (a + b)[1..] == a[1..] + b;
      LegalSplit(Step(s, a[0]), a[1..], b);
    }
  }

  lemma LegalTake(s: State, ops: seq<Op>, n: nat)
    requires Books(s) && Legal(s, ops) && n <= |ops|
    ensures Legal(s, ops[..n])
  {
    assert ops == ops[..n] + ops[n..];
    LegalSplit(s, ops[..n], ops[n..]);
  }

  function After(s: State, ops: seq<Op>, n: nat): (t: State)
    requires Books(s) && Legal(s, ops) && n <= |ops|
    ensures Books(t)
  {
    LegalTake(s, ops, n);
    Run(s, ops[..n])
  }

  lemma AfterNext(s: State, ops: seq<Op>, n: nat)
    requires Books(s) && Legal(s, ops) && n < |ops|
    ensures Enabled(After(s, ops, n), ops[n])
    ensures After(s, ops, n + 1) == Step(After(s, ops, n), ops[n])
  {
    hide StepRaw, Books, Enabled;
    assert ops[..n + 1] == ops[..n] + [ops[n]];
    LegalTake(s, ops, n + 1);
    LegalSplit(s, ops[..n], [ops[n]]);
    assert [ops[n]][1..] == [];
  }

  /** Step i is a late notice, and no exit has been booked from then until n steps are done. */
  predicate LateSince(s: State, ops: seq<Op>, id: int, i: nat, n: nat)
    requires Books(s) && Legal(s, ops)
  {
    && i < n <= |ops| && LateNotice(After(s, ops, i), ops[i], id)
    && forall j :: i < j <= n ==> !Booked(After(s, ops, j), id)
  }

  predicate OpenSince(s: State, ops: seq<Op>, id: int, n: nat)
    requires Books(s) && Legal(s, ops)
  {
    exists i :: 0 <= i < n && LateSince(s, ops, id, i, n)
  }

  /** A row is open again after n steps if and only if a late notice came and no booking since. */
  lemma {:induction false} ReopenedIff(s: State, ops: seq<Op>, id: int, n: nat)
    requires Books(s) && Legal(s, ops) && n <= |ops| && !Reopened(s, id)
    ensures Reopened(After(s, ops, n), id) <==> OpenSince(s, ops, id, n)
    ensures Reopened(After(s, ops, n), id) ==> After(s, ops, n).signals[id].status in {Cancelled, Expired}
  {
    hide StepRaw, Books, Enabled, LateNotice, After, LateSince;
    if n == 0 {
      AfterNone(s, ops);
    } else {
      var before, after, op := After(s, ops, n - 1), After(s, ops, n), ops[n - 1];
      ReopenedIff(s, ops, id, n - 1);
      AfterNext(s, ops, n - 1);
      StaysReopened(before, op, id);
      LateIsBooked(before, op, id);
      if !Reopened(before, id) { ReopensIff(before, op, id); }
      LateNext(s, ops, id, n);
    }
  }

  lemma LateNext(s: State, ops: seq<Op>, id: int, n: nat)
    requires Books(s) && Legal(s, ops) && 0 < n <= |ops|
    ensures OpenSince(s, ops, id, n) <==>
      && !Booked(After(s, ops, n), id)
      && (LateNotice(After(s, ops, n - 1), ops[n - 1], id) || OpenSince(s, ops, id, n - 1))
  {
    hide After, Books, Legal, LateNotice, Booked;
    if i :| 0 <= i < n && LateSince(s, ops, id, i, n) {
      if i < n - 1 { assert LateSince(s, ops, id, i, n - 1); }
    }
    if !Booked(After(s, ops, n), id) {
      if LateNotice(After(s, ops, n - 1), ops[n - 1], id) {
        assert LateSince(s, ops, id, n - 1, n);
      } else if OpenSince(s, ops, id, n - 1) {
        var m := n - 1;
        var i :| 0 <= i < m && LateSince(s, ops, id, i, m);
        assert LateSince(s, ops, id, i, n);
      }
    }
  }

  lemma AfterNone(s: State, ops: seq<Op>)
    requires Books(s) && Legal(s, ops)
    ensures After(s, ops, 0) == s
  {
  }

  lemma LateIsBooked(s: State, op: Op, id: int)
    ensures LateNotice(s, op, id) ==> Booked(s, id) && !Reopened(s, id)
  {
  }

  /**
   A signal with an exit is recorded again by exactly these fills: an exit fill with a profit or a loss that
   reaches the row after a late notice, with no booking since.
   */
  lemma RecordedAgainIff(s: State, ops: seq<Op>, f: Fill, id: int)
    requires Books(s) && Legal(s, ops) && !Reopened(s, id)
    requires var t := Run(s, ops); Enabled(t, DoFill(f)) && HasExit(t, id)
    ensures var t := Run(s, ops);
      Count(Step(t, DoFill(f)).recorded, id) != Count(t.recorded, id) <==>
        && OpenSince(s, ops, id, |ops|)
        && Reaches(t, f, id) && Meet(t, f).leg.strategy != EntryLeg
        && var r, m := t.signals[id], Meet(t, f); Realized(r.action, r.entry, m.price, m.quantity) != 0
  {
    var t := Run(s, ops);
    assert ops[..|ops|] == ops;
    assert After(s, ops, |ops|) == t;
    hide StepRaw, Books, Enabled, Meet, Realized, OpenSince, Run;
    ReopenedIff(s, ops, id, |ops|);
    StepRecords(t, DoFill(f), id);
    RecordsAtReopened(t, f, id);
  }

  // ----- A notice and the next fill -----

  /** After a notice at a booked signal, the next fill that reaches it records again exactly in these cases. */
  lemma NoticeThenFillIff(s: State, op: Op, f: Fill, id: int)
    requires Books(s) && Booked(s, id) && op.DoNotice? && Enabled(s, op)
    requires Enabled(Step(s, op), DoFill(f)) && Reaches(Step(s, op), f, id)
    ensures var t := Step(s, op);
      var r, m := t.signals[id], Meet(t, f);
      Count(Step(t, DoFill(f)).recorded, id) != Count(s.recorded, id) <==>
        LateNotice(s, op, id) && m.leg.strategy != EntryLeg && Realized(r.action, r.entry, m.price, m.quantity) != 0
  {
    hide StepRaw, Enabled, Meet, Realized;
    var t := Step(s, op);
    assert HasExit(s, id) && !Reopened(s, id);
    StepRecords(s, op, id);
    ReopensIff(s, op, id);
    StaysReopened(s, op, id);
    StepRecords(t, DoFill(f), id);
    RecordsAtReopened(t, f, id);
  }

  /** So a late notice doubles the record of an exit fill that makes a profit or a loss. */
  lemma LateNoticeDoubles(s: State, op: Op, f: Fill, id: int)
    requires Books(s) && Enabled(s, op) && LateNotice(s, op, id)
    requires var t := Step(s, op);
      && Enabled(t, DoFill(f)) && Reaches(t, f, id) && Meet(t, f).leg.strategy != EntryLeg
      && Realized(t.signals[id].action, t.signals[id].entry, Meet(t, f).price, Meet(t, f).quantity) != 0
    ensures var t := Step(s, op);
      Count(Step(t, DoFill(f)).recorded, id) == Count(s.recorded, id) + 1
  {
    hide StepRaw, Enabled, Meet, Realized;
    var t := Step(s, op);
    NoticeThenFillIff(s, op, f, id);
    StepRecords(s, op, id);
    StepRecords(t, DoFill(f), id);
  }
}
