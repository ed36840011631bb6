/**
 The daily P&L guard of gtt_v2/shared/rules/pnl_guard.py and its database twin daily_pnl.py, on one
 trading day. `allow` is one Redis script and therefore atomic; `record` is five separate commands,
 between which other workers may do anything. A worker that crashes simply takes no further step.

 Amounts are hundredths of a rupee; the limit percentage is in ten-thousandths.
 */
module PnlGuard {
  import opened Options

  const SCALE := 10_000

  /** How far a call of `record` has come. `seen` is the total INCRBYFLOAT returned to it, `cap` the capital it read. */
  datatype Stage =
    | Counted(seen: int)
    | Judged(seen: int, cap: int)
    | Flagged(seen: int, cap: int)
    | Stored(seen: int, cap: int)
    | Finished(seen: int, cap: int)

  datatype Recording = Recording(pnl: int, stage: Stage)

  datatype Config = Config(envCapital: int, limit: int)

  /** Redis: flag, total, capital. Database: dbTotal, trades, dbFlag. */
  datatype State = State(flag: bool, total: int, capital: Option<int>,
                         dbTotal: int, trades: nat, dbFlag: bool, records: seq<Recording>)

  datatype Op =
    | Allow | Begin(pnl: int) | Judge(r: nat) | Flag(r: nat) | Store(r: nat) | Mark(r: nat) | SetCapital(cap: int)

  function Threshold(c: Config, cap: int): int { cap * c.limit }

  predicate Breach(c: Config, total: int, cap: int) {
    total * SCALE >= Threshold(c, cap) || total * SCALE <= -Threshold(c, cap)
  }

  function CapitalOf(c: Config, s: State): int {
    if s.capital.Some? then s.capital.value else c.envCapital
  }

  /** What the script returns. */
  predicate Admits(c: Config, s: State) {
    !s.flag && !Breach(c, s.total, CapitalOf(c, s))
  }

  /** A record that judged the total it saw to be past the limit. */
  predicate SawBreach(c: Config, g: Stage) { !g.Counted? && Breach(c, g.seen, g.cap) }

  predicate PastFlag(g: Stage) { g.Flagged? || g.Stored? || g.Finished? }

  predicate InDatabase(g: Stage) { g.Stored? || g.Finished? }

  predicate Enabled(s: State, op: Op) {
    match op
    case Judge(r) => r < |s.records| && s.records[r].stage.Counted?
    case Flag(r) => r < |s.records| && s.records[r].stage.Judged?
    case Store(r) => r < |s.records| && s.records[r].stage.Flagged?
    case Mark(r) => r < |s.records| && s.records[r].stage.Stored?
    case _ => true
  }

  function At(s: State, r: nat, g: Stage): seq<Recording>
    requires r < |s.records|
  {
    s.records[r := s.records[r].(stage := g)]
  }

  function Step(c: Config, s: State, op: Op): State {
    if !Enabled(s, op) then s
    else match op
    case Allow => s.(flag := s.flag || Breach(c, s.total, CapitalOf(c, s)))
    case Begin(pnl) => s.(total := s.total + pnl, records := s.records + [Recording(pnl, Counted(s.total + pnl))])
    case Judge(r) => s.(records := At(s, r, Judged(s.records[r].stage.seen, CapitalOf(c, s))))
    case Flag(r) =>
      var g := s.records[r].stage;
      s.(flag := s.flag || Breach(c, g.seen, g.cap), records := At(s, r, Flagged(g.seen, g.cap)))
    case Store(r) =>
      var g := s.records[r].stage;
      s.(dbTotal := s.dbTotal + s.records[r].pnl, trades := s.trades + 1, records := At(s, r, Stored(g.seen, g.cap)))
    case Mark(r) =>
      var g := s.records[r].stage;
      s.(dbFlag := s.dbFlag || Breach(c, g.seen, g.cap), records := At(s, r, Finished(g.seen, g.cap)))
    case SetCapital(cap) => s.(capital := Some(cap))
  }

  /** A step that is not enabled does nothing. */
  function Run(c: Config, s: State, ops: seq<Op>): State {
    if ops == [] then s else Step(c, Run(c, s, ops[..|ops| - 1]), ops[|ops| - 1])
  }

  predicate NewDay(s: State) {
    !s.flag && s.total == 0 && s.dbTotal == 0 && s.trades == 0 && !s.dbFlag && s.records == []
  }

  // ----- The latch -----

  /** Step op raises the flag: an `allow` that refuses, or a `record` that saw a breach and says so. */
  predicate Raises(c: Config, s: State, op: Op) {
    || (op.Allow? && !Admits(c, s))
    || (op.Flag? && Enabled(s, op) && SawBreach(c, s.records[op.r].stage))
  }

  predicate RaisedAt(c: Config, s: State, ops: seq<Op>, i: nat) {
    i < |ops| && Raises(c, Run(c, s, ops[..i]), ops[i])
  }

  lemma RaisedBefore(c: Config, s: State, ops: seq<Op>, n: nat, i: nat)
    requires i < n <= |ops|
    ensures RaisedAt(c, s, ops[..n], i) == RaisedAt(c, s, ops, i)
  {
    assert ops[..n][..i] == ops[..i];
  }

  /** The flag is up if and only if some step of the run raised it; nothing lowers it. */
  lemma {:induction false} FlagIffRaised(c: Config, s: State, ops: seq<Op>)
    requires !s.flag
    ensures Run(c, s, ops).flag <==> exists i :: 0 <= i < |ops| && RaisedAt(c, s, ops, i)
  {
    hide Breach;
    if ops != [] {
      var n := |ops| - 1;
      FlagIffRaised(c, s, ops[..n]);
      forall i | 0 <= i < n
        ensures RaisedAt(c, s, ops, i) == RaisedAt(c, s, ops[..n], i)
      {
        RaisedBefore(c, s, ops, n, i);
      }
      assert RaisedAt(c, s, ops, n) == Raises(c, Run(c, s, ops[..n]), ops[n]);
      assert Run(c, s, ops).flag == (Run(c, s, ops[..n]).flag || Raises(c, Run(c, s, ops[..n]), ops[n]));
    }
  }

  lemma BreachIs(c: Config, total: int, cap: int)
    ensures Breach(c, total, cap) <==> 10_000 * total >= cap * c.limit || 10_000 * total <= -(cap * c.limit)
  {
  }

  /**
   An order is let through exactly when no earlier step raised the flag and the total now lies strictly between minus
   and plus the limit's share of the capital, the one from the environment where Redis has none.
   */
  lemma AllowExact(c: Config, s: State, ops: seq<Op>)
    requires !s.flag
    ensures var end := Run(c, s, ops);
      Admits(c, end) <==>
        && (forall i :: 0 <= i < |ops| ==> !RaisedAt(c, s, ops, i))
        && (match end.capital
            case Some(cap) => -(cap * c.limit) < 10_000 * end.total < cap * c.limit
            case None => -(c.envCapital * c.limit) < 10_000 * end.total < c.envCapital * c.limit)
  {
    hide Breach, RaisedAt, Run;
    var end := Run(c, s, ops);
    FlagIffRaised(c, s, ops);
    BreachIs(c, end.total, CapitalOf(c, end));
  }

  /** A record judges the total it was told against the capital at its judging step, and raises the flag accordingly. */
  lemma JudgedAgainst(c: Config, s: State, r: nat)
    requires Enabled(s, Judge(r))
    ensures var after := Step(c, s, Judge(r));
      var cap := match s.capital case Some(cap) => cap case None => c.envCapital;
      var seen := s.records[r].stage.seen;
      && |after.records| == |s.records| && after.records[r].stage == Judged(seen, cap)
      && (Step(c, after, Flag(r)).flag <==>
            s.flag || 10_000 * seen >= cap * c.limit || 10_000 * seen <= -(cap * c.limit))
  {
    hide Breach;
    BreachIs(c, s.records[r].stage.seen, CapitalOf(c, s));
  }

  /** A record past its flag step that saw a breach has the flag up; so has the database's own flag. */
  predicate FlagHolds(c: Config, s: State) {
    && (forall r :: 0 <= r < |s.records| && PastFlag(s.records[r].stage) && SawBreach(c, s.records[r].stage) ==> s.flag)
    && (s.dbFlag ==> s.flag)
  }

  /** A record that saw a breach has arrived at its end. */
  predicate EndedInBreach(c: Config, s: State, r: nat) {
    r < |s.records| && s.records[r].stage.Finished? && SawBreach(c, s.records[r].stage)
  }

  ghost predicate DbFlagExact(c: Config, s: State) { s.dbFlag <==> exists r :: EndedInBreach(c, s, r) }

  lemma StepKeepsDbFlag(c: Config, s: State, op: Op)
    requires DbFlagExact(c, s)
    ensures DbFlagExact(c, Step(c, s, op))
  {
    hide Breach;
    var t := Step(c, s, op);
    var marks := Enabled(s, op) && op.Mark? && SawBreach(c, s.records[op.r].stage);
    forall r: nat ensures EndedInBreach(c, t, r) <==> EndedInBreach(c, s, r) || (marks && r == op.r) {
    }
    assert t.dbFlag == (s.dbFlag || marks);
    hide EndedInBreach, Step;
    if marks { assert EndedInBreach(c, t, op.r); }
  }

  /** In every run, the flag in the database is set exactly where a record that saw a breach has ended. */
  lemma {:induction false} DbFlagIff(c: Config, s: State, ops: seq<Op>)
    requires DbFlagExact(c, s)
    ensures DbFlagExact(c, Run(c, s, ops))
  {
    hide DbFlagExact, Step;
    if ops != [] {
      DbFlagIff(c, s, ops[..|ops| - 1]);
      StepKeepsDbFlag(c, Run(c, s, ops[..|ops| - 1]), ops[|ops| - 1]);
    }
  }

  lemma {:induction false} RunKeepsFlag(c: Config, s: State, ops: seq<Op>)
    requires FlagHolds(c, s)
    ensures FlagHolds(c, Run(c, s, ops))
  {
    hide Breach;
    if ops != [] {
      RunKeepsFlag(c, s, ops[..|ops| - 1]);
    }
  }

  lemma {:induction false} FlagStaysUp(c: Config, s: State, ops: seq<Op>, i: nat)
    requires i <= |ops| && Run(c, s, ops[..i]).flag
    ensures Run(c, s, ops).flag
  {
    hide Breach;
    if i == |ops| {
      assert ops[..i] == ops;
    } else {
      assert ops[..|ops| - 1][..i] == ops[..i];
      FlagStaysUp(c, s, ops[..|ops| - 1], i);
    }
  }

  /** Once an `allow` refused, every later `allow` of the day refuses, whatever total and capital do. */
  lemma RefusedForTheDay(c: Config, s: State, ops: seq<Op>, i: nat)
    requires i < |ops| && ops[i].Allow? && !Admits(c, Run(c, s, ops[..i]))
    ensures !Admits(c, Run(c, s, ops))
  {
    hide Breach;
    assert ops[..i + 1][..i] == ops[..i];
    FlagStaysUp(c, s, ops, i + 1);
  }

  /** So it is once a `record` that saw a breach has passed its flag step. */
  lemma RecordedForTheDay(c: Config, s: State, ops: seq<Op>, i: nat, r: nat)
    requires FlagHolds(c, s) && i <= |ops|
    requires var at := Run(c, s, ops[..i]);
      r < |at.records| && PastFlag(at.records[r].stage) && SawBreach(c, at.records[r].stage)
    ensures !Admits(c, Run(c, s, ops))
  {
    hide Breach;
    RunKeepsFlag(c, s, ops[..i]);
    FlagStaysUp(c, s, ops, i);
  }

  /** Everything recorded so far. */
  function SumOf(records: seq<Recording>): int {
    if records == [] then 0 else SumOf(records[..|records| - 1]) + records[|records| - 1].pnl
  }

  // ----- The two totals -----

  /** What the database has not been told yet. */
  function InFlight(records: seq<Recording>): int {
    if records == [] then 0
    else
      var last := records[|records| - 1];
      InFlight(records[..|records| - 1]) + (if InDatabase(last.stage) then 0 else last.pnl)
  }

  function StoredCount(records: seq<Recording>): nat {
    if records == [] then 0
    else StoredCount(records[..|records| - 1]) + (if InDatabase(records[|records| - 1].stage) then 1 else 0)
  }

  function Due(g: Stage, pnl: int): int { if InDatabase(g) then 0 else pnl }

  function Told(g: Stage): int { if InDatabase(g) then 1 else 0 }

  lemma {:induction false} StageMoves(records: seq<Recording>, r: nat, g: Stage)
    requires r < |records|
    ensures var after := records[r := records[r].(stage := g)];
      && InFlight(after) == InFlight(records) + Due(g, records[r].pnl) - Due(records[r].stage, records[r].pnl)
      && StoredCount(after) == StoredCount(records) + Told(g) - Told(records[r].stage)
      && SumOf(after) == SumOf(records)
  {
    var n, after := |records| - 1, records[r := records[r].(stage := g)];
    if r == n {
      assert after[..n] == records[..n];
    } else {
      StageMoves(records[..n], r, g);
      assert after[..n] == records[..n][r := records[r].(stage := g)];
    }
  }

  predicate Balanced(s: State) {
    && s.total == s.dbTotal + InFlight(s.records)
    && s.trades == StoredCount(s.records)
    && s.total == SumOf(s.records)
  }

  lemma StepKeepsBalance(c: Config, s: State, op: Op)
    requires Balanced(s)
    ensures Balanced(Step(c, s, op))
  {
    hide Breach;
    match op
    case Begin(pnl) =>
      var last := Recording(pnl, Counted(s.total + pnl));
      assert (s.records + [last])[..|s.records|] == s.records;
    case Allow =>
    case SetCapital(_) =>
    case _ =>
      if Enabled(s, op) {
        StageMoves(s.records, op.r, Step(c, s, op).records[op.r].stage);
      }
  }

  /**
   At every moment of the day the Redis total is the sum of everything recorded, and the database's total
   plus what is still on its way; the database's trade count is the number of records that arrived.
   */
  lemma {:induction false} TotalsBalance(c: Config, s: State, ops: seq<Op>)
    requires Balanced(s)
    ensures Balanced(Run(c, s, ops))
  {
    hide Step, Balanced;
    if ops != [] {
      TotalsBalance(c, s, ops[..|ops| - 1]);
      StepKeepsBalance(c, Run(c, s, ops[..|ops| - 1]), ops[|ops| - 1]);
    }
  }

  /** A day starts balanced, with every flag down. */
  lemma DayStarts(c: Config, s: State)
    requires NewDay(s)
    ensures Balanced(s) && FlagHolds(c, s)
  {
  }

  // ----- The gap -----

  /**
   Until a record reaches its flag step, its breach can be forgotten: if another record brings the total
   back inside the limits first, an `allow` in between lets the order through.
   */
  lemma GapAdmits(c: Config, s: State, up: int, down: int)
    requires !s.flag && Breach(c, s.total + up, CapitalOf(c, s))
    requires !Breach(c, s.total + up + down, CapitalOf(c, s))
    ensures var ops := [Begin(up), Begin(down), Judge(|s.records|)];
      && Admits(c, Run(c, s, ops)) && |s.records| < |Run(c, s, ops).records|
      && SawBreach(c, Run(c, s, ops).records[|s.records|].stage)
  {
    hide Breach;
    var ops := [Begin(up), Begin(down), Judge(|s.records|)];
    assert ops[..2] == [Begin(up), Begin(down)] && ops[..2][..1] == [Begin(up)] && ops[..2][..1][..0] == [];
    assert Run(c, s, ops[..2][..1]) == Step(c, s, Begin(up));
  }

  lemma BreachByThreshold(c: Config, total: int, cap: int)
    ensures Breach(c, total, cap) <==> total * SCALE >= Threshold(c, cap) || total * SCALE <= -Threshold(c, cap)
  {
  }

  lemma NoOps(c: Config, s: State)
    ensures Run(c, s, []) == s
  {
  }

  lemma OneMore(c: Config, s: State, ops: seq<Op>, op: Op)
    ensures Run(c, s, ops + [op]) == Step(c, Run(c, s, ops), op)
  {
    assert (ops + [op])[..|ops|] == ops;
  }

  lemma FiveSteps(c: Config, s: State, a: Op, b: Op, d: Op, e: Op, f: Op)
    ensures Run(c, s, [a, b, d, e, f]) == Step(c, Step(c, Step(c, Step(c, Step(c, s, a), b), d), e), f)
  {
    hide Step, Run;
    NoOps(c, s);
    OneMore(c, s, [], a);
    OneMore(c, s, [a], b);
    OneMore(c, s, [a, b], d);
    OneMore(c, s, [a, b, d], e);
    OneMore(c, s, [a, b, d, e], f);
    assert [] + [a] == [a] && [a] + [b] == [a, b] && [a, b] + [d] == [a, b, d];
    assert [a, b, d] + [e] == [a, b, d, e] && [a, b, d, e] + [f] == [a, b, d, e, f];
  }

  lemma Restaged(records: seq<Recording>, pnl: int, g: Stage, g': Stage)
    ensures var list := records + [Recording(pnl, g)];
      list[|records| := list[|records|].(stage := g')] == records + [Recording(pnl, g')]
  {
  }

  /** A record that nobody interleaves with. */
  lemma RecordInOneGo(c: Config, s: State, pnl: int)
    ensures var r := |s.records|;
      var seen, cap := s.total + pnl, CapitalOf(c, s);
      Run(c, s, [Begin(pnl), Judge(r), Flag(r), Store(r), Mark(r)])
      == State(s.flag || Breach(c, seen, cap), seen, s.capital, s.dbTotal + pnl, s.trades + 1,
               s.dbFlag || Breach(c, seen, cap), s.records + [Recording(pnl, Finished(seen, cap))])
  {
    hide Breach, Run;
    var r, seen, cap := |s.records|, s.total + pnl, CapitalOf(c, s);
    FiveSteps(c, s, Begin(pnl), Judge(r), Flag(r), Store(r), Mark(r));
    Restaged(s.records, pnl, Counted(seen), Judged(seen, cap));
    Restaged(s.records, pnl, Judged(seen, cap), Flagged(seen, cap));
    Restaged(s.records, pnl, Flagged(seen, cap), Stored(seen, cap));
    Restaged(s.records, pnl, Stored(seen, cap), Finished(seen, cap));
  }

  // ----- The guard object -----

  class Guard {
    const config: Config
    var flag: bool
    var total: int
    var capital: Option<int>
    var dbTotal: int
    var trades: nat
    var dbFlag: bool
    ghost var records: seq<Recording>

    ghost function View(): State
      reads this
    {
      State(flag, total, capital, dbTotal, trades, dbFlag, records)
    }

    ghost predicate Valid()
      reads this
    {
      Balanced(View()) && FlagHolds(config, View())
    }

    constructor (config: Config)
      ensures Valid() && this.config == config && NewDay(View()) && capital.None?
    {
      hide Breach, Balanced, FlagHolds;
      this.config := config;
      flag, total, capital, dbTotal, trades, dbFlag := false, 0, None, 0, 0, false;
      records := [];
      new;
      DayStarts(config, View());
    }

    /** The script: the flag first, then the total against the threshold on either side. */
    method Allow() returns (ok: bool)
      requires Valid()
      modifies this`flag
      ensures Valid()
      ensures ok == Admits(config, old(View())) && View() == Step(config, old(View()), Op.Allow)
    {
      hide Breach, Threshold, Balanced;
      StepKeepsBalance(config, View(), Op.Allow);
      if flag {
        return false;
      }
      var cap := if capital.Some? then capital.value else config.envCapital;
      var threshold := Threshold(config, cap);
      BreachByThreshold(config, total, cap);
      if total * SCALE >= threshold {
        flag := true;
        return false;
      }
      if total * SCALE <= -threshold {
        flag := true;
        return false;
      }
      return true;
    }

    /** Nobody interleaves: the five commands in a row. */
    method Record(pnl: int)
      requires Valid()
      modifies this
      ensures Valid()
      ensures var r := |old(records)|;
        View() == Run(config, old(View()), [Begin(pnl), Judge(r), Flag(r), Store(r), Mark(r)])
    {
      hide Breach, Threshold, Balanced, FlagHolds, Run;
      ghost var r := |records|;
      ghost var start := View();
      RecordInOneGo(config, start, pnl);
      TotalsBalance(config, start, [Begin(pnl), Judge(r), Flag(r), Store(r), Mark(r)]);
      RunKeepsFlag(config, start, [Begin(pnl), Judge(r), Flag(r), Store(r), Mark(r)]);
      total := total + pnl;
      var seen := total;
      var cap := if capital.Some? then capital.value else config.envCapital;
      var threshold := Threshold(config, cap);
      BreachByThreshold(config, seen, cap);
      var hit := seen * SCALE >= threshold || seen * SCALE <= -threshold;
      if hit {
        flag := true;
      }
      dbTotal, trades := dbTotal + pnl, trades + 1;
      if hit {
        dbFlag := true;
      }
      records := records + [Recording(pnl, Finished(seen, cap))];
    }
  }
}
