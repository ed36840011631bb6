/**
 Duplicate insensitivity for what the handlers of the order tracker really do: an order update links its
 order before the fill is processed, the reconciler writes leg rows before it processes their orders, and
 updates of orders that are not complete only link.
 */
module HandledRepeats {
  import opened Options
  import opened Vwap
  import opened FillRules
  import opened TrackerRuns
  import opened FillRepeats

  datatype Event =
    | Update(f: Fill, avg: Option<int>)      // an order update that says "complete"
    | Progress(f: Fill, avg: Option<int>)    // any other order update
    | Reconciled(f: Fill)                    // a filled leg that the reconciler processes
    | LegWritten(rule: Rule)                 // a leg row that the reconciler writes
    | Notice(gttId: int, closes: Option<Status>)   // an update of a GTT, before its payload is reconciled

  function OpsOf(e: Event): seq<Op> {
    match e
    case Update(f, avg) => [DoLink(f, avg), DoFill(f)]
    case Progress(f, avg) => [DoLink(f, avg)]
    case Reconciled(f) => [DoFill(f)]
    case LegWritten(rule) => [DoUpsert(rule)]
    case Notice(gttId, closes) => [DoNotice(gttId, closes)]
  }

  function Handle(s: State, e: Event): State {
    match e
    case Update(f, avg) => ProcessFilledOrder(Link(s, f, avg), f)
    case Progress(f, avg) => Link(s, f, avg)
    case Reconciled(f) => ProcessFilledOrder(s, f)
    case LegWritten(rule) => s.(rules := Upsert(s.rules, rule))
    case Notice(gttId, closes) => if KeysHold(s) then TrackerRuns.Notice(s, gttId, closes) else s
  }

  function Play(s: State, es: seq<Event>): State {
    if es == [] then s else Handle(Play(s, es[..|es| - 1]), es[|es| - 1])
  }

  // ----- What is assumed of the events -----

  /** A leg row that is written anew exists, and links no order that a message takes elsewhere. */
  ghost predicate LegFits(s: State, us: set<Fill>, rule: Rule) {
    && rule.signalId in s.signals
    && (exists i :: 0 <= i < |s.rules| && SameLeg(s.rules[i], rule.gttId, rule.strategy))
    && forall g :: g in us && Addressed(s, g) ==> LinkAgrees(s, g, rule)
  }

  ghost predicate Fits(s: State, us: set<Fill>, e: Event) {
    match e
    case Update(f, avg) => f in us && Resolves(s, f, avg)
    case Progress(f, avg) => f in us && Resolves(s, f, avg)
    case Reconciled(f) => f in us
    case LegWritten(rule) => LegFits(s, us, rule)
    case Notice(_, closes) => closes.Some? ==> closes.value in {Cancelled, Expired}
  }

  /** A notice that would close a signal whose exit is booked. */
  predicate Late(s: State, e: Event) {
    && e.Notice? && e.closes.Some?
    && LegsOf(s.rules, e.gttId) != [] && Booked(s, LegsOf(s.rules, e.gttId)[0].signalId)
  }

  /** No notice of the run comes after the exit of its signal was booked. */
  predicate Timely(s: State, es: seq<Event>) {
    forall i :: 0 <= i < |es| ==> !Late(Play(s, es[..i]), es[i])
  }

  ghost predicate AllFit(s: State, us: set<Fill>, es: seq<Event>) {
    forall i :: 0 <= i < |es| ==> Fits(s, us, es[i])
  }

  predicate IdsAgree(a: seq<Trade>, b: seq<Trade>) {
    forall i, j :: 0 <= i < |a| && 0 <= j < |b| && a[i].tradeId == b[j].tradeId ==> a[i] == b[j]
  }

  function TradesOf(f: Fill): seq<Trade> { if f.trades.None? then [] else f.trades.value }

  /** A trade id belongs to one trade. */
  ghost predicate HonestIds(trades: seq<Trade>, us: set<Fill>) {
    && (forall f :: f in us ==> IdsAgree(trades, TradesOf(f)))
    && (forall f, g :: f in us && g in us ==> IdsAgree(TradesOf(f), TradesOf(g)))
  }

  // ----- Order of time -----

  predicate Later(s: State, t: State) { Static(s.rules) == Static(t.rules) && Forward(s, t) }

  lemma LaterChain(s: State, t: State, u: State)
    requires Later(s, t) && Later(t, u)
    ensures Later(s, u)
  {
  }

  lemma FitsLater(s: State, t: State, us: set<Fill>, e: Event)
    requires Aligned(s, us) && Aligned(t, us) && Later(s, t) && Fits(s, us, e)
    ensures Fits(t, us, e)
  {
    hide Books, Addressed, HasLegs, Forward, UniqueLegs, OneSignalEach;
    match e
    case Update(f, avg) => SameAddress(s, t, f);
    case Progress(f, avg) => SameAddress(s, t, f);
    case Reconciled(f) =>
    case LegWritten(rule) =>
      StaticShape(s.rules, t.rules);
      SameKeys(s, t);
      forall g | g in us && Addressed(t, g) ensures LinkAgrees(t, g, rule) {
        assert Addressed(s, g);
        SameAddress(s, t, g);
      }
    case Notice(_, _) =>
  }

  lemma SameKeys(s: State, t: State)
    requires Forward(s, t)
    ensures s.signals.Keys == t.signals.Keys
  {
  }

  // ----- Steps that only link -----

  /** Links changed, each in agreement with every message; nothing else did. */
  ghost predicate Rewired(s: State, t: State, us: set<Fill>) {
    && t == s.(rules := t.rules) && Static(s.rules) == Static(t.rules) && |s.rules| == |t.rules|
    && forall i, g :: 0 <= i < |s.rules| && t.rules[i] != s.rules[i] && g in us && Addressed(s, g) ==>
         LinkAgrees(s, g, t.rules[i])
  }

  lemma RewiredIsLater(s: State, t: State, us: set<Fill>)
    requires Rewired(s, t, us)
    ensures Later(s, t)
  {
  }

  lemma RewiredAddresses(s: State, t: State, us: set<Fill>)
    requires Aligned(s, us) && Rewired(s, t, us)
    ensures forall g :: g in us ==> Addressed(s, g) && Addressed(t, g) && (OnEntrySide(t, g) <==> OnEntrySide(s, g))
  {
    RewiredIsLater(s, t, us);
    hide Books, Addressed, HasLegs, Forward, LinkAgrees, Effective, Resolves;
    forall g | g in us
      ensures Addressed(t, g) && (OnEntrySide(t, g) <==> OnEntrySide(s, g))
    {
      SameAddress(s, t, g);
    }
  }

  lemma RewiredLinks(s: State, t: State, us: set<Fill>, g: Fill, r: Rule)
    requires Aligned(s, us) && Rewired(s, t, us) && g in us && r in t.rules
    requires Addressed(t, g) && (OnEntrySide(t, g) <==> OnEntrySide(s, g))
    ensures LinkAgrees(t, g, r)
  {
    hide Books, Addressed, HasLegs, OnEntrySide, Static;
    var i :| 0 <= i < |t.rules| && t.rules[i] == r;
    assert s.rules[i] in s.rules;
    assert LinkAgrees(s, g, s.rules[i]);
  }

  lemma RewiredAligned(s: State, t: State, us: set<Fill>)
    requires Aligned(s, us) && Rewired(s, t, us)
    ensures Aligned(t, us)
  {
    RewiredBooks(s, t, us);
    RewiredAddresses(s, t, us);
    StaticShape(s.rules, t.rules);
    hide Books, Addressed, OnEntrySide, LinkAgrees, UniqueLegs, OneSignalEach, Static;
    forall g, r | g in us && r in t.rules
      ensures LinkAgrees(t, g, r)
    {
      RewiredLinks(s, t, us, g, r);
    }
  }

  lemma RewiredBooks(s: State, t: State, us: set<Fill>)
    requires Aligned(s, us) && Rewired(s, t, us)
    ensures Books(t)
  {
    StaticShape(s.rules, t.rules);
    forall r | r in t.rules ensures r.signalId in t.signals {
      var i :| 0 <= i < |t.rules| && t.rules[i] == r;
      assert s.rules[i] in s.rules;
    }
  }

  lemma RewiredConsistent(s: State, t: State, us: set<Fill>)
    requires Consistent(s, us) && Rewired(s, t, us)
    ensures Consistent(t, us)
  {
    RewiredAligned(s, t, us);
    RewiredIsLater(s, t, us);
    hide Books, Addressed, HasLegs, Forward;
    forall g | g in us && TotalQuantity(ForOrder(t.trades, g.orderId)) > 0
      ensures Effective(t, g)
    {
      SameAddress(s, t, g);
    }
  }

  lemma UpsertKeepsStatic(rules: seq<Rule>, rule: Rule)
    requires UniqueLegs(rules)
    requires exists i :: 0 <= i < |rules| && SameLeg(rules[i], rule.gttId, rule.strategy)
    ensures Static(Upsert(rules, rule)) == Static(rules)
  {
    UpsertExisting(rules, rule);
    hide Upsert, UniqueLegs;
  }

  lemma LinkKeepsStatic(s: State, us: set<Fill>, f: Fill, avg: Option<int>)
    requires Aligned(s, us) && f in us && Resolves(s, f, avg)
    ensures Static(Link(s, f, avg).rules) == Static(s.rules)
  {
    LegOfMessage(s, us, f, avg);
    hide Static, LegFor, Addressed, OnEntrySide, LinkAgrees, Books;
    var leg := LegFor(s, f, avg).value;
    if ByChildOrder(s.rules, f.orderId).None? {
      var i :| 0 <= i < |s.rules| && s.rules[i] == leg;
      assert SameLeg(s.rules[i], leg.gttId, leg.strategy);
      UpsertKeepsStatic(s.rules, leg.(orderId := Some(f.orderId)));
    }
  }

  lemma LinkRewires(s: State, us: set<Fill>, f: Fill, avg: Option<int>)
    requires Aligned(s, us) && f in us && Resolves(s, f, avg)
    ensures Rewired(s, Link(s, f, avg), us)
  {
    LinkTouches(s, us, f, avg);
    LegOfMessage(s, us, f, avg);
    var t, leg := Link(s, f, avg), LegFor(s, f, avg).value;
    LinkKeepsStatic(s, us, f, avg);
    hide LegFor, Linked, Books, HasLegs, Resolves, Static, LinkAgrees, OnEntrySide, Aligned;
    forall i, g | 0 <= i < |s.rules| && t.rules[i] != s.rules[i] && g in us && Addressed(s, g)
      ensures LinkAgrees(s, g, t.rules[i])
    {
      LinkedAgrees(s, us, f, g, leg, t.rules[i]);
    }
  }

  lemma LinkedAgrees(s: State, us: set<Fill>, f: Fill, g: Fill, leg: Rule, r: Rule)
    requires Aligned(s, us) && f in us && g in us && leg.gttId == f.gttId.value
    requires leg.strategy == EntryLeg <==> OnEntrySide(s, f)
    requires SameLeg(r, leg.gttId, leg.strategy) && r.orderId == Some(f.orderId)
    ensures LinkAgrees(s, g, r)
  {
    hide Books, HasLegs, OnEntrySide, UniqueLegs, OneSignalEach;
  }

  lemma LegRewires(s: State, us: set<Fill>, rule: Rule)
    requires Aligned(s, us) && LegFits(s, us, rule)
    ensures Rewired(s, s.(rules := Upsert(s.rules, rule)), us)
  {
    hide Books, HasLegs, Addressed;
    UpsertExisting(s.rules, rule);
    hide Upsert;
    var t := s.(rules := Upsert(s.rules, rule));
    assert Static(s.rules) == Static(t.rules);
    forall i, g | 0 <= i < |s.rules| && t.rules[i] != s.rules[i] && g in us && Addressed(s, g)
      ensures LinkAgrees(s, g, t.rules[i])
    {
      assert LinkAgrees(s, g, rule);
    }
  }

  // ----- Notices -----

  /** One of these legs is the rule's. */
  predicate Named(r: Rule, legs: seq<Rule>) {
    exists k :: 0 <= k < |legs| && SameLeg(r, legs[k].gttId, legs[k].strategy)
  }

  function UnlinkedIf(r: Rule, legs: seq<Rule>): Rule { if Named(r, legs) then r.(orderId := None) else r }

  lemma NamedCons(r: Rule, legs: seq<Rule>)
    requires legs != []
    ensures Named(r, legs) <==> SameLeg(r, legs[0].gttId, legs[0].strategy) || Named(r, legs[1..])
  {
    if k :| 0 <= k < |legs| && SameLeg(r, legs[k].gttId, legs[k].strategy) {
      if k > 0 { assert legs[1..][k - 1] == legs[k]; }
    }
    if Named(r, legs[1..]) {
      var k :| 0 <= k < |legs[1..]| && SameLeg(r, legs[1..][k].gttId, legs[1..][k].strategy);
      assert legs[k + 1] == legs[1..][k];
    }
  }

  predicate AllThere(rules: seq<Rule>, legs: seq<Rule>) {
    forall k :: 0 <= k < |legs| ==>
      legs[k].orderId == None && exists i :: 0 <= i < |rules| && SameLeg(rules[i], legs[k].gttId, legs[k].strategy)
  }

  /** Writing existing legs without an order unlinks exactly these. */
  lemma {:induction false} UpsertAllUnlinks(rules: seq<Rule>, legs: seq<Rule>)
    requires UniqueLegs(rules) && AllThere(rules, legs)
    ensures |UpsertAll(rules, legs)| == |rules|
    ensures forall i :: 0 <= i < |rules| ==> UpsertAll(rules, legs)[i] == UnlinkedIf(rules[i], legs)
    decreases |legs|
  {
    hide Upsert;
    if legs == [] {
    } else {
      var next := Upsert(rules, legs[0]);
      UpsertExisting(rules, legs[0]);
      UpsertKeepsStatic(rules, legs[0]);
      StaticShape(rules, next);
      NextThere(rules, next, legs);
      UpsertAllUnlinks(next, legs[1..]);
      forall i | 0 <= i < |rules| ensures UpsertAll(rules, legs)[i] == UnlinkedIf(rules[i], legs) {
        NamedCons(rules[i], legs);
        assert Named(next[i], legs[1..]) == Named(rules[i], legs[1..]);
      }
    }
  }

  lemma NextThere(rules: seq<Rule>, next: seq<Rule>, legs: seq<Rule>)
    requires legs != [] && AllThere(rules, legs) && |next| == |rules|
    requires forall i :: 0 <= i < |rules| ==> next[i].gttId == rules[i].gttId && next[i].strategy == rules[i].strategy
    ensures AllThere(next, legs[1..])
  {
    forall k | 0 <= k < |legs[1..]|
      ensures legs[1..][k].orderId == None
      ensures exists i :: 0 <= i < |next| && SameLeg(next[i], legs[1..][k].gttId, legs[1..][k].strategy)
    {
      assert legs[1..][k] == legs[k + 1];
      var i :| 0 <= i < |rules| && SameLeg(rules[i], legs[k + 1].gttId, legs[k + 1].strategy);
      assert SameLeg(next[i], legs[k + 1].gttId, legs[k + 1].strategy);
    }
  }

  lemma {:induction false} UnlinkedAt(legs: seq<Rule>)
    ensures |Unlinked(legs)| == |legs|
    ensures forall k :: 0 <= k < |legs| ==> Unlinked(legs)[k] == legs[k].(orderId := None)
  {
    if legs != [] {
      UnlinkedAt(legs[1..]);
    }
  }

  lemma UnlinkedLegsThere(rules: seq<Rule>, gttId: int)
    ensures AllThere(rules, Unlinked(LegsOf(rules, gttId)))
  {
    var legs := LegsOf(rules, gttId);
    UnlinkedAt(legs);
    forall k | 0 <= k < |legs|
      ensures exists i :: 0 <= i < |rules| && SameLeg(rules[i], legs[k].gttId, legs[k].strategy)
    {
      assert legs[k] in legs;
      var i :| 0 <= i < |rules| && rules[i] == legs[k];
      assert SameLeg(rules[i], legs[k].gttId, legs[k].strategy);
    }
    hide LegsOf, Unlinked, SameLeg;
  }

  lemma UnlinkedLegsNamed(rules: seq<Rule>, gttId: int, r: Rule)
    requires r in rules
    ensures Named(r, Unlinked(LegsOf(rules, gttId))) <==> r.gttId == gttId
  {
    var legs := LegsOf(rules, gttId);
    UnlinkedAt(legs);
    if r.gttId == gttId {
      var k :| 0 <= k < |legs| && legs[k] == r;
      assert SameLeg(r, Unlinked(legs)[k].gttId, Unlinked(legs)[k].strategy);
    } else {
      forall k | 0 <= k < |legs| ensures !SameLeg(r, Unlinked(legs)[k].gttId, Unlinked(legs)[k].strategy) {
        assert legs[k] in legs;
      }
    }
  }

  /** A notice unlinks all legs of its GTT and no other. */
  lemma NoticeUnlinks(rules: seq<Rule>, gttId: int)
    requires UniqueLegs(rules)
    ensures var after := UpsertAll(rules, Unlinked(LegsOf(rules, gttId)));
      && |after| == |rules|
      && forall i :: 0 <= i < |rules| ==>
           after[i] == if rules[i].gttId == gttId then rules[i].(orderId := None) else rules[i]
  {
    hide LegsOf, Unlinked, UpsertAll, UniqueLegs, AllThere, Named;
    UnlinkedLegsThere(rules, gttId);
    UpsertAllUnlinks(rules, Unlinked(LegsOf(rules, gttId)));
    forall i | 0 <= i < |rules|
      ensures Named(rules[i], Unlinked(LegsOf(rules, gttId))) <==> rules[i].gttId == gttId
    {
      UnlinkedLegsNamed(rules, gttId, rules[i]);
    }
  }

  lemma NoticeRewires(s: State, us: set<Fill>, gttId: int)
    requires Aligned(s, us)
    ensures Rewired(s, s.(rules := UpsertAll(s.rules, Unlinked(LegsOf(s.rules, gttId)))), us)
  {
    hide Books, HasLegs, Addressed, OnEntrySide;
    NoticeUnlinks(s.rules, gttId);
    hide UpsertAll, Unlinked, LegsOf;
    var t := s.(rules := UpsertAll(s.rules, Unlinked(LegsOf(s.rules, gttId))));
    assert Static(t.rules) == Static(s.rules);
  }

  function Closed(s: State, id: int, status: Status): State
    requires id in s.signals
  {
    s.(signals := s.signals[id := s.signals[id].(status := status)])
  }

  /** Closing a signal whose exit is not booked. */
  lemma ClosedLater(s: State, id: int, status: Status)
    requires id in s.signals && !Booked(s, id) && status in {Cancelled, Expired}
    ensures Later(s, Closed(s, id, status))
  {
  }

  lemma ClosedConsistent(s: State, us: set<Fill>, id: int, status: Status)
    requires Consistent(s, us) && id in s.signals && !Booked(s, id) && status in {Cancelled, Expired}
    ensures Consistent(Closed(s, id, status), us)
  {
    var t := Closed(s, id, status);
    ClosedLater(s, id, status);
    ClosedBooks(s, id, status);
    hide Books, HasLegs, Addressed, Later, Closed, Effective, UniqueLegs, OneSignalEach, LinkAgrees;
    ClosedFields(s, id, status);
    forall g | g in us
      ensures Addressed(t, g) && OnEntrySide(t, g) == OnEntrySide(s, g) && (Effective(s, g) ==> Effective(t, g))
    {
      SameAddress(s, t, g);
    }
    forall g, r | g in us && r in t.rules ensures LinkAgrees(t, g, r) {
      assert LinkAgrees(s, g, r);
      SameLinks(s, t, g, r);
    }
  }

  lemma SameLinks(s: State, t: State, g: Fill, r: Rule)
    requires Addressed(s, g) && Addressed(t, g) && (OnEntrySide(t, g) <==> OnEntrySide(s, g)) && LinkAgrees(s, g, r)
    ensures LinkAgrees(t, g, r)
  {
    hide Addressed, OnEntrySide;
  }

  lemma ClosedFields(s: State, id: int, status: Status)
    requires id in s.signals
    ensures Closed(s, id, status).rules == s.rules && Closed(s, id, status).trades == s.trades
  {
  }

  lemma ClosedBooks(s: State, id: int, status: Status)
    requires Books(s) && id in s.signals && !Booked(s, id) && status in {Cancelled, Expired}
    ensures Books(Closed(s, id, status))
  {
  }

  /** What a notice does, in two parts. */
  lemma NoticeIs(s: State, gttId: int, closes: Option<Status>)
    requires KeysHold(s)
    ensures var legs := LegsOf(s.rules, gttId);
      var u := s.(rules := UpsertAll(s.rules, Unlinked(legs)));
      && (legs != [] ==> legs[0].signalId in s.signals)
      && TrackerRuns.Notice(s, gttId, closes)
         == if legs == [] then s else if closes.None? then u else Closed(u, legs[0].signalId, closes.value)
  {
    var legs := LegsOf(s.rules, gttId);
    if legs != [] { assert legs[0] in legs; }
  }

  lemma NoticeKeeps(s: State, us: set<Fill>, e: Event)
    requires Consistent(s, us) && e.Notice? && Fits(s, us, e) && !Late(s, e)
    ensures var t := Handle(s, e); Consistent(t, us) && Later(s, t) && t.trades == s.trades
  {
    hide Consistent, LegsOf, UpsertAll, Unlinked, Later, Closed;
    KeysOf(s, us);
    NoticeIs(s, e.gttId, e.closes);
    var legs := LegsOf(s.rules, e.gttId);
    var u := s.(rules := UpsertAll(s.rules, Unlinked(legs)));
    SameIsLater(s);
    if legs != [] {
      AlignedOf(s, us);
      NoticeRewires(s, us, e.gttId);
      RewiredConsistent(s, u, us);
      RewiredIsLater(s, u, us);
      if e.closes.Some? {
        var id := legs[0].signalId;
        assert !Booked(u, id);
        ClosedConsistent(u, us, id, e.closes.value);
        ClosedLater(u, id, e.closes.value);
        ClosedFields(u, id, e.closes.value);
        LaterChain(s, u, Closed(u, id, e.closes.value));
      }
    }
  }

  lemma SameIsLater(s: State)
    ensures Later(s, s)
  {
  }

  lemma KeysOf(s: State, us: set<Fill>)
    requires Consistent(s, us)
    ensures KeysHold(s)
  {
  }

  lemma AlignedOf(s: State, us: set<Fill>)
    requires Consistent(s, us)
    ensures Aligned(s, us)
  {
  }

  lemma LateAlike(s: State, t: State, e: Event)
    requires Alike(s, t)
    ensures Late(s, e) <==> Late(t, e)
    ensures e.Notice? && LegsOf(s.rules, e.gttId) != [] ==>
      LegsOf(t.rules, e.gttId) != [] && LegsOf(s.rules, e.gttId)[0].signalId == LegsOf(t.rules, e.gttId)[0].signalId
    ensures e.Notice? && LegsOf(s.rules, e.gttId) == [] ==> LegsOf(t.rules, e.gttId) == []
  {
    if e.Notice? {
      LegsStatic(s.rules, e.gttId);
      LegsStatic(t.rules, e.gttId);
      var a, b := LegsOf(s.rules, e.gttId), LegsOf(t.rules, e.gttId);
      assert |Static(a)| == |a| && |Static(b)| == |b|;
      if a != [] { assert Static(a)[0] == Static(b)[0]; }
    }
  }

  lemma StaticElements(a: seq<Rule>, b: seq<Rule>)
    requires Static(a) == Static(b) && |a| == |b|
    ensures forall i :: 0 <= i < |a| ==> StaticRule(Some(a[i])) == StaticRule(Some(b[i]))
  {
    forall i | 0 <= i < |a| ensures StaticRule(Some(a[i])) == StaticRule(Some(b[i])) {
      assert Static(a)[i] == a[i].(orderId := None) && Static(b)[i] == b[i].(orderId := None);
    }
  }

  /** Legs unlinked in alike states are equal; the others are as alike as before. */
  lemma UnlinkedAlike(s: State, t: State, us: set<Fill>, gttId: int)
    requires Aligned(s, us) && Aligned(t, us) && Alike(s, t)
    ensures Alike(s.(rules := UpsertAll(s.rules, Unlinked(LegsOf(s.rules, gttId)))),
                  t.(rules := UpsertAll(t.rules, Unlinked(LegsOf(t.rules, gttId)))))
  {
    NoticeRewires(s, us, gttId);
    NoticeRewires(t, us, gttId);
    NoticeUnlinks(s.rules, gttId);
    NoticeUnlinks(t.rules, gttId);
    StaticElements(s.rules, t.rules);
    hide UpsertAll, Unlinked, LegsOf, Aligned, Static;
    var s', t' := s.(rules := UpsertAll(s.rules, Unlinked(LegsOf(s.rules, gttId)))),
                  t.(rules := UpsertAll(t.rules, Unlinked(LegsOf(t.rules, gttId))));
    forall i | 0 <= i < |s'.rules| ensures s'.rules[i] == t'.rules[i] || LinkIdle(s', s'.rules[i]) {
      assert StaticRule(Some(s.rules[i])) == StaticRule(Some(t.rules[i]));
    }
  }

  lemma ClosedAlike(s: State, t: State, id: int, status: Status)
    requires Alike(s, t) && id in s.signals && !Booked(s, id)
    ensures id in t.signals && Alike(Closed(s, id, status), Closed(t, id, status))
  {
  }

  lemma NoticeAlike(s: State, t: State, us: set<Fill>, e: Event)
    requires Consistent(s, us) && Consistent(t, us) && Alike(s, t) && e.Notice? && !Late(s, e)
    ensures Alike(Handle(s, e), Handle(t, e))
  {
    hide Consistent, LegsOf, UpsertAll, Unlinked, Closed, Alike;
    KeysOf(s, us);
    KeysOf(t, us);
    AlignedOf(s, us);
    AlignedOf(t, us);
    NoticeIs(s, e.gttId, e.closes);
    NoticeIs(t, e.gttId, e.closes);
    LateAlike(s, t, e);
    UnlinkedAlike(s, t, us, e.gttId);
    var legs := LegsOf(s.rules, e.gttId);
    if legs != [] && e.closes.Some? {
      ClosedAlike(s.(rules := UpsertAll(s.rules, Unlinked(legs))),
                  t.(rules := UpsertAll(t.rules, Unlinked(LegsOf(t.rules, e.gttId)))),
                  legs[0].signalId, e.closes.value);
    }
  }

  // ----- Alike states stay alike -----

  /** Where links do not decide, a link step changes idle links only. */
  lemma LinkIsIdle(s: State, us: set<Fill>, f: Fill, avg: Option<int>)
    requires Aligned(s, us) && f in us && Resolves(s, f, avg)
    requires OnEntrySide(s, f) || Booked(s, TargetSignal(s, f))
    ensures Relinked(s, Link(s, f, avg), f)
  {
    LinkRewires(s, us, f, avg);
    LinkTouches(s, us, f, avg);
    LegOfMessage(s, us, f, avg);
    var t, leg := Link(s, f, avg), LegFor(s, f, avg).value;
    hide LegFor, Linked, Books, HasLegs, Resolves, Aligned, OnEntrySide, TargetSignal, Static;
    forall i | 0 <= i < |s.rules| && t.rules[i] != s.rules[i]
      ensures t.rules[i].orderId == Some(f.orderId) && LinkIdle(t, t.rules[i])
    {
      SameSignal(s, us, leg, s.rules[i]);
    }
  }

  lemma SameSignal(s: State, us: set<Fill>, leg: Rule, r: Rule)
    requires Aligned(s, us) && leg in s.rules && r in s.rules && leg.gttId == r.gttId
    ensures leg.signalId == r.signalId
  {
    hide Books, UniqueLegs;
  }

  /** And where they do, alike states link the same leg. */
  lemma SameLegLinked(s: State, t: State, us: set<Fill>, f: Fill, avg: Option<int>)
    requires Aligned(s, us) && Aligned(t, us) && f in us && Resolves(s, f, avg) && Alike(s, t)
    requires !OnEntrySide(s, f) && !Booked(s, TargetSignal(s, f))
    ensures ByChildOrder(s.rules, f.orderId).Some? <==> ByChildOrder(t.rules, f.orderId).Some?
    ensures LegFor(s, f, avg).Some? && StaticRule(LegFor(s, f, avg)) == StaticRule(LegFor(t, f, avg))
  {
    AlikeLegs(s, t, us, f, avg);
    AlikeChildren(s, t, us, f);
    LegOfMessage(s, us, f, avg);
  }

  lemma UpsertAlike(s: State, t: State, us: set<Fill>, a: Rule, b: Rule)
    requires Aligned(s, us) && Aligned(t, us) && Alike(s, t)
    requires a.gttId == b.gttId && a.strategy == b.strategy && a.orderId == b.orderId
    requires exists i :: 0 <= i < |s.rules| && SameLeg(s.rules[i], a.gttId, a.strategy)
    ensures Alike(s.(rules := Upsert(s.rules, a)), t.(rules := Upsert(t.rules, b)))
  {
    hide Books, Addressed, OnEntrySide, LinkAgrees, OneSignalEach, Upsert, UniqueLegs, Static;
    StaticElements(s.rules, t.rules);
    var i :| 0 <= i < |s.rules| && SameLeg(s.rules[i], a.gttId, a.strategy);
    assert SameLeg(t.rules[i], b.gttId, b.strategy);
    UpsertKeepsStatic(s.rules, a);
    UpsertKeepsStatic(t.rules, b);
    UpsertExisting(s.rules, a);
    UpsertExisting(t.rules, b);
    var s', t' := s.(rules := Upsert(s.rules, a)), t.(rules := Upsert(t.rules, b));
    forall j | 0 <= j < |s'.rules| ensures s'.rules[j] == t'.rules[j] || LinkIdle(s', s'.rules[j]) {
      assert StaticRule(Some(s.rules[j])) == StaticRule(Some(t.rules[j]));
    }
    hide Aligned, LinkIdle, SameLeg;
  }

  lemma LinkAlike(s: State, t: State, us: set<Fill>, f: Fill, avg: Option<int>)
    requires Aligned(s, us) && Aligned(t, us) && f in us && Alike(s, t)
    requires Resolves(s, f, avg) && Resolves(t, f, avg)
    ensures Alike(Link(s, f, avg), Link(t, f, avg))
  {
    SameAddress(s, t, f);
    LegOfMessage(s, us, f, avg);
    hide Aligned, Alike, LegFor, Resolves, Static, OnEntrySide, TargetSignal, Addressed, Books;
    if OnEntrySide(s, f) || Booked(s, TargetSignal(s, f)) {
      IdleLinksAlike(s, t, us, f, avg);
    } else {
      SameLegLinked(s, t, us, f, avg);
      if ByChildOrder(s.rules, f.orderId).None? {
        var a, b := LegFor(s, f, avg).value, LegFor(t, f, avg).value;
        var i :| 0 <= i < |s.rules| && s.rules[i] == a;
        assert SameLeg(s.rules[i], a.gttId, a.strategy);
        UpsertAlike(s, t, us, a.(orderId := Some(f.orderId)), b.(orderId := Some(f.orderId)));
      }
    }
  }

  lemma IdleLinksAlike(s: State, t: State, us: set<Fill>, f: Fill, avg: Option<int>)
    requires Aligned(s, us) && Aligned(t, us) && f in us && Alike(s, t)
    requires Resolves(s, f, avg) && Resolves(t, f, avg)
    requires OnEntrySide(s, f) || Booked(s, TargetSignal(s, f))
    ensures Alike(Link(s, f, avg), Link(t, f, avg))
  {
    SameAddress(s, t, f);
    LinkIsIdle(s, us, f, avg);
    LinkIsIdle(t, us, f, avg);
    OnlyLinks(s, f, avg);
    OnlyLinks(t, f, avg);
    hide Link, Resolves, Static, OnEntrySide, TargetSignal, Relinked, Aligned, Forward, Alike;
    AlikeFields(s, t);
    LinksStayAlike(s, Link(s, f, avg), t, Link(t, f, avg), f);
  }

  lemma AlikeFields(s: State, t: State)
    requires Alike(s, t)
    ensures s.signals == t.signals && s.recorded == t.recorded && s.trades == t.trades
  {
  }

  lemma OnlyLinks(s: State, f: Fill, avg: Option<int>)
    ensures var t := Link(s, f, avg);
      t.signals == s.signals && t.recorded == s.recorded && t.trades == s.trades && Forward(s, t)
  {
  }

  // ----- One event -----

  lemma LinkKeeps(s: State, us: set<Fill>, f: Fill, avg: Option<int>)
    requires Consistent(s, us) && f in us && Resolves(s, f, avg)
    ensures Consistent(Link(s, f, avg), us) && Later(s, Link(s, f, avg)) && Link(s, f, avg).trades == s.trades
  {
    hide LegFor, Linked, Resolves, Static, Forward;
    LinkRewires(s, us, f, avg);
    RewiredConsistent(s, Link(s, f, avg), us);
    RewiredIsLater(s, Link(s, f, avg), us);
  }

  lemma FillKeeps(s: State, us: set<Fill>, f: Fill)
    requires Consistent(s, us) && f in us
    ensures var t := ProcessFilledOrder(s, f);
      && Consistent(t, us) && Later(s, t) && s.trades <= t.trades && Settled(t, f)
      && t.trades == InsertAll(s.trades, TradesOf(f))
  {
    StaysConsistent(s, us, f);
    SettledAfter(s, us, f);
    FillStep(s, us, f);
    hide ProcessFilledOrder, Consistent, Forward, Static;
  }

  /** What an event keeps, and the trades it adds. */
  lemma HandleKeeps(s: State, us: set<Fill>, e: Event)
    requires Consistent(s, us) && Fits(s, us, e) && !Late(s, e)
    ensures var t := Handle(s, e);
      && Consistent(t, us) && Later(s, t) && s.trades <= t.trades
      && t.trades == InsertAll(s.trades, if e.Update? || e.Reconciled? then TradesOf(e.f) else [])
      && (e.Update? || e.Reconciled? ==> Settled(t, e.f))
  {
    hide ProcessFilledOrder, Link, Consistent, Settled, Later, Resolves;
    match e
    case Update(f, avg) =>
      LinkKeeps(s, us, f, avg);
      FillKeeps(Link(s, f, avg), us, f);
      LaterChain(s, Link(s, f, avg), Handle(s, e));
    case Progress(f, avg) => LinkKeeps(s, us, f, avg);
    case Reconciled(f) => FillKeeps(s, us, f);
    case LegWritten(rule) => LegKeeps(s, us, rule);
    case Notice(_, _) => NoticeKeeps(s, us, e);
  }

  lemma LegKeeps(s: State, us: set<Fill>, rule: Rule)
    requires Consistent(s, us) && LegFits(s, us, rule)
    ensures var t := s.(rules := Upsert(s.rules, rule)); Consistent(t, us) && Later(s, t)
  {
    hide Static, Forward, Upsert;
    var t := s.(rules := Upsert(s.rules, rule));
    LegRewires(s, us, rule);
    RewiredConsistent(s, t, us);
    RewiredIsLater(s, t, us);
  }

  lemma HandleAlike(s: State, t: State, us: set<Fill>, e: Event)
    requires Consistent(s, us) && Consistent(t, us) && Alike(s, t) && Fits(s, us, e) && Fits(t, us, e) && !Late(s, e)
    ensures Alike(Handle(s, e), Handle(t, e))
  {
    hide ProcessFilledOrder, Link, Alike, Aligned, Resolves;
    match e
    case Update(f, avg) =>
      LinkKeeps(s, us, f, avg);
      LinkKeeps(t, us, f, avg);
      LinkAlike(s, t, us, f, avg);
      AlikeStays(Link(s, f, avg), Link(t, f, avg), us, f);
    case Progress(f, avg) => LinkAlike(s, t, us, f, avg);
    case Reconciled(f) => AlikeStays(s, t, us, f);
    case LegWritten(rule) => UpsertAlike(s, t, us, rule, rule);
    case Notice(_, _) => NoticeAlike(s, t, us, e);
  }

  // ----- Repeats -----

  /** The fills that the events have delivered. */
  function Delivered(es: seq<Event>): seq<Fill> {
    if es == [] then []
    else
      var e := es[|es| - 1];
      Delivered(es[..|es| - 1]) + (if e.Update? || e.Reconciled? then [e.f] else [])
  }

  predicate Brings(f: Fill) { exists i :: 0 <= i < |TradesOf(f)| && TradesOf(f)[i].quantity > 0 }

  /** The fill was delivered before; an order update counts as a repeat only if its fill brought trades. */
  predicate Repeated(fs: seq<Fill>, e: Event) {
    (e.Reconciled? && e.f in fs) || (e.Update? && e.f in fs && Brings(e.f))
  }

  function WithoutRepeated(es: seq<Event>): seq<Event> {
    if es == [] then []
    else
      var n := |es| - 1;
      WithoutRepeated(es[..n]) + (if Repeated(Delivered(es[..n]), es[n]) then [] else [es[n]])
  }

  lemma {:induction false} TotalOfOrder(trades: seq<Trade>, j: nat, orderId: int)
    requires j < |trades| && trades[j].orderId == orderId && trades[j].quantity > 0
    ensures TotalQuantity(ForOrder(trades, orderId)) > 0
  {
    var n := |trades| - 1;
    var before := ForOrder(trades[..n], orderId);
    if j < n { TotalOfOrder(trades[..n], j, orderId); }
    if trades[n].orderId == orderId { assert (before + [trades[n]])[..|before|] == before; }
    else { assert before + [] == before; }
  }

  /** A settled fill that brings trades has had its effect. */
  lemma SettledIsEffective(s: State, us: set<Fill>, f: Fill)
    requires Consistent(s, us) && HonestIds(s.trades, us) && f in us && Settled(s, f) && Brings(f)
    ensures Effective(s, f)
  {
    assert Addressed(s, f) && IdsAgree(s.trades, TradesOf(f));
    hide Books, HasLegs, LinkAgrees, OnEntrySide, Effective;
    var i :| 0 <= i < |TradesOf(f)| && TradesOf(f)[i].quantity > 0;
    assert Seen(s.trades, f.trades.value[i].tradeId);
    var j :| 0 <= j < |s.trades| && s.trades[j].tradeId == f.trades.value[i].tradeId;
    TotalOfOrder(s.trades, j, f.orderId);
  }

  lemma HonestMore(trades: seq<Trade>, us: set<Fill>, f: Fill)
    requires HonestIds(trades, us) && f in us
    ensures HonestIds(InsertAll(trades, TradesOf(f)), us)
  {
    var more := InsertAll(trades, TradesOf(f));
    InsertAllKeeps(trades, TradesOf(f));
    hide InsertAll, TradesOf;
    forall g | g in us ensures IdsAgree(more, TradesOf(g)) {
      assert IdsAgree(trades, TradesOf(g)) && IdsAgree(TradesOf(f), TradesOf(g));
      forall i, j | 0 <= i < |more| && 0 <= j < |TradesOf(g)| && more[i].tradeId == TradesOf(g)[j].tradeId
        ensures more[i] == TradesOf(g)[j]
      {
        assert more[i] in more;
      }
    }
  }

  lemma RepeatedLink(s: State, t: State, us: set<Fill>, f: Fill, avg: Option<int>)
    requires Consistent(s, us) && HonestIds(s.trades, us) && f in us && Settled(s, f) && Brings(f)
    requires Resolves(s, f, avg) && Alike(s, t)
    ensures Alike(Link(s, f, avg), t) && Consistent(Link(s, f, avg), us) && Settled(Link(s, f, avg), f)
  {
    SettledIsEffective(s, us, f);
    LinkIsIdle(s, us, f, avg);
    LinkKeeps(s, us, f, avg);
    OnlyLinks(s, f, avg);
    hide Link, Resolves, Static, Relinked, Alike, Forward, HonestIds, Brings, Books;
    IdleAlike(s, Link(s, f, avg), t, f);
  }

  lemma RepeatedFill(s: State, t: State, us: set<Fill>, f: Fill)
    requires Consistent(s, us) && f in us && Settled(s, f) && Alike(s, t)
    ensures Alike(ProcessFilledOrder(s, f), t)
  {
    RepeatIsIdle(s, us, f);
    hide ProcessFilledOrder, Alike, Relinked, Books;
    IdleAlike(s, ProcessFilledOrder(s, f), t, f);
  }

  lemma RepeatedAlike(s: State, t: State, us: set<Fill>, fs: seq<Fill>, e: Event)
    requires Consistent(s, us) && HonestIds(s.trades, us) && AllSettled(s, fs) && Alike(s, t)
    requires Fits(s, us, e) && Repeated(fs, e)
    ensures Alike(Handle(s, e), t)
  {
    var i :| 0 <= i < |fs| && fs[i] == e.f;
    assert Settled(s, fs[i]);
    hide ProcessFilledOrder, Link, Alike, Consistent, HonestIds, Settled, Resolves, Brings;
    match e
    case Update(f, avg) =>
      RepeatedLink(s, t, us, f, avg);
      RepeatedFill(Link(s, f, avg), t, us, f);
    case Reconciled(f) => RepeatedFill(s, t, us, f);
  }

  lemma SettledStays(s: State, t: State, fs: seq<Fill>)
    requires AllSettled(s, fs) && s.trades <= t.trades
    ensures AllSettled(t, fs)
  {
    forall i | 0 <= i < |fs| ensures Settled(t, fs[i]) { SettledGrows(s, t, fs[i]); }
  }

  // ----- Whole runs -----

  /** What holds after a run from `s` and the same run without repeats. */
  ghost predicate Paired(s: State, a: State, b: State, us: set<Fill>, fs: seq<Fill>) {
    && Consistent(a, us) && Consistent(b, us) && Alike(a, b) && Later(s, a) && Later(s, b)
    && AllSettled(a, fs) && HonestIds(a.trades, us)
  }

  lemma PairedStart(s: State, us: set<Fill>)
    requires Consistent(s, us) && HonestIds(s.trades, us)
    ensures Paired(s, s, s, us, [])
  {
    hide Consistent, HonestIds;
  }

  lemma PairedStep(s: State, a: State, b: State, us: set<Fill>, fs: seq<Fill>, e: Event)
    requires Consistent(s, us) && Paired(s, a, b, us, fs) && Fits(s, us, e) && !Late(a, e)
    ensures Paired(s, Handle(a, e), if Repeated(fs, e) then b else Handle(b, e), us,
                   fs + if e.Update? || e.Reconciled? then [e.f] else [])
  {
    hide Handle, Alike, Aligned, Later, HonestIds, Repeated, Settled, Resolves, Effective, Late;
    FitsLater(s, a, us, e);
    FitsLater(s, b, us, e);
    LateAlike(a, b, e);
    HandleKeeps(a, us, e);
    HandleKeeps(b, us, e);
    LaterChain(s, a, Handle(a, e));
    LaterChain(s, b, Handle(b, e));
    SettledStays(a, Handle(a, e), fs);
    if e.Update? || e.Reconciled? {
      HonestMore(a.trades, us, e.f);
    }
    hide Consistent;
    if Repeated(fs, e) {
      RepeatedAlike(a, b, us, fs, e);
    } else {
      HandleAlike(a, b, us, e);
    }
  }

  lemma TimelyPrefix(s: State, es: seq<Event>, n: nat)
    requires Timely(s, es) && n <= |es|
    ensures Timely(s, es[..n])
  {
    hide Late, Handle;
    forall i | 0 <= i < n ensures !Late(Play(s, es[..n][..i]), es[..n][i]) {
      assert es[..n][..i] == es[..i];
    }
  }

  lemma {:induction false} RunsPair(s: State, us: set<Fill>, es: seq<Event>)
    requires Consistent(s, us) && HonestIds(s.trades, us) && AllFit(s, us, es) && Timely(s, es)
    ensures Paired(s, Play(s, es), Play(s, WithoutRepeated(es)), us, Delivered(es))
  {
    hide Handle, Paired, Consistent, HonestIds, Fits, Repeated, Late;
    if es == [] {
      PairedStart(s, us);
    } else {
      var before, e := es[..|es| - 1], es[|es| - 1];
      var rest := WithoutRepeated(before);
      TimelyPrefix(s, es, |es| - 1);
      RunsPair(s, us, before);
      PairedStep(s, Play(s, before), Play(s, rest), us, Delivered(before), e);
      assert (rest + [e])[..|rest|] == rest;
      assert rest + [] == rest && Delivered(before) + [] == Delivered(before);
    }
  }

  /**
   Whatever the handlers do in between - links, leg rows, updates of orders that are not complete, notices that
   are not late - a run ends in the same rows, trades and records as the run without its repeated deliveries.
   */
  lemma HandledRepeatsChangeNothing(s: State, us: set<Fill>, es: seq<Event>)
    requires Consistent(s, us) && HonestIds(s.trades, us) && AllFit(s, us, es) && Timely(s, es)
    ensures var a, b := Play(s, es), Play(s, WithoutRepeated(es));
      a.signals == b.signals && a.recorded == b.recorded && a.trades == b.trades
  {
    RunsPair(s, us, es);
    hide Play, Consistent, Later, HonestIds, AllSettled;
  }

  // ----- These runs are runs of the tracker -----

  function AllOps(es: seq<Event>): seq<Op> {
    if es == [] then [] else AllOps(es[..|es| - 1]) + OpsOf(es[|es| - 1])
  }

  lemma UpdateIsRun(s: State, f: Fill, avg: Option<int>)
    requires Books(s) && GoodTrades(TradesOf(f))
    ensures Legal(s, [DoLink(f, avg), DoFill(f)])
    ensures Run(s, [DoLink(f, avg), DoFill(f)]) == ProcessFilledOrder(Link(s, f, avg), f)
  {
    hide ProcessFilledOrder, Link, Books;
    RunOneMore(s, [], DoLink(f, avg));
    RunOneMore(s, [DoLink(f, avg)], DoFill(f));
    assert [] + [DoLink(f, avg)] == [DoLink(f, avg)] && [DoLink(f, avg)] + [DoFill(f)] == [DoLink(f, avg), DoFill(f)];
  }

  lemma HandleIsRun(s: State, us: set<Fill>, e: Event)
    requires Consistent(s, us) && Fits(s, us, e)
    ensures Legal(s, OpsOf(e)) && Run(s, OpsOf(e)) == Handle(s, e)
  {
    hide ProcessFilledOrder, Link, Resolves;
    assert Aligned(s, us);
    if e.Update? || e.Reconciled? { assert Addressed(s, e.f); }
    match e
    case Update(f, avg) => UpdateIsRun(s, f, avg);
    case Progress(f, avg) =>
      RunOneMore(s, [], DoLink(f, avg));
      assert [] + [DoLink(f, avg)] == OpsOf(e);
    case Reconciled(f) =>
      RunOneMore(s, [], DoFill(f));
      assert [] + [DoFill(f)] == OpsOf(e);
    case LegWritten(rule) =>
      RunOneMore(s, [], DoUpsert(rule));
      assert [] + [DoUpsert(rule)] == OpsOf(e);
    case Notice(gttId, closes) =>
      RunOneMore(s, [], DoNotice(gttId, closes));
      assert [] + [DoNotice(gttId, closes)] == OpsOf(e);
  }

  lemma {:induction false} PlayIsRun(s: State, us: set<Fill>, es: seq<Event>)
    requires Consistent(s, us) && HonestIds(s.trades, us) && AllFit(s, us, es) && Timely(s, es)
    ensures Books(s) && Legal(s, AllOps(es)) && Run(s, AllOps(es)) == Play(s, es)
  {
    hide Consistent, Timely, HonestIds, AllFit, Books, Handle, OpsOf;
    BooksOf(s, us);
    if es != [] {
      var before, e := es[..|es| - 1], es[|es| - 1];
      TimelyPrefix(s, es, |es| - 1);
      FitsPrefix(s, us, es);
      PlayIsRun(s, us, before);
      PlayIsRunStep(s, us, before, e);
      RunAppend(s, AllOps(before), OpsOf(e));
    }
  }

  lemma BooksOf(s: State, us: set<Fill>)
    requires Consistent(s, us)
    ensures Books(s)
  {
    hide Books;
  }

  lemma FitsPrefix(s: State, us: set<Fill>, es: seq<Event>)
    requires AllFit(s, us, es) && es != []
    ensures AllFit(s, us, es[..|es| - 1]) && Fits(s, us, es[|es| - 1])
  {
    hide Fits;
  }

  lemma PlayIsRunStep(s: State, us: set<Fill>, before: seq<Event>, e: Event)
    requires Consistent(s, us) && HonestIds(s.trades, us) && AllFit(s, us, before) && Timely(s, before)
    requires Fits(s, us, e)
    ensures var a := Play(s, before); Books(a) && Legal(a, OpsOf(e)) && Run(a, OpsOf(e)) == Handle(a, e)
  {
    RunsPair(s, us, before);
    hide Handle, Alike, HonestIds, Fits, Later, AllSettled, Addressed, LinkAgrees, OnEntrySide, Timely, AllFit;
    FitsLater(s, Play(s, before), us, e);
    HandleIsRun(Play(s, before), us, e);
  }

  // ----- Updates without a price -----

  lemma UnpricedLeg(s: State, us: set<Fill>, f: Fill)
    requires Aligned(s, us) && f in us && !OnEntrySide(s, f) && Resolves(s, f, None)
    requires ByChildOrder(s.rules, f.orderId).None?
    ensures var leg := LegFor(s, f, None); leg.Some? && leg.value in s.rules && leg.value.strategy == TargetLeg
  {
    LegOfMessage(s, us, f, None);
    hide Books, LinkAgrees, Static;
  }

  lemma LinkedToTarget(s: State, us: set<Fill>, f: Fill)
    requires Aligned(s, us) && f in us && !OnEntrySide(s, f) && Resolves(s, f, None)
    requires ByChildOrder(s.rules, f.orderId).None?
    ensures var linked := ByChildOrder(Link(s, f, None).rules, f.orderId);
      linked.Some? && linked.value.strategy == TargetLeg
  {
    hide Aligned, Addressed, Static, LegFor, Linked, Resolves, OnEntrySide;
    LinkTouches(s, us, f, None);
    UnpricedLeg(s, us, f);
    var t, leg := Link(s, f, None), LegFor(s, f, None).value;
    var i :| 0 <= i < |s.rules| && s.rules[i] == leg;
    LinkSets(s, us, f, i);
    assert t.rules[i] in t.rules && t.rules[i].orderId == Some(f.orderId);
    forall r | r in t.rules && r.orderId == Some(f.orderId) ensures r.strategy == TargetLeg {
      var j :| 0 <= j < |t.rules| && t.rules[j] == r;
      assert s.rules[j] in s.rules;
    }
  }

  lemma LinkSets(s: State, us: set<Fill>, f: Fill, i: nat)
    requires Aligned(s, us) && f in us && Resolves(s, f, None) && ByChildOrder(s.rules, f.orderId).None?
    requires LegFor(s, f, None).Some? && i < |s.rules| && s.rules[i] == LegFor(s, f, None).value
    ensures var rules := Link(s, f, None).rules; i < |rules| && rules[i].orderId == Some(f.orderId)
  {
    hide Books, Addressed, HasLegs, Static, LegFor;
    var leg := LegFor(s, f, None).value;
    assert SameLeg(s.rules[i], leg.gttId, leg.strategy);
    UpsertExisting(s.rules, leg.(orderId := Some(f.orderId)));
  }

  /**
   An exit order whose first update carries no price is linked to the target leg, so its fill is booked as
   TARGET1_HIT whatever its price, also at the stop.
   */
  lemma UnpricedUpdateBooksTarget(s: State, us: set<Fill>, f: Fill)
    requires Aligned(s, us) && f in us && !OnEntrySide(s, f) && Resolves(s, f, None)
    requires ByChildOrder(s.rules, f.orderId).None? && !Booked(s, TargetSignal(s, f))
    requires Meet(Link(s, f, None), f).Meeting?
    ensures var id, t := TargetSignal(s, f), Play(s, [Progress(f, None), Reconciled(f)]);
      id in t.signals && t.signals[id].status == Target1Hit
  {
    hide Link, ProcessFilledOrder, Meet, Play, Aligned, Static, Rewired, Forward, Resolves, OnEntrySide, TargetSignal;
    hide Addressed;
    var linked := Link(s, f, None);
    LinkedToTarget(s, us, f);
    LinkRewires(s, us, f, None);
    RewiredAligned(s, linked, us);
    RewiredIsLater(s, linked, us);
    AlignedAddressed(s, us, f);
    SameAddress(s, linked, f);
    OnlyLinks(s, f, None);
    TwoEvents(s, Progress(f, None), Reconciled(f));
    TargetFillBooks(linked, us, f);
  }

  lemma AlignedAddressed(s: State, us: set<Fill>, f: Fill)
    requires Aligned(s, us) && f in us
    ensures Addressed(s, f)
  {
  }

  lemma TargetFillBooks(s: State, us: set<Fill>, f: Fill)
    requires Aligned(s, us) && f in us && Meet(s, f).Meeting?
    requires ByChildOrder(s.rules, f.orderId).Some? && ByChildOrder(s.rules, f.orderId).value.strategy == TargetLeg
    requires Addressed(s, f) && !Booked(s, TargetSignal(s, f))
    ensures var id, t := TargetSignal(s, f), ProcessFilledOrder(s, f);
      id in t.signals && t.signals[id].status == Target1Hit
  {
    hide ProcessFilledOrder, Meet, Aligned, Addressed, OnEntrySide, TargetSignal;
    MeetsItsLeg(s, us, f);
    MeetLeg(s, f);
  }

  lemma MeetLeg(s: State, f: Fill)
    requires Meet(s, f).Meeting? && ByChildOrder(s.rules, f.orderId).Some?
    ensures Meet(s, f).leg == ByChildOrder(s.rules, f.orderId).value
  {
  }

  lemma TwoEvents(s: State, a: Event, b: Event)
    ensures Play(s, [a]) == Handle(s, a) && Play(s, [a, b]) == Handle(Handle(s, a), b)
  {
    hide Handle;
    assert [a][..0] == [] && [a, b][..1] == [a];
  }
}
