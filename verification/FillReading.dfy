/**
 What a signal's row says after any sequence of deliveries: its first entry fill and its first
 exit fill decide, and nothing else.
 */
module FillReading {
  import opened Options
  import opened Vwap
  import opened FillRules
  import opened TrackerRuns

  /** A fill as it reaches a row: its leg, average price and quantity. */
  datatype Hit = Hit(leg: Strategy, price: int, quantity: nat)

  function RowStep(r: Row, h: Hit): Row {
    if AlreadyApplied(r, h.leg) then r else Applied(r, h.leg, h.price, h.quantity)
  }

  function RowAfter(r: Row, hits: seq<Hit>): Row {
    if hits == [] then r else RowStep(RowAfter(r, hits[..|hits| - 1]), hits[|hits| - 1])
  }

  /** The first fill of the entry leg, or of an exit leg; |hits| when there is none. */
  function First(hits: seq<Hit>, entry: bool): (i: nat)
    ensures i <= |hits|
    ensures forall j :: 0 <= j < i ==> (hits[j].leg == EntryLeg) != entry
    ensures i < |hits| ==> (hits[i].leg == EntryLeg) == entry
  {
    if hits == [] then 0
    else
      var n := |hits| - 1;
      var i := First(hits[..n], entry);
      if i < n then i else if (hits[n].leg == EntryLeg) == entry then n else n + 1
  }

  function Closed(r: Row, entry: int, h: Hit): Row {
    r.(entry := entry, exit := h.price, pnl := Some(Realized(r.action, entry, h.price, h.quantity)),
       status := if AtTarget(r, h.price) || h.leg == TargetLeg then Target1Hit else StoplossHit)
  }

  /**
   An exit fill that comes first books a flat exit. An entry fill that comes first opens the
   position, and the first exit fill closes it at its own price, unless the entry itself filled
   at the target or the stop: then it books a flat exit.
   */
  function ReadHits(r: Row, hits: seq<Hit>): Row {
    var n, e, x := |hits|, First(hits, true), First(hits, false);
    if x < e then Closed(r, hits[x].price, hits[x])
    else if e == n then r
    else if AtTarget(r, hits[e].price) || AtStop(r, hits[e].price) then Closed(r, hits[e].price, hits[e])
    else if x == n then r.(entry := hits[e].price, status := Active)
    else Closed(r, hits[e].price, hits[x])
  }

  lemma {:induction false} FirstFillsDecide(r: Row, hits: seq<Hit>)
    requires r.status == Pending && FreshRow(r)
    requires forall i :: 0 <= i < |hits| ==> hits[i].price > 0
    ensures RowAfter(r, hits) == ReadHits(r, hits)
  {
    if hits != [] {
      FirstFillsDecide(r, hits[..|hits| - 1]);
    }
  }

  // ----- Deliveries -----

  /** The fills that reach one signal's row, in order. */
  function HitsOn(s: State, fs: seq<Fill>, id: int): seq<Hit> {
    if fs == [] then []
    else
      var n := |fs| - 1;
      var m := Meet(Deliver(s, fs[..n]), fs[n]);
      HitsOn(s, fs[..n], id)
      + (if m.Meeting? && m.leg.signalId == id then [Hit(m.leg.strategy, m.price, m.quantity)] else [])
  }

  predicate Positive(hits: seq<Hit>) { forall i :: 0 <= i < |hits| ==> hits[i].price > 0 }

  predicate AllGood(fs: seq<Fill>) {
    forall i :: 0 <= i < |fs| && fs[i].trades.Some? ==> GoodTrades(fs[i].trades.value)
  }

  lemma MeetRow(s: State, f: Fill, id: int)
    requires Books(s) && Enabled(s, DoFill(f)) && id in s.signals
    ensures var m, t := Meet(s, f), ProcessFilledOrder(s, f);
      && Books(t) && id in t.signals
      && (m.Meeting? && m.leg.signalId == id ==>
           m.price > 0 && t.signals[id] == RowStep(s.signals[id], Hit(m.leg.strategy, m.price, m.quantity)))
      && (!(m.Meeting? && m.leg.signalId == id) ==> t.signals[id] == s.signals[id])
  {
    StepKeepsBooks(s, DoFill(f));
    FillMeets(s, f);
  }

  lemma {:induction false} DeliveredRow(s: State, fs: seq<Fill>, id: int)
    requires Books(s) && AllGood(fs) && id in s.signals
    ensures var t := Deliver(s, fs);
      && Books(t) && id in t.signals
      && t.signals[id] == RowAfter(s.signals[id], HitsOn(s, fs, id))
      && Positive(HitsOn(s, fs, id))
  {
    hide Meet, ProcessFilledOrder, RowStep, Books;
    if fs != [] {
      var n := |fs| - 1;
      var before := Deliver(s, fs[..n]);
      DeliveredRow(s, fs[..n], id);
      MeetRow(before, fs[n], id);
      var hits, more := HitsOn(s, fs[..n], id), HitsOn(s, fs, id);
      var m := Meet(before, fs[n]);
      if m.Meeting? && m.leg.signalId == id {
        assert more[..|more| - 1] == hits;
      } else {
        assert more == hits;
      }
    }
  }

  /** Whatever is delivered, and however often, a new signal's row is the reading of its fills. */
  lemma DeliveriesRead(s: State, fs: seq<Fill>, id: int)
    requires Books(s) && AllGood(fs)
    requires id in s.signals && s.signals[id].status == Pending && FreshRow(s.signals[id])
    ensures id in Deliver(s, fs).signals
    ensures Deliver(s, fs).signals[id] == ReadHits(s.signals[id], HitsOn(s, fs, id))
  {
    DeliveredRow(s, fs, id);
    FirstFillsDecide(s.signals[id], HitsOn(s, fs, id));
  }
}
