/**
 The two instrument indexes against a linear scan of the list they were loaded from: the v1 index of
 gtt_strategy.py keeps the first qualifying instrument, the two-layer v2 cache of
 gtt_v2/shared/instruments/cache.py the last.
 */
module InstrumentIndex {
  import opened Options

  type Data = map<string, string>

  /**
   An entry of the broker's list after conversion. Strings are in upper case; `strike` and `expiry`
   are None when they are missing or cannot be converted; `key` is "" when it is missing.
   */
  datatype Item = Item(segment: string, kind: string, underlying: string, strike: Option<int>,
                       expiry: Option<string>, key: string, fields: Data)

  datatype Lookup = Lookup(underlying: string, strike: int, kind: string, expiry: string)

  predicate Listed(i: Item) {
    && i.segment in {"NSE_FO", "BSE_FO"} && i.kind in {"CE", "PE"}
    && i.underlying != "" && i.strike.Some? && i.expiry.Some?
  }

  function LookupOf(i: Item): Lookup
    requires Listed(i)
  {
    Lookup(i.underlying, i.strike.value, i.kind, i.expiry.value)
  }

  /** v1 indexes an item even without an instrument key, v2 does not. */
  predicate Matches(i: Item, k: Lookup, needsKey: bool) {
    Listed(i) && LookupOf(i) == k && (needsKey ==> i.key != "")
  }

  function DataOf(i: Item): Data { i.fields["instrument_key" := i.key] }

  // ----- Linear scans -----

  function FirstMatch(items: seq<Item>, k: Lookup, needsKey: bool): (r: Option<Item>)
    ensures r.Some? ==>
      exists i :: 0 <= i < |items| && r.value == items[i] && Matches(items[i], k, needsKey)
                  && forall j :: 0 <= j < i ==> !Matches(items[j], k, needsKey)
    ensures r.None? ==> forall i :: 0 <= i < |items| ==> !Matches(items[i], k, needsKey)
  {
    if items == [] then None
    else
      var n := |items| - 1;
      var before := FirstMatch(items[..n], k, needsKey);
      if before.Some? then before
      else if Matches(items[n], k, needsKey) then Some(items[n]) else None
  }

  function LastMatch(items: seq<Item>, k: Lookup, needsKey: bool): (r: Option<Item>)
    ensures r.Some? ==>
      exists i :: 0 <= i < |items| && r.value == items[i] && Matches(items[i], k, needsKey)
                  && forall j :: i < j < |items| ==> !Matches(items[j], k, needsKey)
    ensures r.None? ==> forall i :: 0 <= i < |items| ==> !Matches(items[i], k, needsKey)
  {
    if items == [] then None
    else
      var n := |items| - 1;
      if Matches(items[n], k, needsKey) then Some(items[n]) else LastMatch(items[..n], k, needsKey)
  }

  /** An option of either exchange that has all four parts, and these. */
  predicate IsOption(i: Item, k: Lookup) {
    && (i.segment == "NSE_FO" || i.segment == "BSE_FO") && (i.kind == "CE" || i.kind == "PE")
    && i.kind == k.kind && i.underlying == k.underlying && k.underlying != ""
    && i.strike == Some(k.strike) && i.expiry == Some(k.expiry)
  }

  /** Both scans in terms of the item's own columns: the first such option, and the last that has an instrument key. */
  lemma ScansFind(items: seq<Item>, k: Lookup)
    ensures match FirstMatch(items, k, false)
      case None => forall i :: 0 <= i < |items| ==> !IsOption(items[i], k)
      case Some(item) =>
        exists i :: 0 <= i < |items| && item == items[i] && IsOption(items[i], k)
                    && forall j :: 0 <= j < i ==> !IsOption(items[j], k)
    ensures match LastMatch(items, k, true)
      case None => forall i :: 0 <= i < |items| ==> !(IsOption(items[i], k) && items[i].key != "")
      case Some(item) =>
        exists i :: 0 <= i < |items| && item == items[i] && IsOption(items[i], k) && items[i].key != ""
                    && forall j :: i < j < |items| ==> !(IsOption(items[j], k) && items[j].key != "")
  {
    forall i | 0 <= i < |items|
      ensures Matches(items[i], k, false) <==> IsOption(items[i], k)
      ensures Matches(items[i], k, true) <==> IsOption(items[i], k) && items[i].key != ""
    {
    }
    hide Matches, IsOption, FirstMatch, LastMatch;
  }

  /** Where every lookup key and every instrument is unambiguous, the two generations agree. */
  lemma FirstIsLast(items: seq<Item>, k: Lookup)
    requires forall i :: 0 <= i < |items| && Listed(items[i]) ==> items[i].key != ""
    requires forall i, j :: 0 <= i < j < |items| && Listed(items[i]) && Listed(items[j]) ==>
        LookupOf(items[i]) != LookupOf(items[j])
    ensures FirstMatch(items, k, false) == LastMatch(items, k, true)
  {
  }

  // ----- v1 -----

  class OptionIndex {
    var index: map<Lookup, Item>
    ghost var items: seq<Item>

    ghost predicate Valid()
      reads this
    {
      forall k :: (if k in index then Some(index[k]) else None) == FirstMatch(items, k, false)
    }

    constructor ()
      ensures Valid() && items == []
    {
      index, items := map[], [];
    }

    /** load_instruments starts over and keeps what `setdefault` saw first. */
    method LoadInstruments(list: seq<Item>)
      modifies this
      ensures Valid() && items == list
    {
      index, items := map[], [];
      for n := 0 to |list|
        invariant Valid() && items == list[..n]
      {
        var item := list[n];
        assert list[..n + 1][..n] == list[..n];
        if Listed(item) && LookupOf(item) !in index {
          index := index[LookupOf(item) := item];
        }
        items := list[..n + 1];
      }
      assert list[..|list|] == list;
    }

    method FindInstrument(k: Lookup) returns (r: Option<Item>)
      requires Valid()
      ensures r == FirstMatch(items, k, false)
    {
      r := if k in index then Some(index[k]) else None;
    }
  }

  // ----- v2 -----

  predicate Cacheable(i: Item) { Listed(i) && i.key != "" }

  /** What the Redis hash of one instrument holds: HSET adds fields and replaces equal ones, item by item. */
  function Merged(items: seq<Item>, key: string): Data {
    if items == [] then map[]
    else
      var n := |items| - 1;
      if Cacheable(items[n]) && items[n].key == key then Merged(items[..n], key) + DataOf(items[n])
      else Merged(items[..n], key)
  }

  predicate DistinctKeys(items: seq<Item>) {
    forall i, j :: 0 <= i < j < |items| && Cacheable(items[i]) && Cacheable(items[j]) ==> items[i].key != items[j].key
  }

  lemma {:induction false} MergedAbsent(items: seq<Item>, key: string)
    requires forall i :: 0 <= i < |items| && Cacheable(items[i]) ==> items[i].key != key
    ensures Merged(items, key) == map[]
  {
    if items != [] {
      MergedAbsent(items[..|items| - 1], key);
    }
  }

  /**
   Items that share an instrument key are the same in every field: so it is for distinct instrument keys, and
   for a list that is loaded again.
   */
  predicate KeysAgree(items: seq<Item>) {
    forall i, j :: 0 <= i < j < |items| && Cacheable(items[i]) && Cacheable(items[j]) ==>
      items[i].key == items[j].key ==> DataOf(items[i]) == DataOf(items[j])
  }

  lemma DistinctKeysAgree(items: seq<Item>)
    requires DistinctKeys(items)
    ensures KeysAgree(items)
  {
  }

  /** Then a hash holds one item's data. */
  lemma {:induction false} MergedAlone(items: seq<Item>, i: nat)
    requires KeysAgree(items) && i < |items| && Cacheable(items[i])
    ensures Merged(items, items[i].key) == DataOf(items[i])
  {
    hide DataOf, Cacheable;
    var n, own := |items| - 1, DataOf(items[i]);
    if j :| 0 <= j < n && Cacheable(items[j]) && items[j].key == items[i].key {
      MergedAlone(items[..n], j);
      assert own + own == own;
    } else {
      MergedAbsent(items[..n], items[i].key);
      assert map[] + own == own;
    }
  }

  lemma {:induction false} MergedNotEmpty(items: seq<Item>, i: nat)
    requires i < |items| && Cacheable(items[i])
    ensures "instrument_key" in Merged(items, items[i].key)
  {
    var n := |items| - 1;
    if i < n {
      MergedNotEmpty(items[..n], i);
    }
  }

  /** Item i of the list writes field f into the hash of `key`. */
  predicate Writes(items: seq<Item>, key: string, i: nat, f: string) {
    i < |items| && Cacheable(items[i]) && items[i].key == key && f in DataOf(items[i])
  }

  /** It is the last to do so. */
  predicate WritesLast(items: seq<Item>, key: string, i: nat, f: string) {
    Writes(items, key, i, f) && forall j :: i < j < |items| ==> !Writes(items, key, j, f)
  }

  lemma WritesEarlier(items: seq<Item>, n: nat, key: string, i: nat, f: string)
    requires i < n <= |items|
    ensures Writes(items[..n], key, i, f) <==> Writes(items, key, i, f)
  {
  }

  /** A hash has the fields that some item writes. */
  lemma {:induction false} MergedHas(items: seq<Item>, key: string, f: string)
    requires f in Merged(items, key)
    ensures exists i :: 0 <= i < |items| && Writes(items, key, i, f)
  {
    hide DataOf, Cacheable;
    var n := |items| - 1;
    if !Writes(items, key, n, f) {
      MergedHas(items[..n], key, f);
      var i :| 0 <= i < n && Writes(items[..n], key, i, f);
      WritesEarlier(items, n, key, i, f);
    }
  }

  /** And each with the value that the last of them writes. */
  lemma {:induction false} MergedValue(items: seq<Item>, key: string, i: nat, f: string)
    requires WritesLast(items, key, i, f)
    ensures f in Merged(items, key) && Merged(items, key)[f] == DataOf(items[i])[f]
  {
    hide DataOf, Cacheable;
    var n := |items| - 1;
    if i < n {
      assert !Writes(items, key, n, f);
      forall j | i <= j < n ensures Writes(items[..n], key, j, f) <==> Writes(items, key, j, f) {
        WritesEarlier(items, n, key, j, f);
      }
      MergedValue(items[..n], key, i, f);
    }
  }

  lemma {:induction false} SomeWritesLast(items: seq<Item>, key: string, i: nat, f: string)
    requires Writes(items, key, i, f)
    ensures exists j :: 0 <= j < |items| && WritesLast(items, key, j, f)
    decreases |items| - i
  {
    hide DataOf, Cacheable;
    if !WritesLast(items, key, i, f) {
      var j :| i < j < |items| && Writes(items, key, j, f);
      SomeWritesLast(items, key, j, f);
    }
  }

  /**
   Nothing in the list disturbs item m in its instrument's hash: every field written there is a field of m,
   and the last item to write it writes m's value.
   */
  predicate Undisturbed(items: seq<Item>, m: Item) {
    forall i, f :: 0 <= i < |items| && f in DataOf(items[i]) && WritesLast(items, m.key, i, f) ==>
      f in DataOf(m) && DataOf(items[i])[f] == DataOf(m)[f]
  }

  lemma MergedIsOwnIff(items: seq<Item>, at: nat)
    requires at < |items| && Cacheable(items[at])
    ensures Merged(items, items[at].key) == DataOf(items[at]) <==> Undisturbed(items, items[at])
  {
    var m, merged := items[at], Merged(items, items[at].key);
    hide Merged, DataOf;
    forall i, f | 0 <= i < |items| && WritesLast(items, m.key, i, f)
      ensures f in merged && merged[f] == DataOf(items[i])[f]
    {
      MergedValue(items, m.key, i, f);
    }
    forall f | f in merged ensures exists i :: 0 <= i < |items| && WritesLast(items, m.key, i, f) {
      MergedHas(items, m.key, f);
      var i :| 0 <= i < |items| && Writes(items, m.key, i, f);
      SomeWritesLast(items, m.key, i, f);
    }
    if Undisturbed(items, m) {
      forall f | f in DataOf(m) ensures f in merged {
        assert Writes(items, m.key, at, f);
        SomeWritesLast(items, m.key, at, f);
      }
      assert merged == DataOf(m);
    }
  }

  /** What `resolve` answers from Redis alone, after loading into an empty Redis. */
  function FromRedis(items: seq<Item>, k: Lookup): Option<Data> {
    var last := LastMatch(items, k, true);
    if last.None? then None else Some(Merged(items, last.value.key))
  }

  /** What it answers from the process's own dictionary. */
  function FromLocal(items: seq<Item>, k: Lookup): Option<Data> {
    var last := LastMatch(items, k, true);
    if last.None? then None else Some(DataOf(last.value))
  }

  /** The first layer answers with the item's own fields, and its instrument key. */
  lemma LocalAnswer(items: seq<Item>, k: Lookup)
    ensures var last, data := LastMatch(items, k, true), FromLocal(items, k);
      && (last.None? <==> data.None?)
      && (last.Some? ==>
            && data.value.Keys == last.value.fields.Keys + {"instrument_key"}
            && data.value["instrument_key"] == last.value.key
            && forall f :: f in last.value.fields && f != "instrument_key" ==> data.value[f] == last.value.fields[f])
  {
    hide LastMatch;
  }

  /** Where items of one key agree, so do the layers, and clearing one cannot be observed. */
  lemma LayersAgree(items: seq<Item>, k: Lookup)
    requires KeysAgree(items)
    ensures FromRedis(items, k) == FromLocal(items, k)
  {
    var last := LastMatch(items, k, true);
    if last.Some? {
      var i :| 0 <= i < |items| && last.value == items[i] && Matches(items[i], k, true);
      MergedAlone(items, i);
    }
  }

  function Get<K, V>(m: map<K, V>, k: K): Option<V> { if k in m then Some(m[k]) else None }

  function KeyOfLast(items: seq<Item>, k: Lookup): Option<string> {
    var last := LastMatch(items, k, true);
    if last.None? then None else Some(last.value.key)
  }

  ghost predicate IndexIs(index: map<Lookup, string>, items: seq<Item>) {
    forall k :: Get(index, k) == KeyOfLast(items, k)
  }

  ghost predicate HashesAre(hashes: map<string, Data>, items: seq<Item>) {
    forall key :: (if key in hashes then hashes[key] else map[]) == Merged(items, key)
  }

  /** The process's own dictionary after a load, over what it held before. */
  ghost predicate LoadedOver(before: map<Lookup, Data>, local: map<Lookup, Data>, list: seq<Item>) {
    forall k :: Get(local, k) == if FromLocal(list, k).Some? then FromLocal(list, k) else Get(before, k)
  }

  /** The value was right, in one of the layers, when n items had been loaded, and none that matches came since. */
  predicate CameFrom(items: seq<Item>, k: Lookup, value: Data, n: nat) {
    && n <= |items| && LastMatch(items[..n], k, true) == LastMatch(items, k, true)
    && (Some(value) == FromLocal(items[..n], k) || Some(value) == FromRedis(items[..n], k))
  }

  ghost predicate LocalAgrees(local: map<Lookup, Data>, items: seq<Item>) {
    forall k :: k in local ==> exists n :: 0 <= n <= |items| && CameFrom(items, k, local[k], n)
  }

  /** One more item is a match for its own lookup key and changes nothing for the others. */
  lemma MatchesMore(items: seq<Item>, item: Item, k: Lookup)
    ensures LastMatch(items + [item], k, true)
         == if Cacheable(item) && LookupOf(item) == k then Some(item) else LastMatch(items, k, true)
  {
    assert (items + [item])[..|items|] == items;
  }

  lemma MergedMore(items: seq<Item>, item: Item, key: string)
    ensures Merged(items + [item], key)
         == if Cacheable(item) && item.key == key then Merged(items, key) + DataOf(item) else Merged(items, key)
  {
    assert (items + [item])[..|items|] == items;
  }

  function IndexWith(index: map<Lookup, string>, item: Item): map<Lookup, string> {
    if Cacheable(item) then index[LookupOf(item) := item.key] else index
  }

  function HashesWith(hashes: map<string, Data>, item: Item): map<string, Data> {
    if !Cacheable(item) then hashes
    else hashes[item.key := (if item.key in hashes then hashes[item.key] else map[]) + DataOf(item)]
  }

  function LocalWith(local: map<Lookup, Data>, item: Item): map<Lookup, Data> {
    if Cacheable(item) then local[LookupOf(item) := DataOf(item)] else local
  }

  lemma IndexMore(index: map<Lookup, string>, items: seq<Item>, item: Item)
    requires IndexIs(index, items)
    ensures IndexIs(IndexWith(index, item), items + [item])
  {
    hide LastMatch, Merged, Listed;
    forall k ensures Get(IndexWith(index, item), k) == KeyOfLast(items + [item], k) {
      MatchesMore(items, item, k);
      assert Get(index, k) == KeyOfLast(items, k);
    }
  }

  lemma HashesMore(hashes: map<string, Data>, items: seq<Item>, item: Item)
    requires HashesAre(hashes, items)
    ensures HashesAre(HashesWith(hashes, item), items + [item])
  {
    hide LastMatch, Merged, Cacheable, DataOf;
    var after := HashesWith(hashes, item);
    forall key ensures (if key in after then after[key] else map[]) == Merged(items + [item], key) {
      MergedMore(items, item, key);
    }
  }

  lemma LoadedMore(before: map<Lookup, Data>, local: map<Lookup, Data>, items: seq<Item>, item: Item)
    requires LoadedOver(before, local, items)
    ensures LoadedOver(before, LocalWith(local, item), items + [item])
  {
    hide LastMatch, Merged, Listed, DataOf;
    var more, after := items + [item], LocalWith(local, item);
    forall k ensures Get(after, k) == if FromLocal(more, k).Some? then FromLocal(more, k) else Get(before, k) {
      MatchesMore(items, item, k);
      assert Get(local, k) == if FromLocal(items, k).Some? then FromLocal(items, k) else Get(before, k);
    }
  }

  lemma LocalMore(local: map<Lookup, Data>, items: seq<Item>, item: Item)
    requires LocalAgrees(local, items)
    ensures LocalAgrees(LocalWith(local, item), items + [item])
  {
    hide LastMatch, Merged, Listed, DataOf, FromRedis;
    var more, after := items + [item], LocalWith(local, item);
    assert more[..|more|] == more;
    forall k | k in after ensures exists n :: 0 <= n <= |more| && CameFrom(more, k, after[k], n) {
      MatchesMore(items, item, k);
      if Cacheable(item) && k == LookupOf(item) {
        assert CameFrom(more, k, after[k], |more|);
      } else {
        var n :| 0 <= n <= |items| && CameFrom(items, k, local[k], n);
        assert more[..n] == items[..n];
        assert CameFrom(more, k, after[k], n);
      }
    }
  }

  lemma WrittenBack(local: map<Lookup, Data>, items: seq<Item>, k: Lookup, value: Data)
    requires LocalAgrees(local, items) && Some(value) == FromRedis(items, k)
    ensures LocalAgrees(local[k := value], items)
  {
    hide LastMatch, FromRedis, FromLocal;
    assert items[..|items|] == items;
    assert CameFrom(items, k, value, |items|);
  }

  /** Where items of one key agree, an entry of the first layer is what the scan finds. */
  lemma CameFromScan(local: map<Lookup, Data>, items: seq<Item>, k: Lookup)
    requires LocalAgrees(local, items) && KeysAgree(items) && k in local
    ensures Some(local[k]) == FromLocal(items, k)
  {
    var n :| 0 <= n <= |items| && CameFrom(items, k, local[k], n);
    assert KeysAgree(items[..n]) by { hide Cacheable, DataOf; }
    hide LastMatch, FromRedis, KeysAgree;
    LayersAgree(items[..n], k);
  }

  /** Redis answers with the merged hash of the last match, and that is never empty. */
  lemma RedisAnswers(index: map<Lookup, string>, hashes: map<string, Data>, items: seq<Item>, k: Lookup)
    requires IndexIs(index, items) && HashesAre(hashes, items)
    ensures FromRedis(items, k) == if k in index then Get(hashes, index[k]) else None
    ensures k in index ==> index[k] in hashes && hashes[index[k]] != map[]
  {
    assert Get(index, k) == KeyOfLast(items, k);
    if k in index {
      var last := LastMatch(items, k, true).value;
      var i :| 0 <= i < |items| && last == items[i] && Matches(items[i], k, true);
      MergedNotEmpty(items, i);
      hide LastMatch, Merged;
      assert Merged(items, last.key) == if last.key in hashes then hashes[last.key] else map[];
    }
  }

  lemma NothingLoaded(local: map<Lookup, Data>)
    ensures LoadedOver(local, local, [])
  {
  }

  class InstrumentCache {
    var local: map<Lookup, Data>
    // Redis.
    var redisIndex: map<Lookup, string>
    var redisData: map<string, Data>
    ghost var items: seq<Item>

    ghost predicate Valid()
      reads this
    {
      IndexIs(redisIndex, items) && HashesAre(redisData, items) && LocalAgrees(local, items)
    }

    constructor ()
      ensures Valid() && items == [] && local == map[]
    {
      local, redisIndex, redisData, items := map[], map[], map[], [];
    }

    /** `items` lists everything loaded so far, by this process or by earlier ones into the same Redis. */
    method Load(list: seq<Item>) returns (loaded: nat)
      requires Valid()
      modifies this
      ensures Valid() && items == old(items) + list
      ensures LoadedOver(old(local), local, list)
    {
      hide IndexIs, HashesAre, LoadedOver, LocalAgrees, LastMatch, Merged;
      NothingLoaded(local);
      loaded := 0;
      for n := 0 to |list|
        invariant items == old(items) + list[..n]
        invariant Valid() && LoadedOver(old(local), local, list[..n])
      {
        var item := list[n];
        IndexMore(redisIndex, items, item);
        HashesMore(redisData, items, item);
        LocalMore(local, items, item);
        LoadedMore(old(local), local, list[..n], item);
        if Cacheable(item) {
          var k, data := LookupOf(item), DataOf(item);
          local := local[k := data];
          redisIndex := redisIndex[k := item.key];
          redisData := redisData[item.key := (if item.key in redisData then redisData[item.key] else map[]) + data];
          loaded := loaded + 1;
        }
        assert list[..n + 1] == list[..n] + [item];
        items := items + [item];
      }
      assert list[..|list|] == list;
    }

    method ClearL1()
      requires Valid()
      modifies this`local
      ensures Valid() && local == map[]
    {
      local := map[];
    }

    /** First layer, then Redis, whose answer is written back to the first layer. */
    method Resolve(k: Lookup) returns (r: Option<Data>)
      requires Valid()
      modifies this`local
      ensures Valid()
      ensures r == if k in old(local) then Some(old(local)[k]) else FromRedis(items, k)
      ensures local == if r.Some? then old(local)[k := r.value] else old(local)
      ensures KeysAgree(items) ==> r == FromLocal(items, k)
    {
      hide IndexIs, HashesAre, LocalAgrees, LastMatch, Merged, KeysAgree, FromLocal, FromRedis;
      if KeysAgree(items) {
        LayersAgree(items, k);
        if k in local { CameFromScan(local, items, k); }
      }
      RedisAnswers(redisIndex, redisData, items, k);
      if k in local {
        assert local == local[k := local[k]];
        return Some(local[k]);
      }
      if k in redisIndex {
        var data := if redisIndex[k] in redisData then redisData[redisIndex[k]] else map[];
        if data != map[] {
          WrittenBack(local, items, k, data);
          local := local[k := data];
          return Some(data);
        }
      }
      return None;
    }
  }

  /**
   Clearing the first layer goes unnoticed for a key exactly when nothing in the loaded list disturbs the
   key's last match in its instrument's hash.
   */
  lemma ClearUnobservableIff(items: seq<Item>, k: Lookup)
    ensures FromRedis(items, k) == FromLocal(items, k) <==>
      (LastMatch(items, k, true).Some? ==> Undisturbed(items, LastMatch(items, k, true).value))
  {
    var last := LastMatch(items, k, true);
    if last.Some? {
      var i :| 0 <= i < |items| && last.value == items[i] && Matches(items[i], k, true);
      hide Merged, Undisturbed, LastMatch;
      MergedIsOwnIff(items, i);
    }
  }

  lemma SharedMatch(a: Item, b: Item)
    requires Cacheable(a) && Cacheable(b) && LookupOf(a) != LookupOf(b)
    ensures LastMatch([a, b], LookupOf(a), true) == Some(a)
  {
    var k := LookupOf(a);
    hide LastMatch, Matches, LookupOf, Listed, Cacheable;
    assert [] + [a] == [a] && [a] + [b] == [a, b];
    MatchesMore([], a, k);
    MatchesMore([a], b, k);
  }

  lemma SharedHash(a: Item, b: Item)
    requires Cacheable(a) && Cacheable(b) && a.key == b.key
    ensures Merged([a, b], a.key) == DataOf(a) + DataOf(b)
  {
    hide Merged, Cacheable, DataOf;
    assert [] + [a] == [a] && [a] + [b] == [a, b];
    MergedMore([], a, a.key);
    MergedMore([a], b, a.key);
    MergedAbsent([], a.key);
    assert map[] + DataOf(a) == DataOf(a);
  }

  lemma SharedAnswers(a: Item, b: Item)
    requires Cacheable(a) && Cacheable(b) && a.key == b.key && LookupOf(a) != LookupOf(b)
    ensures FromLocal([a, b], LookupOf(a)) == Some(DataOf(a))
    ensures FromRedis([a, b], LookupOf(a)) == Some(DataOf(a) + DataOf(b))
  {
    hide LastMatch, Merged, DataOf, LookupOf;
    SharedMatch(a, b);
    SharedHash(a, b);
  }

  lemma OverlayIff(a: Data, b: Data)
    ensures a + b != a <==> exists f :: f in b && (f in a ==> a[f] != b[f])
  {
    if f :| f in b && (f in a ==> a[f] != b[f]) {
      assert (a + b)[f] == b[f];
    } else {
      assert a + b == a;
    }
  }

  /**
   Two options of one instrument key: once the layer is cleared, the lookup of the first answers differently
   if and only if the second has a field that the first lacks or holds differently.
   */
  lemma SharedKeyIsObservable(a: Item, b: Item)
    requires Cacheable(a) && Cacheable(b) && a.key == b.key && LookupOf(a) != LookupOf(b)
    ensures FromRedis([a, b], LookupOf(a)) != FromLocal([a, b], LookupOf(a)) <==>
      exists f :: f in DataOf(b) && (f in DataOf(a) ==> DataOf(a)[f] != DataOf(b)[f])
  {
    hide DataOf, FromRedis, FromLocal, LookupOf, Cacheable;
    SharedAnswers(a, b);
    OverlayIff(DataOf(a), DataOf(b));
  }
}
