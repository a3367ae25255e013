/** The bounded reply buffer: an ordered dictionary with a running size, against a list of items, oldest first. */
module Buffers {
  import opened Values

  newtype Byte = x: int | 0 <= x < 256

  type Bytes = seq<Byte>

  /** Time is a real number of seconds. */
  datatype Item = Item(id: string, data: Bytes, timestamp: real)

  // ----- The list a buffer stands for -----

  function Total(items: seq<Item>): nat {
    if items == [] then 0 else |items[0].data| + Total(items[1..])
  }

  function IdsOf(items: seq<Item>): seq<string> {
    seq(|items|, i requires 0 <= i < |items| => items[i].id)
  }

  ghost predicate DistinctIds(items: seq<Item>) {
    forall i, j :: 0 <= i < j < |items| ==> items[i].id != items[j].id
  }

  ghost predicate Absent(items: seq<Item>, id: string) {
    forall i :: 0 <= i < |items| ==> items[i].id != id
  }

  function Without(items: seq<Item>, id: string): seq<Item> {
    if items == [] then []
    else if items[0].id == id then items[1..]
    else [items[0]] + Without(items[1..], id)
  }

  /** How many of the oldest items have to go so that the others fit into `room`. */
  function Evictions(items: seq<Item>, room: nat): (k: nat)
    ensures k <= |items|
  {
    if Total(items) <= room || items == [] then 0 else 1 + Evictions(items[1..], room)
  }

  function Evicted(items: seq<Item>, id: string, data: Bytes, max: nat): seq<Item> {
    if |data| > max then []
    else
      var rest := Without(items, id);
      rest[..Evictions(rest, max - |data|)]
  }

  function Added(items: seq<Item>, id: string, data: Bytes, now: real, max: nat): seq<Item> {
    if |data| > max then items
    else
      var rest := Without(items, id);
      rest[Evictions(rest, max - |data|)..] + [Item(id, data, now)]
  }

  function Find(items: seq<Item>, id: string): Option<Bytes> {
    if items == [] then None else if items[0].id == id then Some(items[0].data) else Find(items[1..], id)
  }

  /** The items that were added at or before `cutoff`, in order. */
  function OlderThan(items: seq<Item>, cutoff: real): seq<(string, Bytes)> {
    if items == [] then []
    else
      var last := items[|items| - 1];
      OlderThan(items[..|items| - 1], cutoff) + (if last.timestamp <= cutoff then [(last.id, last.data)] else [])
  }

  /** The places that `at` lists, in order, are of items added at or before `cutoff`. */
  ghost predicate OnlyOld(items: seq<Item>, cutoff: real, at: seq<nat>) {
    && (forall i :: 0 <= i < |at| ==> at[i] < |items| && items[at[i]].timestamp <= cutoff)
    && (forall i, j :: 0 <= i < j < |at| ==> at[i] < at[j])
  }

  /** No such item is missing. */
  ghost predicate AllOld(items: seq<Item>, cutoff: real, at: seq<nat>) {
    forall k :: 0 <= k < |items| && items[k].timestamp <= cutoff ==> k in at
  }

  ghost predicate OldPlaces(items: seq<Item>, cutoff: real, at: seq<nat>) {
    OnlyOld(items, cutoff, at) && AllOld(items, cutoff, at)
  }

  /** The result lists ID and data of the items at these places. */
  ghost predicate Shows(items: seq<Item>, at: seq<nat>, rs: seq<(string, Bytes)>) {
    && |rs| == |at|
    && forall i :: 0 <= i < |at| ==> at[i] < |items| && rs[i] == (items[at[i]].id, items[at[i]].data)
  }

  /** The result lists exactly the old items, each once and in the order of the buffer. */
  ghost predicate ListsOld(items: seq<Item>, cutoff: real, rs: seq<(string, Bytes)>) {
    exists at: seq<nat> :: OldPlaces(items, cutoff, at) && Shows(items, at, rs)
  }

  /** Some item with this ID and this data was added at or before `cutoff`. */
  ghost predicate IsOld(items: seq<Item>, cutoff: real, id: string, data: Bytes) {
    exists k :: 0 <= k < |items| && items[k].id == id && items[k].data == data && items[k].timestamp <= cutoff
  }

  lemma {:induction false} OlderThanPlaces(items: seq<Item>, cutoff: real) returns (at: seq<nat>)
    ensures OldPlaces(items, cutoff, at) && Shows(items, at, OlderThan(items, cutoff))
  {
    hide OldPlaces, Shows;
    if items == [] {
      at := [];
      NoPlaces(cutoff);
    } else {
      var front, last := items[..|items| - 1], items[|items| - 1];
      at := OlderThanPlaces(front, cutoff);
      OldPlacesSnoc(front, last, cutoff, at);
      ShowsSnoc(front, last, at, OlderThan(front, cutoff));
      assert items == front + [last];
      if last.timestamp <= cutoff {
        at := at + [|front|];
      } else {
        assert OlderThan(front, cutoff) + [] == OlderThan(front, cutoff);
      }
    }
  }

  lemma NoPlaces(cutoff: real)
    ensures OldPlaces([], cutoff, []) && Shows([], [], [])
  {
  }

  lemma OldPlacesSnoc(front: seq<Item>, last: Item, cutoff: real, at: seq<nat>)
    requires OldPlaces(front, cutoff, at)
    ensures OldPlaces(front + [last], cutoff, if last.timestamp <= cutoff then at + [|front|] else at)
  {
    OnlyOldSnoc(front, last, cutoff, at);
    AllOldSnoc(front, last, cutoff, at);
    hide OnlyOld, AllOld;
  }

  lemma OnlyOldSnoc(front: seq<Item>, last: Item, cutoff: real, at: seq<nat>)
    requires OnlyOld(front, cutoff, at)
    ensures OnlyOld(front + [last], cutoff, if last.timestamp <= cutoff then at + [|front|] else at)
  {
  }

  lemma AllOldSnoc(front: seq<Item>, last: Item, cutoff: real, at: seq<nat>)
    requires AllOld(front, cutoff, at)
    ensures AllOld(front + [last], cutoff, if last.timestamp <= cutoff then at + [|front|] else at)
  {
    var items := front + [last];
    assert (at + [|front|])[|at|] == |front|;
    forall k | 0 <= k < |items| && items[k].timestamp <= cutoff
      ensures k in if last.timestamp <= cutoff then at + [|front|] else at
    {
      if k < |front| {
        assert front[k] == items[k];
        assert k in at;
      }
    }
  }

  lemma ShowsSnoc(front: seq<Item>, last: Item, at: seq<nat>, rs: seq<(string, Bytes)>)
    requires Shows(front, at, rs)
    ensures Shows(front + [last], at, rs) && Shows(front + [last], at + [|front|], rs + [(last.id, last.data)])
  {
  }

  lemma OlderThanLists(items: seq<Item>, cutoff: real)
    ensures ListsOld(items, cutoff, OlderThan(items, cutoff))
    ensures forall id, data :: (id, data) in OlderThan(items, cutoff) <==> IsOld(items, cutoff, id, data)
  {
    var at := OlderThanPlaces(items, cutoff);
    hide OldPlaces, Shows, IsOld, OnlyOld, AllOld;
    forall id, data ensures (id, data) in OlderThan(items, cutoff) <==> IsOld(items, cutoff, id, data) {
      ListedIff(items, cutoff, at, OlderThan(items, cutoff), id, data);
    }
  }

  /** A pair is listed if and only if an old item has this ID and this data. */
  lemma ListedIff(items: seq<Item>, cutoff: real, at: seq<nat>, rs: seq<(string, Bytes)>, id: string, data: Bytes)
    requires OldPlaces(items, cutoff, at) && Shows(items, at, rs)
    ensures (id, data) in rs <==> IsOld(items, cutoff, id, data)
  {
    if (id, data) in rs {
      var i :| 0 <= i < |rs| && rs[i] == (id, data);
      assert items[at[i]].id == id;
    }
    if IsOld(items, cutoff, id, data) {
      var k :| 0 <= k < |items| && items[k].id == id && items[k].data == data && items[k].timestamp <= cutoff;
      var i :| 0 <= i < |at| && at[i] == k;
      assert rs[i] == (id, data);
    }
  }

  // ----- Facts about that list -----

  lemma {:induction false} TotalConcat(a: seq<Item>, b: seq<Item>)
    ensures Total(a + b) == Total(a) + Total(b)
  {
    if a == [] {
      assert a + b == b;
    } else {
      assert (a + b)[1..] == a[1..] + b;
      TotalConcat(a[1..], b);
    }
  }

  /** `Without` drops the item with this ID and keeps the others in order. */
  lemma {:induction false} WithoutSplits(items: seq<Item>, id: string, k: nat)
    requires k < |items| && items[k].id == id && forall i :: 0 <= i < k ==> items[i].id != id
    ensures Without(items, id) == items[..k] + items[k + 1..]
  {
    if k > 0 {
      WithoutSplits(items[1..], id, k - 1);
      assert items[1..][..k - 1] == items[1..k];
      assert items[1..][k..] == items[k + 1..];
      assert [items[0]] + items[1..k] == items[..k];
    }
  }

  lemma {:induction false} WithoutAbsent(items: seq<Item>, id: string)
    requires Absent(items, id)
    ensures Without(items, id) == items
  {
    if items != [] { WithoutAbsent(items[1..], id); }
  }

  lemma WhereIs(items: seq<Item>, id: string) returns (k: nat)
    requires DistinctIds(items) && !Absent(items, id)
    ensures k < |items| && items[k].id == id
    ensures Without(items, id) == items[..k] + items[k + 1..]
  {
    k :| 0 <= k < |items| && items[k].id == id;
    WithoutSplits(items, id, k);
  }

  lemma TotalAround(items: seq<Item>, k: nat)
    requires k < |items|
    ensures Total(items) == Total(items[..k] + items[k + 1..]) + |items[k].data|
  {
    var a, b := items[..k], items[k + 1..];
    assert items == a + [items[k]] + b;
    TotalConcat(a, b);
    TotalConcat(a + [items[k]], b);
    TotalConcat(a, [items[k]]);
  }

  lemma WithoutFacts(items: seq<Item>, id: string)
    requires DistinctIds(items)
    ensures DistinctIds(Without(items, id)) && Absent(Without(items, id), id)
  {
    if Absent(items, id) {
      WithoutAbsent(items, id);
    } else {
      var k := WhereIs(items, id);
    }
  }

  /** The `k` oldest items are the shortest oldest part whose removal makes the others fit into `room`. */
  ghost predicate ShortestPart(items: seq<Item>, k: nat, room: nat) {
    k <= |items| && Total(items[k..]) <= room && forall j :: 0 <= j < k ==> Total(items[j..]) > room
  }

  lemma {:induction false} EvictionsLeast(items: seq<Item>, room: nat)
    ensures ShortestPart(items, Evictions(items, room), room)
  {
    if Total(items) > room && items != [] {
      EvictionsLeast(items[1..], room);
      var k := Evictions(items[1..], room);
      assert items[1..][k..] == items[k + 1..];
      forall j | 0 <= j < k + 1 ensures Total(items[j..]) > room {
        if j > 0 { assert items[j..] == items[1..][j - 1..]; } else { assert items[0..] == items; }
      }
    } else {
      assert items[0..] == items;
    }
  }

  lemma EvictionsFit(items: seq<Item>, room: nat)
    ensures Total(items[Evictions(items, room)..]) <= room
  {
    EvictionsLeast(items, room);
  }

  /**
   * What an accepted add does to a well-formed list within its limit: the new item is the newest, the items
   * before it are the others without an oldest part, in order; that part is the shortest one that makes
   * room; and the limit holds again.
   */
  lemma {:induction false} AddRefines(items: seq<Item>, id: string, data: Bytes, now: real, max: nat)
    requires DistinctIds(items) && |data| <= max
    ensures var after, gone := Added(items, id, data, now, max), Evicted(items, id, data, max);
            && DistinctIds(after) && Total(after) <= max
            && after != [] && after[|after| - 1] == Item(id, data, now)
            && gone + after[..|after| - 1] == Without(items, id)
            && ShortestPart(Without(items, id), |gone|, max - |data|)
  {
    hide Added, Evicted, Without, Total, DistinctIds, ShortestPart;
    AddKeepsLimit(items, id, data, now, max);
    AddSplits(items, id, data, now, max);
    AddEvictsLeast(items, id, data, max);
  }

  lemma AddKeepsLimit(items: seq<Item>, id: string, data: Bytes, now: real, max: nat)
    requires DistinctIds(items) && |data| <= max
    ensures var after := Added(items, id, data, now, max); DistinctIds(after) && Total(after) <= max
  {
    hide Without, Evictions, Total, DistinctIds, Absent;
    var rest, room := Without(items, id), max - |data|;
    var k := Evictions(rest, room);
    WithoutFacts(items, id);
    EvictionsFit(rest, room);
    AppendedDistinct(rest, k, Item(id, data, now));
    AppendedFits(rest[k..], Item(id, data, now), max);
  }

  lemma AddSplits(items: seq<Item>, id: string, data: Bytes, now: real, max: nat)
    requires |data| <= max
    ensures var after := Added(items, id, data, now, max);
            && after != [] && after[|after| - 1] == Item(id, data, now)
            && Evicted(items, id, data, max) + after[..|after| - 1] == Without(items, id)
  {
    var rest := Without(items, id);
    SplitAppend(rest, Evictions(rest, max - |data|), Item(id, data, now));
  }

  lemma AddEvictsLeast(items: seq<Item>, id: string, data: Bytes, max: nat)
    requires |data| <= max
    ensures ShortestPart(Without(items, id), |Evicted(items, id, data, max)|, max - |data|)
  {
    hide Without, Evictions, Total, ShortestPart;
    EvictionsLeast(Without(items, id), max - |data|);
  }

  lemma SplitAppend<T>(s: seq<T>, k: nat, x: T)
    requires k <= |s|
    ensures var t := s[k..] + [x]; t != [] && t[|t| - 1] == x && s[..k] + t[..|t| - 1] == s && |s[..k]| == k
  {
    var t := s[k..] + [x];
    assert t[..|t| - 1] == s[k..];
  }

  lemma AppendedFits(items: seq<Item>, item: Item, max: nat)
    requires Total(items) + |item.data| <= max
    ensures Total(items + [item]) <= max
  {
    TotalConcat(items, [item]);
  }

  lemma AppendedDistinct(items: seq<Item>, k: nat, item: Item)
    requires k <= |items| && DistinctIds(items) && Absent(items, item.id)
    ensures DistinctIds(items[k..] + [item])
  {
    assert forall i :: 0 <= i < |items| - k ==> items[k..][i] == items[k + i];
  }

  /** Adding an item again with data that is no longer just moves it to the newest place; nothing is evicted. */
  lemma {:induction false} ReAddMoves(items: seq<Item>, id: string, data: Bytes, now: real, max: nat, k: nat)
    requires DistinctIds(items) && Total(items) <= max
    requires k < |items| && items[k].id == id && |data| <= |items[k].data|
    ensures Evicted(items, id, data, max) == []
    ensures Added(items, id, data, now, max) == items[..k] + items[k + 1..] + [Item(id, data, now)]
  {
    WithoutSplits(items, id, k);
    TotalAround(items, k);
  }

  // ----- An ordered dictionary as a list -----

  /** The keys are those of the entries, each once, and each entry carries its own key. */
  ghost predicate Keyed(order: seq<string>, entries: map<string, Item>) {
    && NoDuplicates(order)
    && (forall id :: id in order <==> id in entries)
    && (forall id :: id in entries ==> entries[id].id == id)
  }

  function ListOf(order: seq<string>, entries: map<string, Item>): (items: seq<Item>)
    requires forall id :: id in order ==> id in entries
  {
    seq(|order|, i requires 0 <= i < |order| => entries[order[i]])
  }

  lemma EntryPresent(order: seq<string>, entries: map<string, Item>, id: string)
    requires Keyed(order, entries)
    ensures id in entries <==> !Absent(ListOf(order, entries), id)
    ensures DistinctIds(ListOf(order, entries))
  {
    if id in entries {
      var k :| 0 <= k < |order| && order[k] == id;
      assert ListOf(order, entries)[k].id == id;
    }
  }

  lemma KeyedWithout(order: seq<string>, entries: map<string, Item>, k: nat)
    requires Keyed(order, entries) && k < |order|
    ensures Keyed(order[..k] + order[k + 1..], entries - {order[k]})
  {
    var id, order1, entries1 := order[k], order[..k] + order[k + 1..], entries - {order[k]};
    forall x ensures x in order1 <==> x in entries1 {
      if x in entries1 {
        var i :| 0 <= i < |order| && order[i] == x;
        assert x == if i < k then order1[i] else order1[i - 1];
      }
    }
  }

  lemma ListedAt(order: seq<string>, entries: map<string, Item>, k: nat)
    requires Keyed(order, entries) && k < |order|
    ensures var items := ListOf(order, entries);
            && |items| == |order| && items[k] == entries[order[k]] && items[k].id == order[k]
            && forall i :: 0 <= i < k ==> items[i].id != order[k]
  {
  }

  lemma ListWithout(order: seq<string>, entries: map<string, Item>, k: nat)
    requires Keyed(order, entries) && k < |order|
    requires Keyed(order[..k] + order[k + 1..], entries - {order[k]})
    ensures var items := ListOf(order, entries);
            |items| == |order| && ListOf(order[..k] + order[k + 1..], entries - {order[k]}) == items[..k] + items[k + 1..]
  {
    var items, order1 := ListOf(order, entries), order[..k] + order[k + 1..];
    var items1 := ListOf(order1, entries - {order[k]});
    forall i | 0 <= i < |order1| ensures items1[i] == (items[..k] + items[k + 1..])[i] {
      assert order1[i] == if i < k then order[i] else order[i + 1];
    }
  }

  lemma RemoveAt(order: seq<string>, entries: map<string, Item>, k: nat)
    requires Keyed(order, entries) && k < |order|
    ensures var id, order1, entries1 := order[k], order[..k] + order[k + 1..], entries - {order[k]};
            && Keyed(order1, entries1)
            && ListOf(order1, entries1) == Without(ListOf(order, entries), id)
            && Total(ListOf(order1, entries1)) == Total(ListOf(order, entries)) - |entries[id].data|
  {
    KeyedWithout(order, entries, k);
    hide Total, Without, NoDuplicates;
    var items := ListOf(order, entries);
    ListedAt(order, entries, k);
    ListWithout(order, entries, k);
    hide ListOf;
    WithoutSplits(items, order[k], k);
    TotalAround(items, k);
  }

  lemma RemoveFirst(order: seq<string>, entries: map<string, Item>)
    requires Keyed(order, entries) && order != []
    ensures var oldest, order1, entries1 := entries[order[0]], order[1..], entries - {order[0]};
            && Keyed(order1, entries1)
            && ListOf(order, entries) == [oldest] + ListOf(order1, entries1)
            && Total(ListOf(order1, entries1)) == Total(ListOf(order, entries)) - |oldest.data|
  {
    KeyedTail(order, entries);
    hide Total, NoDuplicates;
    var oldest, rest := entries[order[0]], ListOf(order[1..], entries - {order[0]});
    assert ListOf(order, entries) == [oldest] + rest;
    TotalFirst(oldest, rest);
  }

  lemma KeyedTail(order: seq<string>, entries: map<string, Item>)
    requires Keyed(order, entries) && order != []
    ensures Keyed(order[1..], entries - {order[0]})
  {
    KeyedWithout(order, entries, 0);
    assert order[..0] + order[1..] == order[1..];
  }

  lemma TotalFirst(oldest: Item, rest: seq<Item>)
    ensures Total([oldest] + rest) == |oldest.data| + Total(rest)
  {
    assert ([oldest] + rest)[1..] == rest;
  }

  lemma AppendNew(order: seq<string>, entries: map<string, Item>, item: Item)
    requires Keyed(order, entries) && item.id !in entries
    ensures var order1, entries1 := order + [item.id], entries[item.id := item];
            && Keyed(order1, entries1)
            && ListOf(order1, entries1) == ListOf(order, entries) + [item]
            && Total(ListOf(order1, entries1)) == Total(ListOf(order, entries)) + |item.data|
  {
    var order1, entries1 := order + [item.id], entries[item.id := item];
    assert forall i :: 0 <= i < |order| ==> order[i] in entries;
    assert ListOf(order1, entries1) == ListOf(order, entries) + [item];
    TotalConcat(ListOf(order, entries), [item]);
  }

  lemma EntryAt(order: seq<string>, entries: map<string, Item>, id: string)
    requires Keyed(order, entries) && id in entries
    ensures exists k :: 0 <= k < |ListOf(order, entries)| && ListOf(order, entries)[k].id == id && ListOf(order, entries)[k] == entries[id]
  {
    var k :| 0 <= k < |order| && order[k] == id;
    assert ListOf(order, entries)[k] == entries[id];
  }

  lemma FindEntry(order: seq<string>, entries: map<string, Item>, id: string)
    requires Keyed(order, entries)
    ensures Find(ListOf(order, entries), id) == if id in entries then Some(entries[id].data) else None
  {
    if id in entries {
      var k :| 0 <= k < |order| && order[k] == id;
      FindAt(ListOf(order, entries), id, k);
    } else {
      FindNone(ListOf(order, entries), id);
    }
  }

  lemma {:induction false} FindAt(items: seq<Item>, id: string, k: nat)
    requires k < |items| && items[k].id == id && forall i :: 0 <= i < k ==> items[i].id != id
    ensures Find(items, id) == Some(items[k].data)
  {
    if k > 0 { FindAt(items[1..], id, k - 1); }
  }

  lemma {:induction false} FindNone(items: seq<Item>, id: string)
    requires forall i :: 0 <= i < |items| ==> items[i].id != id
    ensures Find(items, id) == None
  {
    if items != [] { FindNone(items[1..], id); }
  }

  // ----- The implementation -----

  class SizeConstrainedBuffer {
    /** An `OrderedDict`: its entries, and its keys from oldest to newest. */
    var entries: map<string, Item>
    var order: seq<string>
    var currentSize: int
    const maxSizeBytes: int

    ghost predicate Valid()
      reads this
    {
      && maxSizeBytes > 0
      && Keyed(order, entries)
      && currentSize == Total(Items())
      && currentSize <= maxSizeBytes
    }

    ghost function Items(): seq<Item>
      requires Keyed(order, entries)
      reads this
    {
      ListOf(order, entries)
    }

    /** The `ValueError` for a limit that is not positive is the null result. */
    static method Create(maxSizeBytes: int) returns (buffer: SizeConstrainedBuffer?)
      ensures buffer == null <==> maxSizeBytes <= 0
      ensures buffer != null ==>
                fresh(buffer) && buffer.Valid() && buffer.Items() == [] && buffer.maxSizeBytes == maxSizeBytes
    {
      if maxSizeBytes <= 0 { return null; }
      buffer := new SizeConstrainedBuffer(maxSizeBytes);
    }

    constructor (maxSizeBytes: int)
      requires maxSizeBytes > 0
      ensures Valid() && Items() == [] && this.maxSizeBytes == maxSizeBytes
    {
      this.entries := map[];
      this.order := [];
      this.currentSize := 0;
      this.maxSizeBytes := maxSizeBytes;
    }

    /** Takes an entry out; the order of the others is kept. */
    method Remove(id: string)
      requires Valid() && id in entries
      modifies `entries, `order, `currentSize
      ensures Valid() && Items() == Without(old(Items()), id)
      ensures entries == old(entries) - {id}
    {
      var i := 0;
      while order[i] != id
        invariant 0 <= i < |order| && id in order[i..]
        decreases |order| - i
      {
        i := i + 1;
      }
      RemoveAt(order, entries, i);
      currentSize := currentSize - |entries[id].data|;
      order := order[..i] + order[i + 1..];
      entries := entries - {id};
    }

    /** `popitem(last=False)`. */
    method PopOldest() returns (oldest: Item)
      requires Valid() && entries.Keys != {}
      modifies `entries, `order, `currentSize
      ensures Valid() && old(Items()) == [oldest] + Items()
      ensures entries == old(entries) - {oldest.id} && oldest.id in old(entries)
    {
      NoItemsNoKeys(order, entries);
      RemoveFirst(order, entries);
      hide Total, ListOf;
      oldest := entries[order[0]];
      entries := entries - {order[0]};
      order := order[1..];
      currentSize := currentSize - |oldest.data|;
    }

    /** `evicted` is the sequence of `on_evict` calls; `on_reject` is called exactly when nothing is added. */
    method Add(id: string, data: Bytes, now: real) returns (accepted: bool, evicted: seq<string>)
      requires Valid()
      modifies `entries, `order, `currentSize
      ensures Valid() && accepted == (|data| <= maxSizeBytes)
      ensures Items() == Added(old(Items()), id, data, now, maxSizeBytes)
      ensures evicted == IdsOf(Evicted(old(Items()), id, data, maxSizeBytes))
      ensures !accepted ==> Items() == old(Items()) && evicted == []
    {
      hide Keyed, Total, ListOf, Without, Evictions, IdsOf, Added, Evicted, NoDuplicates, DistinctIds, Absent;
      ghost var before := Items();
      evicted := [];
      AddIs(before, id, data, now, maxSizeBytes);
      if |data| > maxSizeBytes {
        return false, [];
      }
      EntryPresent(order, entries, id);
      if id in entries {
        Remove(id);
      } else {
        WithoutAbsent(Items(), id);
      }
      evicted := MakeRoom(|data|);
      AppendNew(order, entries, Item(id, data, now));
      entries := entries[id := Item(id, data, now)];
      order := order + [id];
      currentSize := currentSize + |data|;
      accepted := true;
    }

    /** The eviction loop of `add`. */
    method MakeRoom(size: nat) returns (evicted: seq<string>)
      requires Valid() && size <= maxSizeBytes
      modifies `entries, `order, `currentSize
      ensures Valid() && currentSize + size <= maxSizeBytes && entries.Keys <= old(entries.Keys)
      ensures var k := Evictions(old(Items()), maxSizeBytes - size);
              Items() == old(Items())[k..] && evicted == IdsOf(old(Items())[..k])
    {
      hide Keyed, Total, ListOf, Evictions, IdsOf, NoDuplicates, DistinctIds;
      evicted := [];
      ghost var rest, room := Items(), maxSizeBytes - size;
      ghost var k := 0;
      assert rest[0..] == rest && IdsOf(rest[..0]) == [] by { NoIds(); assert rest[..0] == []; }
      while currentSize + size > maxSizeBytes && entries.Keys != {}
        invariant Valid() && entries.Keys <= old(entries.Keys)
        invariant k <= |rest| && Items() == rest[k..] && evicted == IdsOf(rest[..k])
        invariant Evictions(rest, room) == k + Evictions(rest[k..], room)
        decreases |entries.Keys|
      {
        ghost var before := entries.Keys;
        assert Total(rest[k..]) > room;
        var oldest := PopOldest();
        Shrinks(before, entries.Keys, oldest.id);
        EvictOne(rest, k, oldest, Items(), room);
        evicted := evicted + [oldest.id];
        k := k + 1;
      }
      NothingLeft(order, entries);
      NoMoreEvictions(rest[k..], room);
    }

    method Get(id: string) returns (data: Option<Bytes>)
      requires Valid()
      ensures data == Find(Items(), id)
      ensures data.None? <==> Absent(Items(), id)
      ensures data.Some? ==> exists k :: 0 <= k < |Items()| && Items()[k].id == id && Items()[k].data == data.value
    {
      FindEntry(order, entries, id);
      EntryPresent(order, entries, id);
      if id in entries { EntryAt(order, entries, id); }
      data := if id in entries then Some(entries[id].data) else None;
    }

    method Delete(id: string) returns (found: bool)
      requires Valid()
      modifies `entries, `order, `currentSize
      ensures Valid() && Items() == Without(old(Items()), id)
      ensures found == !Absent(old(Items()), id)
      ensures found ==> exists k :: 0 <= k < |old(Items())| && old(Items())[k].id == id
                                    && Items() == old(Items())[..k] + old(Items())[k + 1..]
      ensures !found ==> Items() == old(Items())
    {
      EntryPresent(order, entries, id);
      if id !in entries {
        WithoutAbsent(Items(), id);
        return false;
      }
      ghost var k := WhereIs(Items(), id);
      Remove(id);
      found := true;
    }

    method GetOlderThan(now: real, seconds: real) returns (result: seq<(string, Bytes)>)
      requires Valid()
      ensures result == OlderThan(Items(), now - seconds)
      ensures ListsOld(Items(), now - seconds, result)
      ensures forall id, data :: (id, data) in result <==> IsOld(Items(), now - seconds, id, data)
    {
      hide ListsOld, IsOld;
      var cutoff := now - seconds;
      result := [];
      var i := 0;
      while i < |order|
        invariant i <= |order| && result == OlderThan(Items()[..i], cutoff)
      {
        assert Items()[..i + 1][..i] == Items()[..i];
        var item := entries[order[i]];
        if item.timestamp <= cutoff {
          result := result + [(item.id, item.data)];
        }
        i := i + 1;
      }
      assert Items()[..i] == Items();
      OlderThanLists(Items(), cutoff);
    }
  }

  lemma NoIds()
    ensures IdsOf([]) == []
  {
  }

  lemma AddIs(items: seq<Item>, id: string, data: Bytes, now: real, max: nat)
    ensures |data| > max ==> Added(items, id, data, now, max) == items && IdsOf(Evicted(items, id, data, max)) == []
    ensures |data| <= max ==>
              var rest := Without(items, id);
              var k := Evictions(rest, max - |data|);
              && Added(items, id, data, now, max) == rest[k..] + [Item(id, data, now)]
              && Evicted(items, id, data, max) == rest[..k]
  {
    NoIds();
  }

  lemma EvictOne(items: seq<Item>, k: nat, oldest: Item, more: seq<Item>, room: nat)
    requires k <= |items| && items[k..] == [oldest] + more && Total(items[k..]) > room
    ensures k < |items| && items[k + 1..] == more
    ensures IdsOf(items[..k + 1]) == IdsOf(items[..k]) + [oldest.id]
    ensures Evictions(items[k..], room) == 1 + Evictions(items[k + 1..], room)
  {
    assert |items| - k == 1 + |more|;
    assert items[k..][0] == oldest && items[k..][1..] == more;
    assert items[k + 1..] == items[k..][1..];
  }

  lemma Shrinks(before: set<string>, after: set<string>, id: string)
    requires id in before && after == before - {id}
    ensures |after| < |before|
  {
  }

  lemma NoItemsNoKeys(order: seq<string>, entries: map<string, Item>)
    requires Keyed(order, entries)
    ensures order == [] <==> entries.Keys == {}
  {
    if order != [] {
      assert order[0] in entries.Keys;
    }
  }

  lemma NothingLeft(order: seq<string>, entries: map<string, Item>)
    requires Keyed(order, entries)
    ensures entries.Keys == {} ==> ListOf(order, entries) == [] && Total(ListOf(order, entries)) == 0
  {
    NoItemsNoKeys(order, entries);
  }

  lemma NoMoreEvictions(items: seq<Item>, room: nat)
    requires Total(items) <= room || items == []
    ensures Evictions(items, room) == 0
  {
  }
}
