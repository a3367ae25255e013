/**
 * The life of execution replies: the sender buffers them, acknowledgements delete them, and the flush poller
 * sends old ones over HTTP and deletes them. One event is the code between two awaits.
 */
module Replies {
  import opened Values
  import opened Buffers

  datatype Reply = Reply(id: string, data: Bytes)

  /** `Flushing(queue)` is the poller in its loop over a snapshot, with the flush of `queue[0]` under way. */
  datatype Poller = Sleeping | Flushing(queue: seq<Reply>) | Stopped

  /** The buffer and the poller, with what became of every reply that was accepted so far. */
  datatype State = State(
    items: seq<Item>,
    poller: Poller,
    accepted: multiset<Reply>,
    acked: multiset<Reply>,
    evicted: multiset<Reply>,
    replaced: multiset<Reply>,
    flushed: multiset<Reply>,
    attempts: seq<Reply>,
    seen: set<string>)

  const EMPTY := State([], Sleeping, multiset{}, multiset{}, multiset{}, multiset{}, multiset{}, [], {})

  /** `EndFlush` is the end of a flush, failed or not; with `stops` the poller was cancelled or the flush raised. */
  datatype Event =
    | Add(id: string, data: Bytes, now: real)
    | Ack(id: string)
    | Poll(now: real, ttl: real)
    | EndFlush(stops: bool)
    | StopPoller

  function Bag(items: seq<Item>): multiset<Reply> {
    if items == [] then multiset{} else multiset{Reply(items[0].id, items[0].data)} + Bag(items[1..])
  }

  /** What deleting `id` takes out. */
  function Taken(items: seq<Item>, id: string): multiset<Reply> {
    match Find(items, id)
    case None => multiset{}
    case Some(data) => multiset{Reply(id, data)}
  }

  function RepliesOf(pairs: seq<(string, Bytes)>): seq<Reply> {
    seq(|pairs|, i requires 0 <= i < |pairs| => Reply(pairs[i].0, pairs[i].1))
  }

  /** The poller goes on with the rest of its snapshot: the next flush starts at once. */
  function Begin(s: State, queue: seq<Reply>): State {
    if queue == [] then s.(poller := Sleeping)
    else s.(poller := Flushing(queue), attempts := s.attempts + [queue[0]])
  }

  /** `None` when the event cannot happen in this state. */
  function Step(max: nat, s: State, e: Event): Option<State> {
    match e
    case Add(id, data, now) =>
      var s1 := s.(seen := s.seen + {id});
      if |data| > max then Some(s1)
      else
        Some(s1.(items := Added(s.items, id, data, now, max),
                 accepted := s.accepted + multiset{Reply(id, data)},
                 replaced := s.replaced + Taken(s.items, id),
                 evicted := s.evicted + Bag(Evicted(s.items, id, data, max))))
    case Ack(id) =>
      Some(s.(items := Without(s.items, id), acked := s.acked + Taken(s.items, id)))
    case Poll(now, ttl) =>
      if !s.poller.Sleeping? then None else Some(Begin(s, RepliesOf(OlderThan(s.items, now - ttl))))
    case EndFlush(stops) =>
      if !s.poller.Flushing? || s.poller.queue == [] then None
      else
        var id := s.poller.queue[0].id;
        var s1 := s.(items := Without(s.items, id), flushed := s.flushed + Taken(s.items, id));
        Some(if stops then s1.(poller := Stopped) else Begin(s1, s.poller.queue[1..]))
    case StopPoller =>
      if !s.poller.Sleeping? then None else Some(s.(poller := Stopped))
  }

  /** The state after a run, if the run is possible. */
  function Run(max: nat, es: seq<Event>): Option<State> {
    if es == [] then Some(EMPTY)
    else
      var before := Run(max, es[..|es| - 1]);
      if before.None? then None else Step(max, before.value, es[|es| - 1])
  }

  // ----- Conservation, on every run -----

  lemma {:induction false} BagConcat(a: seq<Item>, b: seq<Item>)
    ensures Bag(a + b) == Bag(a) + Bag(b)
  {
    if a == [] {
      assert a + b == b;
    } else {
      assert (a + b)[1..] == a[1..] + b;
      BagConcat(a[1..], b);
    }
  }

  lemma {:induction false} BagWithout(items: seq<Item>, id: string)
    ensures Bag(items) == Bag(Without(items, id)) + Taken(items, id)
  {
    if items != [] && items[0].id != id {
      BagWithout(items[1..], id);
      assert ([items[0]] + Without(items[1..], id))[1..] == Without(items[1..], id);
    }
  }

  lemma BagSplit(items: seq<Item>, k: nat)
    requires k <= |items|
    ensures Bag(items) == Bag(items[..k]) + Bag(items[k..])
  {
    assert items == items[..k] + items[k..];
    BagConcat(items[..k], items[k..]);
  }

  lemma BagSnoc(items: seq<Item>, item: Item)
    ensures Bag(items + [item]) == Bag(items) + multiset{Reply(item.id, item.data)}
  {
    BagConcat(items, [item]);
    assert [item][1..] == [];
  }

  lemma BagAdded(items: seq<Item>, id: string, data: Bytes, now: real, max: nat)
    requires |data| <= max
    ensures Bag(Added(items, id, data, now, max)) + Bag(Evicted(items, id, data, max)) + Taken(items, id) ==
            Bag(items) + multiset{Reply(id, data)}
  {
    hide Evictions, Total, Taken, Without, Bag;
    var rest := Without(items, id);
    var k := Evictions(rest, max - |data|);
    BagWithout(items, id);
    BagSplit(rest, k);
    BagSnoc(rest[k..], Item(id, data, now));
    Regroup(Bag(rest[k..]), Bag(rest[..k]), Taken(items, id), multiset{Reply(id, data)});
  }

  lemma Regroup<T>(a: multiset<T>, b: multiset<T>, c: multiset<T>, x: multiset<T>)
    ensures (a + x) + b + c == ((b + a) + c) + x
  {
  }

  /** Every accepted reply is in exactly one place: buffered, acknowledged, evicted, replaced or flushed. */
  ghost predicate Conserved(max: nat, s: State) {
    && DistinctIds(s.items) && Total(s.items) <= max
    && Bag(s.items) + s.acked + s.evicted + s.replaced + s.flushed == s.accepted
  }

  lemma TotalWithout(items: seq<Item>, id: string)
    requires DistinctIds(items)
    ensures Total(Without(items, id)) <= Total(items)
  {
    if Absent(items, id) {
      WithoutAbsent(items, id);
    } else {
      var k := WhereIs(items, id);
      TotalAround(items, k);
    }
  }

  lemma Balance<T>(bag: multiset<T>, a: multiset<T>, e: multiset<T>, r: multiset<T>, f: multiset<T>, x: multiset<T>,
                   bag': multiset<T>, de: multiset<T>, dr: multiset<T>)
    requires bag' + de + dr == bag + x
    ensures bag' + a + (e + de) + (r + dr) + f == bag + a + e + r + f + x
  {
    assert bag' + a + (e + de) + (r + dr) + f == (bag' + de + dr) + (a + e + r + f);
  }

  lemma StepConserves(max: nat, s: State, e: Event)
    requires Conserved(max, s) && Step(max, s, e).Some?
    ensures Conserved(max, Step(max, s, e).value)
  {
    hide Bag, Total, DistinctIds, Added, Evicted, Without, Taken, OlderThan, RepliesOf;
    match e
    case Add(id, data, now) =>
      if |data| <= max {
        AddRefines(s.items, id, data, now, max);
        BagAdded(s.items, id, data, now, max);
        Balance(Bag(s.items), s.acked, s.evicted, s.replaced, s.flushed, multiset{Reply(id, data)},
                Bag(Added(s.items, id, data, now, max)), Bag(Evicted(s.items, id, data, max)), Taken(s.items, id));
      }
    case Ack(id) =>
      WithoutFacts(s.items, id);
      TotalWithout(s.items, id);
      BagWithout(s.items, id);
    case Poll(_, _) =>
    case EndFlush(_) =>
      var id := s.poller.queue[0].id;
      WithoutFacts(s.items, id);
      TotalWithout(s.items, id);
      BagWithout(s.items, id);
    case StopPoller =>
  }

  /** Conservation holds after every possible run, even when request IDs come back. */
  lemma {:induction false} RepliesConserved(max: nat, es: seq<Event>)
    requires Run(max, es).Some?
    ensures Conserved(max, Run(max, es).value)
  {
    if es != [] {
      RepliesConserved(max, es[..|es| - 1]);
      StepConserves(max, Run(max, es[..|es| - 1]).value, es[|es| - 1]);
    }
  }

  // ----- The poller removes only what it flushed -----

  /** No reply is added again while the poller works through a snapshot that holds its ID. */
  ghost predicate Gentle(s: State, e: Event) {
    e.Add? && s.poller.Flushing? ==> forall i :: 0 <= i < |s.poller.queue| ==> s.poller.queue[i].id != e.id
  }

  ghost predicate GentleRun(max: nat, es: seq<Event>) {
    forall k :: 0 <= k < |es| ==> Run(max, es[..k]).Some? && Gentle(Run(max, es[..k]).value, es[k])
  }

  /** A snapshot entry that is still buffered is still the same reply. */
  ghost predicate SnapshotFits(s: State) {
    s.poller.Flushing? ==>
      && s.poller.queue != [] && s.poller.queue[0] in s.attempts
      && DistinctReplies(s.poller.queue)
      && forall r :: r in s.poller.queue ==> Find(s.items, r.id) == None || Find(s.items, r.id) == Some(r.data)
  }

  ghost predicate DistinctReplies(rs: seq<Reply>) {
    forall i, j :: 0 <= i < j < |rs| ==> rs[i].id != rs[j].id
  }

  ghost predicate RemovedWereFlushed(s: State) {
    && SnapshotFits(s)
    && forall r :: r in s.flushed ==> r in s.attempts
  }

  lemma {:induction false} FindOther(items: seq<Item>, id: string, other: string)
    requires id != other
    ensures Find(Without(items, id), other) == Find(items, other)
  {
    if items != [] && items[0].id != id {
      FindOther(items[1..], id, other);
      assert ([items[0]] + Without(items[1..], id))[1..] == Without(items[1..], id);
    }
  }

  lemma {:induction false} FindConcat(a: seq<Item>, b: seq<Item>, id: string)
    ensures Find(a + b, id) == if Find(a, id).Some? then Find(a, id) else Find(b, id)
  {
    if a == [] {
      assert a + b == b;
    } else {
      assert (a + b)[1..] == a[1..] + b;
      FindConcat(a[1..], b, id);
    }
  }

  lemma {:induction false} FoundIn(items: seq<Item>, id: string)
    ensures Find(items, id).Some? ==> exists k :: 0 <= k < |items| && items[k].id == id && Find(items, id) == Some(items[k].data)
    ensures Find(items, id).None? ==> Absent(items, id)
  {
    if items != [] && items[0].id != id {
      FoundIn(items[1..], id);
      if Find(items[1..], id).Some? {
        var k :| 0 <= k < |items[1..]| && items[1..][k].id == id && Find(items[1..], id) == Some(items[1..][k].data);
        assert items[k + 1] == items[1..][k];
      }
    }
  }

  lemma NoTwice(a: seq<Item>, b: seq<Item>, id: string)
    requires DistinctIds(a + b) && Find(b, id).Some?
    ensures Find(a, id) == None
  {
    FoundIn(b, id);
    var j :| 0 <= j < |b| && b[j].id == id;
    forall i | 0 <= i < |a| ensures a[i].id != id {
      assert (a + b)[i] == a[i] && (a + b)[|a| + j] == b[j];
    }
    FindNone(a, id);
  }

  lemma FindPrefix(items: seq<Item>, k: nat, id: string)
    requires k <= |items| && DistinctIds(items)
    ensures Find(items[k..], id) == if Find(items[..k], id).Some? then None else Find(items, id)
  {
    assert items == items[..k] + items[k..];
    FindConcat(items[..k], items[k..], id);
    if Find(items[k..], id).Some? { NoTwice(items[..k], items[k..], id); }
  }

  /** The add of `id` takes `other` out of the buffer. */
  predicate Evicts(items: seq<Item>, id: string, data: Bytes, max: nat, other: string) {
    Find(Evicted(items, id, data, max), other).Some?
  }

  /** An add leaves another ID as it was unless it evicts it. */
  lemma FindOtherAfterAdd(items: seq<Item>, id: string, data: Bytes, now: real, max: nat, other: string)
    requires DistinctIds(items) && |data| <= max && other != id
    ensures Find(Added(items, id, data, now, max), other) ==
            if Evicts(items, id, data, max, other) then None else Find(items, other)
  {
    var rest := Without(items, id);
    var k := Evictions(rest, max - |data|);
    hide Evictions, Total;
    WithoutFacts(items, id);
    FindOther(items, id, other);
    FindPrefix(rest, k, other);
    FindConcat(rest[k..], [Item(id, data, now)], other);
    NotThatItem(Item(id, data, now), other);
  }

  lemma NotThatItem(item: Item, other: string)
    requires item.id != other
    ensures Find([item], other) == None
  {
    assert [item][1..] == [];
  }

  lemma FindRemoved(items: seq<Item>, id: string)
    requires DistinctIds(items)
    ensures Find(Without(items, id), id) == None
  {
    WithoutFacts(items, id);
    FoundIn(Without(items, id), id);
  }

  /** A snapshot lists buffered replies, each once. */
  lemma {:induction false} SnapshotIsBuffered(items: seq<Item>, cutoff: real)
    requires DistinctIds(items)
    ensures var rs := RepliesOf(OlderThan(items, cutoff));
            && DistinctReplies(rs)
            && forall r :: r in rs ==> Find(items, r.id) == Some(r.data)
  {
    if items != [] {
      var front, last := items[..|items| - 1], items[|items| - 1];
      assert items == front + [last];
      SnapshotIsBuffered(front, cutoff);
      var before, rs := RepliesOf(OlderThan(front, cutoff)), RepliesOf(OlderThan(items, cutoff));
      assert rs == before + (if last.timestamp <= cutoff then [Reply(last.id, last.data)] else []);
      forall r | r in before ensures Find(items, r.id) == Some(r.data) && r.id != last.id {
        FindConcat(front, [last], r.id);
        FoundIn(front, r.id);
      }
      FindLast(front, last);
    }
  }

  // ----- What a poll takes into its snapshot -----

  /** The replies that the poller works through. */
  function Snapshot(s: State): seq<Reply> {
    if s.poller.Flushing? then s.poller.queue else []
  }

  /** The add in a run that the buffer last accepted for this ID, with its data and its time. */
  function LastAdd(max: nat, es: seq<Event>, id: string): Option<(Bytes, real)> {
    if es == [] then None
    else
      match es[|es| - 1]
      case Add(other, data, now) =>
        if other == id && |data| <= max then Some((data, now)) else LastAdd(max, es[..|es| - 1], id)
      case _ => LastAdd(max, es[..|es| - 1], id)
  }

  /** Every buffered item is the one of the last accepted add of its ID, with the time of that add. */
  ghost predicate Dated(max: nat, es: seq<Event>, items: seq<Item>) {
    forall i :: 0 <= i < |items| ==> LastAdd(max, es, items[i].id) == Some((items[i].data, items[i].timestamp))
  }

  lemma WithoutIsPart(items: seq<Item>, id: string)
    requires DistinctIds(items)
    ensures forall i :: 0 <= i < |Without(items, id)| ==>
              Without(items, id)[i].id != id && exists k :: 0 <= k < |items| && items[k] == Without(items, id)[i]
  {
    WithoutFacts(items, id);
    if Absent(items, id) {
      WithoutAbsent(items, id);
    } else {
      var k := WhereIs(items, id);
      var rest := Without(items, id);
      forall i | 0 <= i < |rest| ensures exists k :: 0 <= k < |items| && items[k] == rest[i] {
        assert rest[i] == if i < k then items[i] else items[i + 1];
      }
    }
  }

  lemma DatedWithout(max: nat, es: seq<Event>, items: seq<Item>, id: string, e: Event)
    requires DistinctIds(items) && Dated(max, es, items) && !e.Add?
    ensures Dated(max, es + [e], Without(items, id)) && Dated(max, es + [e], items)
  {
    WithoutIsPart(items, id);
    assert (es + [e])[..|es|] == es;
  }

  lemma DatedAdded(max: nat, es: seq<Event>, items: seq<Item>, id: string, data: Bytes, now: real)
    requires DistinctIds(items) && Dated(max, es, items)
    ensures Dated(max, es + [Add(id, data, now)], Added(items, id, data, now, max))
  {
    var e := Add(id, data, now);
    assert (es + [e])[..|es|] == es;
    if |data| <= max {
      WithoutIsPart(items, id);
      AddRefines(items, id, data, now, max);
      var after, gone := Added(items, id, data, now, max), Evicted(items, id, data, max);
      hide Added, Evicted, Without, Total, DistinctIds;
      forall i | 0 <= i < |after|
        ensures LastAdd(max, es + [e], after[i].id) == Some((after[i].data, after[i].timestamp))
      {
        if i < |after| - 1 { assert Without(items, id)[|gone| + i] == after[i]; }
      }
    }
  }

  lemma DatedStep(max: nat, es: seq<Event>, s: State, e: Event)
    requires DistinctIds(s.items) && Dated(max, es, s.items) && Step(max, s, e).Some?
    ensures Dated(max, es + [e], Step(max, s, e).value.items)
  {
    hide Dated, Added, Without, DistinctIds, Bag, LastAdd, Evicted, Taken, OlderThan, RepliesOf;
    match e
    case Add(id, data, now) => DatedAdded(max, es, s.items, id, data, now); AddIs(s.items, id, data, now, max);
    case Ack(id) => DatedWithout(max, es, s.items, id, e);
    case Poll(_, _) => DatedWithout(max, es, s.items, "", e);
    case EndFlush(_) => DatedWithout(max, es, s.items, s.poller.queue[0].id, e);
    case StopPoller => DatedWithout(max, es, s.items, "", e);
  }

  lemma {:induction false} ItemsAreDated(max: nat, es: seq<Event>)
    requires Run(max, es).Some?
    ensures Dated(max, es, Run(max, es).value.items) && DistinctIds(Run(max, es).value.items)
  {
    RepliesConserved(max, es);
    if es != [] {
      var front, e := es[..|es| - 1], es[|es| - 1];
      assert es == front + [e];
      ItemsAreDated(max, front);
      var s := Run(max, front).value;
      hide Dated, DistinctIds, Bag, Step;
      DatedStep(max, front, s, e);
    }
  }

  lemma PollIs(max: nat, es: seq<Event>, now: real, ttl: real)
    requires Run(max, es + [Poll(now, ttl)]).Some?
    ensures Run(max, es).Some?
    ensures var before, s := Run(max, es).value, Run(max, es + [Poll(now, ttl)]).value;
            && s.items == before.items && Snapshot(s) == RepliesOf(OlderThan(before.items, now - ttl))
            && (s.poller.Sleeping? <==> Snapshot(s) == [])
  {
    RunSnoc(max, es, Poll(now, ttl));
    hide Run, Step;
    StepPolls(max, Run(max, es).value, now, ttl);
  }

  lemma StepPolls(max: nat, s: State, now: real, ttl: real)
    requires Step(max, s, Poll(now, ttl)).Some?
    ensures var s1 := Step(max, s, Poll(now, ttl)).value;
            && s1.items == s.items && Snapshot(s1) == RepliesOf(OlderThan(s.items, now - ttl))
            && (s1.poller.Sleeping? <==> Snapshot(s1) == [])
  {
    hide OlderThan, RepliesOf;
  }

  lemma InReplies(pairs: seq<(string, Bytes)>, r: Reply)
    ensures r in RepliesOf(pairs) <==> (r.id, r.data) in pairs
  {
    if (r.id, r.data) in pairs {
      var i :| 0 <= i < |pairs| && pairs[i] == (r.id, r.data);
      assert RepliesOf(pairs)[i] == r;
    }
  }

  /**
   * In every run, a poll takes into its snapshot exactly the buffered replies that were added at least `ttl`
   * before, going by the last accepted add of their ID; and in the order of the buffer.
   */
  lemma {:induction false} PollTakesOldIff(max: nat, es: seq<Event>, now: real, ttl: real, r: Reply)
    requires Run(max, es + [Poll(now, ttl)]).Some?
    ensures Run(max, es).Some?
    ensures var before, s := Run(max, es).value, Run(max, es + [Poll(now, ttl)]).value;
            && s.items == before.items
            && (r in Snapshot(s) <==>
                  && Find(before.items, r.id) == Some(r.data)
                  && LastAdd(max, es, r.id).Some? && LastAdd(max, es, r.id).value.1 <= now - ttl)
            && (s.poller.Sleeping? <==> Snapshot(s) == [])
  {
    hide Run, OlderThan, RepliesOf, Snapshot, Dated, DistinctIds, ListsOld, IsOld, LastAdd, Find;
    PollIs(max, es, now, ttl);
    ItemsAreDated(max, es);
    var items := Run(max, es).value.items;
    OlderThanLists(items, now - ttl);
    InReplies(OlderThan(items, now - ttl), r);
    OldIff(max, es, items, now - ttl, r);
  }

  lemma OldIff(max: nat, es: seq<Event>, items: seq<Item>, cutoff: real, r: Reply)
    requires Dated(max, es, items) && DistinctIds(items)
    ensures IsOld(items, cutoff, r.id, r.data) <==>
            Find(items, r.id) == Some(r.data) && LastAdd(max, es, r.id).Some? && LastAdd(max, es, r.id).value.1 <= cutoff
  {
    FoundIn(items, r.id);
    hide LastAdd, Find;
    if IsOld(items, cutoff, r.id, r.data) {
      var k :| 0 <= k < |items| && items[k].id == r.id && items[k].data == r.data && items[k].timestamp <= cutoff;
      if j :| 0 <= j < |items| && items[j].id == r.id && Find(items, r.id) == Some(items[j].data) { assert j == k; }
    } else if Find(items, r.id) == Some(r.data) {
      var k :| 0 <= k < |items| && items[k].id == r.id && Find(items, r.id) == Some(items[k].data);
      assert items[k].timestamp > cutoff;
    }
  }

  /** And the snapshot lists them in the order of the buffer. */
  lemma {:induction false} PollKeepsOrder(max: nat, es: seq<Event>, now: real, ttl: real) returns (at: seq<nat>)
    requires Run(max, es + [Poll(now, ttl)]).Some?
    ensures Run(max, es).Some?
    ensures var items, queue := Run(max, es).value.items, Snapshot(Run(max, es + [Poll(now, ttl)]).value);
            && |queue| == |at|
            && (forall i :: 0 <= i < |at| ==> at[i] < |items| && queue[i] == Reply(items[at[i]].id, items[at[i]].data))
            && (forall i, j :: 0 <= i < j < |at| ==> at[i] < at[j])
  {
    hide Run, OlderThan, Snapshot, AllOld;
    PollIs(max, es, now, ttl);
    at := OlderThanPlaces(Run(max, es).value.items, now - ttl);
  }

  lemma FindLast(front: seq<Item>, last: Item)
    requires DistinctIds(front + [last])
    ensures Find(front + [last], last.id) == Some(last.data)
  {
    FindConcat(front, [last], last.id);
    NoTwice(front, [last], last.id);
  }

  lemma StepFlushesFirst(max: nat, s: State, e: Event)
    requires Conserved(max, s) && RemovedWereFlushed(s) && Gentle(s, e) && Step(max, s, e).Some?
    ensures RemovedWereFlushed(Step(max, s, e).value)
  {
    hide Bag, Total, DistinctIds, Added, Evicted, Without, OlderThan, RepliesOf, Find;
    var s1 := Step(max, s, e).value;
    match e
    case Add(id, data, now) =>
      if |data| <= max && s.poller.Flushing? {
        forall r | r in s.poller.queue
          ensures Find(s1.items, r.id) == None || Find(s1.items, r.id) == Some(r.data)
        {
          FindOtherAfterAdd(s.items, id, data, now, max, r.id);
        }
      }
    case Ack(id) =>
      if s.poller.Flushing? { DeletedKeepsSnapshot(s.items, id, s.poller.queue); }
    case Poll(now, ttl) =>
      SnapshotIsBuffered(s.items, now - ttl);
    case EndFlush(stops) =>
      var queue := s.poller.queue;
      DeletedKeepsSnapshot(s.items, queue[0].id, queue);
      assert forall r :: r in queue[1..] ==> r in queue;
      assert forall i :: 0 <= i < |queue| - 1 ==> queue[1..][i] == queue[i + 1];
    case StopPoller =>
  }

  lemma DeletedKeepsSnapshot(items: seq<Item>, id: string, queue: seq<Reply>)
    requires DistinctIds(items)
    requires forall r :: r in queue ==> Find(items, r.id) == None || Find(items, r.id) == Some(r.data)
    ensures forall r :: r in queue ==> Find(Without(items, id), r.id) == None || Find(Without(items, id), r.id) == Some(r.data)
  {
    forall r | r in queue
      ensures Find(Without(items, id), r.id) == None || Find(Without(items, id), r.id) == Some(r.data)
    {
      if r.id == id { FindRemoved(items, id); } else { FindOther(items, id, r.id); }
    }
  }

  /**
   * Whatever the poller took out of the buffer it had tried to send, that very reply: true of every run in
   * which no reply is added under an ID that the poller is working through.
   */
  lemma {:induction false} PollerRemovesOnlyFlushed(max: nat, es: seq<Event>)
    requires Run(max, es).Some? && GentleRun(max, es)
    ensures RemovedWereFlushed(Run(max, es).value)
  {
    if es != [] {
      var front := es[..|es| - 1];
      forall k | 0 <= k < |front| ensures Run(max, front[..k]).Some? && Gentle(Run(max, front[..k]).value, front[k]) {
        assert front[..k] == es[..k];
      }
      PollerRemovesOnlyFlushed(max, front);
      RepliesConserved(max, front);
      StepFlushesFirst(max, Run(max, front).value, es[|es| - 1]);
    }
  }

  // ----- Exactly when the poller removes a reply that it has not sent -----

  /** What became, by one event, of the last reply that was added under `id` since the last poll. */
  function Overtake(max: nat, s: State, e: Event, last: Option<Bytes>, id: string): Option<Bytes> {
    match e
    case Add(added, data, _) =>
      if |data| > max then last
      else if added == id then Some(data)
      else if Evicts(s.items, added, data, max, id) then None
      else last
    case Ack(acked) => if acked == id then None else last
    case Poll(_, _) => None
    case EndFlush(_) => if s.poller.Flushing? && s.poller.queue != [] && s.poller.queue[0].id == id then None else last
    case StopPoller => last
  }

  /**
   * The data last added under `id` since the last poll, unless it was acknowledged, evicted or removed by the
   * poller since.
   */
  function Overtaking(max: nat, es: seq<Event>, id: string): Option<Bytes> {
    if es == [] then None
    else
      var front := es[..|es| - 1];
      if Run(max, front).None? then None
      else Overtake(max, Run(max, front).value, es[|es| - 1], Overtaking(max, front, id), id)
  }

  /** The flush under way is for an ID whose reply was overtaken, by one that was never sent. */
  predicate OvertakenUnsent(max: nat, es: seq<Event>) {
    var r := Run(max, es);
    && r.Some? && r.value.poller.Flushing? && r.value.poller.queue != []
    && var id := r.value.poller.queue[0].id;
       var last := Overtaking(max, es, id);
       last.Some? && Reply(id, last.value) !in r.value.attempts
  }

  /** What an entry of the snapshot finds in the buffer. */
  ghost predicate EntryFits(s: State, entry: Reply, last: Option<Bytes>) {
    match last
    case Some(data) => Find(s.items, entry.id) == Some(data)
    case None => Find(s.items, entry.id) == None || Find(s.items, entry.id) == Some(entry.data)
  }

  ghost predicate SnapshotTracked(max: nat, es: seq<Event>, s: State) {
    s.poller.Flushing? ==>
      && s.poller.queue != [] && s.poller.queue[0] in s.attempts
      && DistinctReplies(s.poller.queue)
      && forall r :: r in s.poller.queue ==> EntryFits(s, r, Overtaking(max, es, r.id))
  }

  lemma FindAdded(items: seq<Item>, id: string, data: Bytes, now: real, max: nat)
    requires DistinctIds(items) && |data| <= max
    ensures Find(Added(items, id, data, now, max), id) == Some(data)
  {
    AddRefines(items, id, data, now, max);
    var rest := Without(items, id);
    var k := Evictions(rest, max - |data|);
    hide Evictions, Total;
    FindLast(rest[k..], Item(id, data, now));
  }

  lemma EntryAfterAdd(max: nat, s: State, e: Event, entry: Reply, last: Option<Bytes>)
    requires DistinctIds(s.items) && e.Add? && EntryFits(s, entry, last)
    ensures EntryFits(Step(max, s, e).value, entry, Overtake(max, s, e, last, entry.id))
  {
    hide DistinctIds, Added, Evicted, Find, Taken, Bag, Evicts;
    if |e.data| <= max {
      if e.id == entry.id {
        FindAdded(s.items, e.id, e.data, e.now, max);
      } else {
        FindOtherAfterAdd(s.items, e.id, e.data, e.now, max, entry.id);
      }
    }
  }

  lemma EntryAfterDelete(s: State, s1: State, id: string, entry: Reply, last: Option<Bytes>)
    requires DistinctIds(s.items) && EntryFits(s, entry, last) && s1.items == Without(s.items, id)
    ensures EntryFits(s1, entry, if id == entry.id then None else last)
  {
    hide DistinctIds, Find, Without;
    if id == entry.id { FindRemoved(s.items, id); } else { FindOther(s.items, id, entry.id); }
  }

  lemma EntryStep(max: nat, s: State, e: Event, entry: Reply, last: Option<Bytes>)
    requires Conserved(max, s) && Step(max, s, e).Some? && !e.Poll? && EntryFits(s, entry, last)
    ensures EntryFits(Step(max, s, e).value, entry, Overtake(max, s, e, last, entry.id))
  {
    var s1 := Step(max, s, e).value;
    hide DistinctIds, Bag, Total, Find, Taken, Added, Evicted, Without, EntryFits, Evicts;
    match e
    case Add(_, _, _) => EntryAfterAdd(max, s, e, entry, last);
    case Ack(id) => EntryAfterDelete(s, s1, id, entry, last);
    case EndFlush(_) => EntryAfterDelete(s, s1, s.poller.queue[0].id, entry, last);
    case StopPoller => SameItems(s, s1, entry, last);
  }

  lemma SameItems(s: State, s1: State, entry: Reply, last: Option<Bytes>)
    requires EntryFits(s, entry, last) && s1.items == s.items
    ensures EntryFits(s1, entry, last)
  {
  }

  lemma OvertakingSnoc(max: nat, es: seq<Event>, e: Event, id: string)
    requires Run(max, es).Some?
    ensures Overtaking(max, es + [e], id) == Overtake(max, Run(max, es).value, e, Overtaking(max, es, id), id)
  {
    assert (es + [e])[..|es|] == es;
  }

  lemma TrackedStep(max: nat, es: seq<Event>, s: State, e: Event)
    requires Run(max, es) == Some(s) && Conserved(max, s) && SnapshotTracked(max, es, s) && Step(max, s, e).Some?
    ensures SnapshotTracked(max, es + [e], Step(max, s, e).value)
  {
    hide Run, Conserved, EntryFits, OlderThan, RepliesOf, Overtake, Added, Evicted, Without, Taken, Bag;
    var s1 := Step(max, s, e).value;
    if e.Poll? {
      PollTracked(max, es, s, e);
    } else if s1.poller.Flushing? {
      QueueShrinks(max, s, e);
      forall r | r in s1.poller.queue ensures EntryFits(s1, r, Overtaking(max, es + [e], r.id)) {
        OvertakingSnoc(max, es, e, r.id);
        hide Step;
        EntryStep(max, s, e, r, Overtaking(max, es, r.id));
      }
    }
  }

  lemma QueueShrinks(max: nat, s: State, e: Event)
    requires Step(max, s, e).Some? && !e.Poll? && Step(max, s, e).value.poller.Flushing?
    requires s.poller.Flushing? ==> s.poller.queue != [] && s.poller.queue[0] in s.attempts && DistinctReplies(s.poller.queue)
    ensures var s1 := Step(max, s, e).value;
            && s.poller.Flushing? && s1.poller.queue != [] && s1.poller.queue[0] in s1.attempts
            && DistinctReplies(s1.poller.queue)
            && forall r :: r in s1.poller.queue ==> r in s.poller.queue
  {
    hide Added, Evicted, Without, Taken, Bag;
    if e.EndFlush? {
      var queue := s.poller.queue;
      assert forall i :: 0 <= i < |queue| - 1 ==> queue[1..][i] == queue[i + 1];
    }
  }

  lemma PollTracked(max: nat, es: seq<Event>, s: State, e: Event)
    requires Run(max, es) == Some(s) && Conserved(max, s) && e.Poll? && Step(max, s, e).Some?
    ensures SnapshotTracked(max, es + [e], Step(max, s, e).value)
  {
    hide Run, Bag, Total, DistinctIds, DistinctReplies, OlderThan, RepliesOf, Find, Overtaking;
    SnapshotIsBuffered(s.items, e.now - e.ttl);
    forall id ensures Overtaking(max, es + [e], id) == None {
      OvertakingSnoc(max, es, e, id);
    }
  }

  lemma {:induction false} RunTracked(max: nat, es: seq<Event>)
    requires Run(max, es).Some?
    ensures SnapshotTracked(max, es, Run(max, es).value)
  {
    if es != [] {
      var front, e := es[..|es| - 1], es[|es| - 1];
      assert es == front + [e];
      RunTracked(max, front);
      RepliesConserved(max, front);
      hide SnapshotTracked, Conserved, Step;
      TrackedStep(max, front, Run(max, front).value, e);
    }
  }

  /** The end of the flush under way takes a reply out of the buffer that was never sent to the flush endpoint. */
  ghost predicate TakesUnsent(s: State) {
    s.poller.Flushing? && s.poller.queue != [] && exists r :: r in Taken(s.items, s.poller.queue[0].id) && r !in s.attempts
  }

  /**
   * When the poller loses a reply, exactly, in every run and whatever IDs come back: the end of a flush takes
   * out a reply that was never sent if and only if a reply was added under the flushed ID since the poll,
   * nothing has taken it out or replaced it since, and that very reply was not sent.
   */
  lemma {:induction false} TakesUnsentIff(max: nat, es: seq<Event>)
    requires Run(max, es).Some?
    ensures TakesUnsent(Run(max, es).value) <==> OvertakenUnsent(max, es)
  {
    RunTracked(max, es);
    var s := Run(max, es).value;
    hide Run, Find, Overtaking;
    if s.poller.Flushing? {
      var entry := s.poller.queue[0];
      assert EntryFits(s, entry, Overtaking(max, es, entry.id));
      match Overtaking(max, es, entry.id)
      case Some(data) => assert Taken(s.items, entry.id) == multiset{Reply(entry.id, data)};
      case None => assert Taken(s.items, entry.id) <= multiset{entry};
    }
  }

  ghost predicate Sent(s: State) {
    forall r :: r in s.flushed ==> r in s.attempts
  }

  /** After every event of the run, all that the poller has taken out it had sent. */
  ghost predicate AlwaysSent(max: nat, es: seq<Event>)
    requires Run(max, es).Some?
  {
    && Sent(Run(max, es).value)
    && (es != [] ==> AlwaysSent(max, es[..|es| - 1]))
  }

  /** No flush of the run ended with its reply overtaken by one that was not sent. */
  predicate NeverOvertaken(max: nat, es: seq<Event>) {
    es != [] ==>
      && NeverOvertaken(max, es[..|es| - 1])
      && (es[|es| - 1].EndFlush? ==> !OvertakenUnsent(max, es[..|es| - 1]))
  }

  lemma SentStep(max: nat, s: State, e: Event)
    requires Sent(s) && Step(max, s, e).Some?
    requires s.poller.Flushing? ==> DistinctReplies(s.poller.queue)
    ensures Sent(Step(max, s, e).value) <==> !(e.EndFlush? && TakesUnsent(s))
  {
    hide Added, Evicted, Without, Bag, OlderThan, RepliesOf, Find;
    if e.EndFlush? {
      var s1 := Step(max, s, e).value;
      TakenHasId(s.items, s.poller.queue[0].id);
      if TakesUnsent(s) {
        var r :| r in Taken(s.items, s.poller.queue[0].id) && r !in s.attempts;
        assert r in s1.flushed && r !in s1.attempts;
      }
    }
  }

  lemma TakenHasId(items: seq<Item>, id: string)
    ensures forall r :: r in Taken(items, id) ==> r.id == id
  {
    hide Find;
  }

  /** The whole run: the poller only ever takes out what it has sent if and only if no such flush ended. */
  lemma {:induction false} AlwaysSentIff(max: nat, es: seq<Event>)
    requires Run(max, es).Some?
    ensures AlwaysSent(max, es) <==> NeverOvertaken(max, es)
  {
    if es != [] {
      var front, e := es[..|es| - 1], es[|es| - 1];
      AlwaysSentIff(max, front);
      TakesUnsentIff(max, front);
      RunTracked(max, front);
      hide Step, TakesUnsent, OvertakenUnsent, Overtaking, EntryFits, DistinctReplies;
      if AlwaysSent(max, front) {
        SentStep(max, Run(max, front).value, e);
      }
    }
  }

  // ----- Fresh request IDs: at most one attempt each -----

  function AddedIds(es: seq<Event>): seq<string> {
    if es == [] then []
    else
      var last := es[|es| - 1];
      AddedIds(es[..|es| - 1]) + (if last.Add? then [last.id] else [])
  }

  /** Flush attempts have distinct IDs, all seen; and an attempted reply is gone unless its flush is under way. */
  ghost predicate OneAttemptEach(s: State) {
    && DistinctReplies(s.attempts)
    && s.replaced == multiset{}
    && (forall r :: r in s.attempts ==> r.id in s.seen)
    && (forall i :: 0 <= i < |s.items| ==> s.items[i].id in s.seen)
    && (s.poller.Flushing? ==> forall r :: r in s.poller.queue ==> r.id in s.seen)
    && (forall r :: r in s.attempts ==> Find(s.items, r.id) == None || (s.poller.Flushing? && s.poller.queue != [] && s.poller.queue[0].id == r.id))
    && (s.poller.Flushing? && s.poller.queue != [] ==>
          && s.attempts != [] && s.attempts[|s.attempts| - 1] == s.poller.queue[0]
          && forall i, r :: 1 <= i < |s.poller.queue| && r in s.attempts ==> r.id != s.poller.queue[i].id)
  }

  lemma SeenWithout(items: seq<Item>, id: string, seen: set<string>)
    requires DistinctIds(items) && forall i :: 0 <= i < |items| ==> items[i].id in seen
    ensures forall i :: 0 <= i < |Without(items, id)| ==> Without(items, id)[i].id in seen
  {
    if Absent(items, id) {
      WithoutAbsent(items, id);
    } else {
      var k := WhereIs(items, id);
    }
  }

  lemma SeenAdded(items: seq<Item>, id: string, data: Bytes, now: real, max: nat, seen: set<string>)
    requires DistinctIds(items) && |data| <= max && forall i :: 0 <= i < |items| ==> items[i].id in seen
    ensures var after := Added(items, id, data, now, max); forall i :: 0 <= i < |after| ==> after[i].id in seen + {id}
  {
    hide Evictions, Total;
    SeenWithout(items, id, seen);
  }

  lemma NotBuffered(items: seq<Item>, id: string, seen: set<string>)
    requires id !in seen && forall i :: 0 <= i < |items| ==> items[i].id in seen
    ensures Find(items, id) == None
  {
    FoundIn(items, id);
  }

  lemma AddOnce(max: nat, s: State, id: string, data: Bytes, now: real)
    requires Conserved(max, s) && OneAttemptEach(s) && SnapshotFits(s) && id !in s.seen
    ensures OneAttemptEach(Step(max, s, Add(id, data, now)).value)
  {
    hide Bag, Total, DistinctIds, DistinctReplies, Added, Evicted, Without, OlderThan, RepliesOf, Find;
    NotBuffered(s.items, id, s.seen);
    if |data| <= max {
      SeenAdded(s.items, id, data, now, max, s.seen);
      forall r | r in s.attempts
        ensures var found := Find(Added(s.items, id, data, now, max), r.id); found == None || found == Find(s.items, r.id)
      {
        FindOtherAfterAdd(s.items, id, data, now, max, r.id);
      }
    }
  }

  lemma DeleteOnce(s: State, id: string)
    requires DistinctIds(s.items) && OneAttemptEach(s)
    ensures OneAttemptEach(s.(items := Without(s.items, id)))
  {
    hide DistinctIds, DistinctReplies, Without, Find;
    SeenWithout(s.items, id, s.seen);
    forall r | r in s.attempts
      ensures Find(Without(s.items, id), r.id) == None || Find(Without(s.items, id), r.id) == Find(s.items, r.id)
    {
      if r.id == id { FindRemoved(s.items, id); } else { FindOther(s.items, id, r.id); }
    }
  }

  lemma BeginOnce(s: State, queue: seq<Reply>)
    requires OneAttemptEach(s.(poller := Sleeping)) && DistinctReplies(queue)
    requires forall r :: r in queue ==> r.id in s.seen
    requires forall r, q :: r in s.attempts && q in queue ==> r.id != q.id
    ensures OneAttemptEach(Begin(s, queue))
  {
    hide Find;
  }

  lemma StepOnce(max: nat, s: State, e: Event)
    requires Conserved(max, s) && OneAttemptEach(s) && SnapshotFits(s) && Step(max, s, e).Some?
    requires e.Add? ==> e.id !in s.seen
    ensures OneAttemptEach(Step(max, s, e).value)
  {
    hide DistinctReplies, DistinctIds, Bag, Total, Find, OlderThan, RepliesOf, Added, Evicted, Without;
    match e
    case Add(id, data, now) => AddOnce(max, s, id, data, now);
    case Ack(id) => DeleteOnce(s, id);
    case Poll(now, ttl) =>
      PollOnce(max, s, RepliesOf(OlderThan(s.items, now - ttl)), now - ttl);
    case EndFlush(stops) => EndOnce(max, s, stops);
    case StopPoller =>
  }

  lemma PollOnce(max: nat, s: State, queue: seq<Reply>, cutoff: real)
    requires Conserved(max, s) && OneAttemptEach(s) && s.poller.Sleeping? && queue == RepliesOf(OlderThan(s.items, cutoff))
    ensures OneAttemptEach(Begin(s, queue))
  {
    hide Bag, Total, DistinctIds, OlderThan, RepliesOf, Find;
    SnapshotIsBuffered(s.items, cutoff);
    forall r | r in queue ensures r.id in s.seen {
      FoundIn(s.items, r.id);
    }
    BeginOnce(s, queue);
  }

  lemma EndOnce(max: nat, s: State, stops: bool)
    requires Conserved(max, s) && OneAttemptEach(s) && SnapshotFits(s) && s.poller.Flushing?
    ensures OneAttemptEach(Step(max, s, EndFlush(stops)).value)
  {
    hide Bag, Total, DistinctIds, Without, Find;
    var queue := s.poller.queue;
    var s1 := s.(items := Without(s.items, queue[0].id), flushed := s.flushed + Taken(s.items, queue[0].id));
    DeleteOnce(s, queue[0].id);
    FindRemoved(s.items, queue[0].id);
    assert OneAttemptEach(s1.(poller := Sleeping));
    assert forall i :: 0 <= i < |queue| - 1 ==> queue[1..][i] == queue[i + 1];
    if !stops { BeginOnce(s1, queue[1..]); }
  }

  lemma {:induction false} SeenAre(max: nat, es: seq<Event>)
    requires Run(max, es).Some?
    ensures Run(max, es).value.seen == Elements(AddedIds(es))
  {
    if es != [] { SeenAre(max, es[..|es| - 1]); }
  }

  lemma FreshFront(es: seq<Event>)
    requires es != [] && NoDuplicates(AddedIds(es))
    ensures NoDuplicates(AddedIds(es[..|es| - 1]))
    ensures es[|es| - 1].Add? ==> es[|es| - 1].id !in Elements(AddedIds(es[..|es| - 1]))
  {
    var a, all := AddedIds(es[..|es| - 1]), AddedIds(es);
    assert forall i :: 0 <= i < |a| ==> all[i] == a[i];
  }

  lemma FreshIsGentle(s: State, e: Event)
    requires OneAttemptEach(s) && (e.Add? ==> e.id !in s.seen)
    ensures Gentle(s, e)
  {
    hide Find;
  }

  lemma {:induction false} FreshRunInv(max: nat, es: seq<Event>)
    requires Run(max, es).Some? && NoDuplicates(AddedIds(es))
    ensures OneAttemptEach(Run(max, es).value) && RemovedWereFlushed(Run(max, es).value)
  {
    if es != [] {
      var front, e := es[..|es| - 1], es[|es| - 1];
      FreshFront(es);
      FreshRunInv(max, front);
      RepliesConserved(max, front);
      SeenAre(max, front);
      hide Step, Conserved, OneAttemptEach, RemovedWereFlushed, Run;
      var s := Run(max, front).value;
      FreshIsGentle(s, e);
      StepOnce(max, s, e);
      StepFlushesFirst(max, s, e);
    }
  }

  /**
   * With fresh request IDs: each accepted reply is buffered or was removed exactly once, by acknowledgement,
   * eviction or the poller; each is sent to the flush endpoint at most once; and what the poller removed it
   * had tried to send.
   */
  lemma {:induction false} FreshRepliesOnce(max: nat, es: seq<Event>)
    requires Run(max, es).Some? && NoDuplicates(AddedIds(es))
    ensures var s := Run(max, es).value;
            && Bag(s.items) + s.acked + s.evicted + s.flushed == s.accepted
            && (forall r :: s.accepted[r] <= 1)
            && DistinctReplies(s.attempts)
            && (forall r :: r in s.flushed ==> r in s.attempts)
  {
    RepliesConserved(max, es);
    FreshRunInv(max, es);
    AcceptedOnce(max, es);
  }

  lemma {:induction false} AcceptedOnce(max: nat, es: seq<Event>)
    requires Run(max, es).Some? && NoDuplicates(AddedIds(es))
    ensures var s := Run(max, es).value;
            (forall r :: s.accepted[r] <= 1) && (forall r :: r in s.accepted ==> r.id in s.seen)
  {
    if es != [] {
      var front, e := es[..|es| - 1], es[|es| - 1];
      FreshFront(es);
      AcceptedOnce(max, front);
      SeenAre(max, front);
      hide Added, Evicted, Without, OlderThan, RepliesOf, Find, Bag;
      assert e.Add? ==> Reply(e.id, e.data) !in Run(max, front).value.accepted;
    }
  }

  // ----- An ID that comes back during its flush -----

  /** The flush of the first reply for `r` is under way when a second reply for `r` is added; then it ends. */
  function Overtaken(first: Bytes, second: Bytes): seq<Event> {
    [Add("r", first, 0.0), Poll(1.0, 1.0), Add("r", second, 1.0), EndFlush(false)]
  }

  /** The second reply is deleted by the poller and was never sent to the flush endpoint. */
  lemma {:induction false} OvertakenReplyIsLost(max: nat, first: Bytes, second: Bytes)
    requires |first| <= max && |second| <= max && first != second
    ensures var r := Run(max, Overtaken(first, second));
            r.Some? && r.value.items == [] && Reply("r", second) in r.value.flushed && Reply("r", second) !in r.value.attempts
  {
    var s1 := Adding(max, EMPTY, Item("r", first, 0.0));
    var s2 := Polling(max, s1, Item("r", first, 0.0), 1.0, 1.0);
    var s3 := Adding(max, s2, Item("r", second, 1.0));
    var s4 := Ending(max, s3, Item("r", second, 1.0));
    hide Step;
    RunOfFour(max, Overtaken(first, second), s1, s2, s3);
  }

  lemma RunOfFour(max: nat, es: seq<Event>, s1: State, s2: State, s3: State)
    requires |es| == 4 && Step(max, EMPTY, es[0]) == Some(s1) && Step(max, s1, es[1]) == Some(s2)
    requires Step(max, s2, es[2]) == Some(s3)
    ensures Run(max, es) == Step(max, s3, es[3])
  {
    hide Step;
    assert es == es[..3] + [es[3]] && es[..3] == es[..2] + [es[2]] && es[..2] == es[..1] + [es[1]] && es[..1] == [] + [es[0]];
    assert Run(max, []) == Some(EMPTY);
    RunSnoc(max, [], es[0]);
    RunSnoc(max, es[..1], es[1]);
    RunSnoc(max, es[..2], es[2]);
    RunSnoc(max, es[..3], es[3]);
  }

  lemma Adding(max: nat, s: State, item: Item) returns (s1: State)
    requires s.items == [] || (|s.items| == 1 && s.items[0].id == item.id)
    requires |item.data| <= max
    ensures Step(max, s, Add(item.id, item.data, item.timestamp)) == Some(s1)
    ensures s1.items == [item] && s1.poller == s.poller && s1.attempts == s.attempts && s1.flushed == s.flushed
  {
    hide Added, Evicted, Taken, Bag;
    SoleAdd(s.items, item, max);
    s1 := Step(max, s, Add(item.id, item.data, item.timestamp)).value;
  }

  lemma Polling(max: nat, s: State, item: Item, now: real, ttl: real) returns (s1: State)
    requires s.items == [item] && s.poller.Sleeping? && item.timestamp <= now - ttl
    ensures Step(max, s, Poll(now, ttl)) == Some(s1)
    ensures s1.items == s.items && s1.poller == Flushing([Reply(item.id, item.data)])
    ensures s1.attempts == s.attempts + [Reply(item.id, item.data)] && s1.flushed == s.flushed
  {
    hide OlderThan, RepliesOf;
    SoleSnapshot(item, now - ttl);
    s1 := Step(max, s, Poll(now, ttl)).value;
  }

  lemma Ending(max: nat, s: State, item: Item) returns (s1: State)
    requires s.items == [item] && s.poller.Flushing? && |s.poller.queue| == 1 && s.poller.queue[0].id == item.id
    ensures Step(max, s, EndFlush(false)) == Some(s1)
    ensures s1.items == [] && s1.attempts == s.attempts && Reply(item.id, item.data) in s1.flushed
  {
    assert Without([item], item.id) == [];
    s1 := Step(max, s, EndFlush(false)).value;
  }

  lemma SoleAdd(items: seq<Item>, item: Item, max: nat)
    requires items == [] || (|items| == 1 && items[0].id == item.id)
    requires |item.data| <= max
    ensures Added(items, item.id, item.data, item.timestamp, max) == [item] && Evicted(items, item.id, item.data, max) == []
  {
    assert Without(items, item.id) == [];
  }

  lemma SoleSnapshot(item: Item, cutoff: real)
    requires item.timestamp <= cutoff
    ensures RepliesOf(OlderThan([item], cutoff)) == [Reply(item.id, item.data)]
  {
    assert [item][..0] == [];
    assert OlderThan([item], cutoff) == [(item.id, item.data)];
  }

  lemma RunSnoc(max: nat, es: seq<Event>, e: Event)
    ensures Run(max, es + [e]) == if Run(max, es).None? then None else Step(max, Run(max, es).value, e)
  {
    assert (es + [e])[..|es|] == es;
  }
}
