/** The hashed IDs of a planned run: which text each step gets, and when progress cannot change it. */
module PlanIds {
  import opened Values
  import opened StepIds
  import opened Memos
  import opened Programs
  import opened Engine
  import opened Plans
  import opened Replay

  // ----- A planned run numbers its steps in the order of the straight run -----

  /** Every step has the text of its use, counted from `c` on. */
  ghost predicate IdsFollow(c: Counts, es: seq<Entry>) {
    forall k :: 0 <= k < |es| ==> FollowsAt(c, es, k)
  }

  ghost predicate FollowsAt(c: Counts, es: seq<Entry>, k: nat)
    requires k < |es|
  {
    es[k].id == PreHash(es[k].raw, Count(c, es[k].raw) + Uses(es[..k], es[k].raw))
  }

  lemma CountedConcat(c: Counts, a: seq<Entry>, d: Counts, b: seq<Entry>, e: Counts)
    requires Counted(c, a, d) && Counted(d, b, e)
    ensures Counted(c, a + b, e)
  {
    forall x ensures Count(e, x) == Count(c, x) + Uses(a + b, x) {
      UsesConcat(a, b, x);
    }
  }

  lemma IdsFollowConcat(c: Counts, a: seq<Entry>, d: Counts, b: seq<Entry>)
    requires IdsFollow(c, a) && Counted(c, a, d) && IdsFollow(d, b)
    ensures IdsFollow(c, a + b)
  {
    hide FollowsAt;
    forall k | 0 <= k < |a + b| ensures FollowsAt(c, a + b, k) {
      if k < |a| { FollowsEarlier(c, a, b, k); } else { FollowsLater(c, a, d, b, k - |a|); }
    }
  }

  lemma FollowsEarlier(c: Counts, a: seq<Entry>, b: seq<Entry>, k: nat)
    requires k < |a| && FollowsAt(c, a, k)
    ensures FollowsAt(c, a + b, k)
  {
    hide PreHash, Uses;
    assert (a + b)[k] == a[k] && (a + b)[..k] == a[..k];
  }

  lemma FollowsLater(c: Counts, a: seq<Entry>, d: Counts, b: seq<Entry>, k: nat)
    requires Counted(c, a, d) && k < |b| && FollowsAt(d, b, k)
    ensures FollowsAt(c, a + b, |a| + k)
  {
    hide PreHash, Uses;
    assert (a + b)[|a| + k] == b[k] && (a + b)[..|a| + k] == a + b[..k];
    UsesConcat(a, b[..k], b[k].raw);
  }

  lemma IdsFollowOne(c: Counts, e: Entry)
    requires e.id == PreHash(e.raw, Count(c, e.raw))
    ensures IdsFollow(c, [e])
  {
    assert [e][..0] == [];
  }

  lemma {:induction false} PlanIdsFollow(gas: nat, p: Prog, c: Counts, su: Setup)
    requires PlanOf(gas, p, c, su).Some?
    ensures var pl := PlanOf(gas, p, c, su).value;
            Counted(c, Entries(pl.segs), pl.counts) && IdsFollow(c, Entries(pl.segs))
    decreases gas, 0
  {
    hide Counted, IdsFollow, Uses, Bump, Decode, PlanStep, PlanLanes, Transparent, TailsUnused, Entries, LaneEntries;
    match p
    case Return(_) => NothingFollows(c);
    case Raise(_) => NothingFollows(c);
    case Flaky(_, next) => PlanIdsFollow(gas - 1, next, c, su);
    case Step(id, op, handler, k) =>
      var e, next, rest := UnfoldStep(gas - 1, id, op, handler, k, PlanOf(gas, p, c, su).value, c, su);
      StartsWithFacts(PlanOf(gas, p, c, su).value, e, rest, {});
      PlanIdsFollow(gas - 1, next, Bump(c, id), su);
      CountedOne(c, e);
      IdsFollowOne(c, e);
      FollowConcat(c, [e], Bump(c, id), Entries(rest.segs), rest.counts);
    case Parallel(callbacks, mode, gk) => GroupIdsFollow(gas - 1, callbacks, mode, gk, PlanOf(gas, p, c, su).value, c, su);
  }

  lemma {:induction false} GroupIdsFollow(gas: nat, callbacks: seq<Prog>, mode: ParallelMode, gk: GroupResult -> Prog,
                                          pl: Plan,
                                          c: Counts, su: Setup)
    requires PlanOf(gas + 1, Parallel(callbacks, mode, gk), c, su) == Some(pl)
    ensures Counted(c, Entries(pl.segs), pl.counts) && IdsFollow(c, Entries(pl.segs))
    decreases gas, |callbacks| + 1
  {
    hide Counted, IdsFollow, Uses, PlanOf, PlanLanes, PlanHeads, FailsAtOnce, Transparent, TailsUnused, Entries,
         LaneEntries, HeadEntries;
    if FailsAtOnce(gas, callbacks, c, su) {
      var hs, rest := UnfoldFailing(gas, callbacks, mode, gk, pl, c, su);
      HeadIdsFollow(gas, callbacks, c, su);
      PlanIdsFollow(gas, gk(GroupFailed(hs.e)), hs.counts, su);
      EntriesCons(Heads(hs.lanes), rest.segs);
      FollowConcat(c, HeadEntries(hs.lanes), hs.counts, Entries(rest.segs), rest.counts);
    } else {
      var ls, rest := UnfoldGroup(gas, callbacks, mode, gk, pl, c, su);
      LaneIdsFollow(gas, callbacks, c, su);
      PlanIdsFollow(gas, gk(ls.Result()), ls.counts, su);
      EntriesCons(Lanes(ls.lanes, ls.Decides()), rest.segs);
      FollowConcat(c, LaneEntries(ls.lanes), ls.counts, Entries(rest.segs), rest.counts);
    }
  }

  lemma FollowConcat(c: Counts, a: seq<Entry>, d: Counts, b: seq<Entry>, e: Counts)
    requires Counted(c, a, d) && Counted(d, b, e) && IdsFollow(c, a) && IdsFollow(d, b)
    ensures Counted(c, a + b, e) && IdsFollow(c, a + b)
  {
    CountedConcat(c, a, d, b, e);
    IdsFollowConcat(c, a, d, b);
  }

  lemma NothingFollows(c: Counts)
    ensures Entries([]) == [] && LaneEntries([]) == [] && HeadEntries([]) == [] && Counted(c, [], c) && IdsFollow(c, [])
  {
  }

  lemma {:induction false} LaneIdsFollow(gas: nat, callbacks: seq<Prog>, c: Counts, su: Setup)
    requires PlanLanes(gas, callbacks, c, su).Some?
    ensures var ls := PlanLanes(gas, callbacks, c, su).value;
            Counted(c, LaneEntries(ls.lanes), ls.counts) && IdsFollow(c, LaneEntries(ls.lanes))
    decreases gas, |callbacks|
  {
    hide Counted, IdsFollow, Uses, Entries, LaneEntries, PlanOf;
    if callbacks == [] {
      NothingFollows(c);
    } else {
      var first := PlanOf(gas, callbacks[0], c, su).value;
      var rest := PlanLanes(gas, callbacks[1..], first.counts, su).value;
      PlanIdsFollow(gas, callbacks[0], c, su);
      LaneIdsFollow(gas, callbacks[1..], first.counts, su);
      LaneEntriesCons(Entries(first.segs), rest.lanes);
      FollowConcat(c, Entries(first.segs), first.counts, LaneEntries(rest.lanes), rest.counts);
    }
  }

  /** In a group that fails at once only the first step of each callback before is counted. */
  lemma {:induction false} HeadIdsFollow(gas: nat, callbacks: seq<Prog>, c: Counts, su: Setup)
    requires PlanHeads(gas, callbacks, c, su).Some?
    ensures var hs := PlanHeads(gas, callbacks, c, su).value;
            Counted(c, HeadEntries(hs.lanes), hs.counts) && IdsFollow(c, HeadEntries(hs.lanes))
    decreases gas, |callbacks|
  {
    hide Counted, IdsFollow, Uses, Entries, PlanOf;
    var first := UnfoldHeads(gas, callbacks, c, su);
    if first.result.Failed? {
      NothingFollows(c);
    } else {
      var lane := Entries(first.segs);
      var hs, rest := PlanHeads(gas, callbacks, c, su).value, PlanHeads(gas, callbacks[1..], CountHead(lane, c), su).value;
      PlanIdsFollow(gas, callbacks[0], c, su);
      HeadFollows(lane, c);
      HeadIdsFollow(gas, callbacks[1..], CountHead(lane, c), su);
      HeadsSplit(hs, lane, rest);
      hide HeadEntries, Head, Bump;
      FollowConcat(c, Head(lane), CountHead(lane, c), HeadEntries(rest.lanes), rest.counts);
    }
  }

  lemma HeadFollows(lane: seq<Entry>, c: Counts)
    requires IdsFollow(c, lane)
    ensures Counted(c, Head(lane), CountHead(lane, c)) && IdsFollow(c, Head(lane))
  {
    hide Counted, Bump, PreHash;
    if lane == [] {
      NothingFollows(c);
    } else {
      assert FollowsAt(c, lane, 0);
      assert lane[..0] == [];
      CountedOne(c, lane[0]);
      IdsFollowOne(c, lane[0]);
    }
  }

  function RawSeq(es: seq<Entry>): seq<string> {
    seq(|es|, i requires 0 <= i < |es| => es[i].raw)
  }

  lemma {:induction false} UsesAreOccurrences(es: seq<Entry>, x: string)
    ensures Occurrences(RawSeq(es), x) == Uses(es, x)
  {
    if es != [] {
      var front, last := es[..|es| - 1], es[|es| - 1];
      assert RawSeq(es)[..|es| - 1] == RawSeq(front);
      UsesAreOccurrences(front, x);
      assert es == front + [last];
      UsesConcat(front, [last], x);
      UsesCons(last, [], x);
      assert [last] + [] == [last];
    }
  }

  lemma IdIsText(es: seq<Entry>, k: nat)
    requires IdsFollow(map[], es) && k < |es|
    ensures es[k].id == TextAt(RawSeq(es), k)
  {
    assert FollowsAt(map[], es, k);
    UsesAreOccurrences(es[..k], es[k].raw);
    assert RawSeq(es)[..k] == RawSeq(es[..k]);
  }

  /**
   * The hashed IDs of a planned run are pairwise distinct if and only if no step ID used on the straight run
   * is another used ID followed by `:n`, for an occurrence index n that other ID reaches.
   */
  lemma {:induction false} DistinctIffNoClash(gas: nat, p: Prog, su: Setup)
    requires PlanOf(gas, p, map[], su).Some?
    ensures var es := Entries(PlanOf(gas, p, map[], su).value.segs);
            DistinctIds(es) <==> !exists a, b, n :: Clash(RawSeq(es), a, b, n)
  {
    var es := Entries(PlanOf(gas, p, map[], su).value.segs);
    PlanIdsFollow(gas, p, map[], su);
    hide PlanOf, IdsFollow;
    forall k | 0 <= k < |es| ensures es[k].id == TextAt(RawSeq(es), k) {
      IdIsText(es, k);
    }
    TextsDistinctIffNoClash(RawSeq(es));
    hide TextAt, Clash, Entries;
    assert DistinctIds(es) <==> TextsDistinct(RawSeq(es));
  }

  // ----- Groups: how far the callbacks got must not matter -----

  /** How many steps of each callback an invocation reaches: at least the first one. */
  ghost predicate Reached(lanes: seq<seq<Entry>>, reached: seq<nat>) {
    && |reached| == |lanes|
    && forall i :: 0 <= i < |lanes| ==> reached[i] <= |lanes[i]| && (lanes[i] != [] ==> reached[i] > 0)
  }

  function UsesBefore(lanes: seq<seq<Entry>>, reached: seq<nat>, j: nat, x: string): nat
    requires j <= |lanes| && |reached| == |lanes|
    requires forall i :: 0 <= i < |lanes| ==> reached[i] <= |lanes[i]|
  {
    if j == 0 then 0 else UsesBefore(lanes, reached, j - 1, x) + Uses(lanes[j - 1][..reached[j - 1]], x)
  }

  /** The text that step `k` of callback `j` gets in an invocation that reaches that far in the callbacks before it. */
  function TextIn(c: Counts, lanes: seq<seq<Entry>>, reached: seq<nat>, j: nat, k: nat): HashedId
    requires j < |lanes| && k < |lanes[j]| && |reached| == |lanes|
    requires forall i :: 0 <= i < |lanes| ==> reached[i] <= |lanes[i]|
  {
    var x := lanes[j][k].raw;
    PreHash(x, Count(c, x) + UsesBefore(lanes, reached, j, x) + Uses(lanes[j][..k], x))
  }

  /** Every step of the group has the same text in all invocations. */
  ghost predicate StableTexts(c: Counts, lanes: seq<seq<Entry>>) {
    forall r1, r2, j, k {:trigger TextIn(c, lanes, r1, j, k), TextIn(c, lanes, r2, j, k)} ::
      Reached(lanes, r1) && Reached(lanes, r2) && 0 <= j < |lanes| && 0 <= k < |lanes[j]| ==>
        TextIn(c, lanes, r1, j, k) == TextIn(c, lanes, r2, j, k)
  }

  lemma {:induction false} HeadsOnly(lanes: seq<seq<Entry>>, r1: seq<nat>, r2: seq<nat>, j: nat, x: string)
    requires Reached(lanes, r1) && Reached(lanes, r2) && j <= |lanes|
    requires forall i :: 0 <= i < j ==> x !in Raws(Tail(lanes[i]))
    ensures UsesBefore(lanes, r1, j, x) == UsesBefore(lanes, r2, j, x)
  {
    if j > 0 {
      HeadsOnly(lanes, r1, r2, j - 1, x);
      HeadUses(lanes[j - 1], r1[j - 1], x);
      HeadUses(lanes[j - 1], r2[j - 1], x);
    }
  }

  function Full(lanes: seq<seq<Entry>>): seq<nat> {
    seq(|lanes|, i requires 0 <= i < |lanes| => |lanes[i]|)
  }

  /** One more step of callback `i` is one more use of its ID for every later callback. */
  lemma {:induction false} OneMoreUse(lanes: seq<seq<Entry>>, i: nat, m: nat, j: nat)
    requires i < j <= |lanes| && m < |lanes[i]|
    ensures var x := lanes[i][m].raw;
            UsesBefore(lanes, Full(lanes)[i := m + 1], j, x) == UsesBefore(lanes, Full(lanes)[i := m], j, x) + 1
    decreases j
  {
    var x, r1, r2 := lanes[i][m].raw, Full(lanes)[i := m], Full(lanes)[i := m + 1];
    if j == i + 1 {
      SameBefore(lanes, r1, r2, i, x);
      assert lanes[i][..m + 1] == lanes[i][..m] + [lanes[i][m]];
      UsesConcat(lanes[i][..m], [lanes[i][m]], x);
      UsesCons(lanes[i][m], [], x);
      assert [lanes[i][m]] + [] == [lanes[i][m]];
    } else {
      OneMoreUse(lanes, i, m, j - 1);
    }
  }

  lemma {:induction false} SameBefore(lanes: seq<seq<Entry>>, r1: seq<nat>, r2: seq<nat>, j: nat, x: string)
    requires j <= |lanes| && |r1| == |lanes| && |r2| == |lanes|
    requires forall i :: 0 <= i < |lanes| ==> r1[i] <= |lanes[i]| && r2[i] <= |lanes[i]|
    requires forall i :: 0 <= i < j ==> r1[i] == r2[i]
    ensures UsesBefore(lanes, r1, j, x) == UsesBefore(lanes, r2, j, x)
  {
    if j > 0 { SameBefore(lanes, r1, r2, j - 1, x); }
  }

  /** Two extents of callback `i` give different texts to a later use of an ID from its tail. */
  lemma TailUseMoves(c: Counts, lanes: seq<seq<Entry>>, i: nat, m: nat, j: nat, k: nat)
    requires i < j < |lanes| && 0 < m < |lanes[i]| && k < |lanes[j]| && lanes[j][k].raw == lanes[i][m].raw
    ensures !StableTexts(c, lanes)
  {
    hide PreHash, Uses, UsesBefore;
    var r1, r2, x := Full(lanes)[i := m], Full(lanes)[i := m + 1], lanes[i][m].raw;
    assert Reached(lanes, r1) && Reached(lanes, r2);
    OneMoreUse(lanes, i, m, j);
    var n := Count(c, x) + UsesBefore(lanes, r1, j, x) + Uses(lanes[j][..k], x);
    assert TextIn(c, lanes, r1, j, k) == PreHash(x, n) && TextIn(c, lanes, r2, j, k) == PreHash(x, n + 1);
    if PreHash(x, n) == PreHash(x, n + 1) { PreHashInjective(x, n, x, n + 1); }
  }

  /** No ID that callback `i` uses after its first step is used in callback `j`, for `i` before `j`. */
  ghost predicate TailsApart(lanes: seq<seq<Entry>>) {
    forall i, j, x :: 0 <= i < j < |lanes| && x in Raws(Tail(lanes[i])) ==> x !in Raws(lanes[j])
  }

  lemma ApartIsStable(c: Counts, lanes: seq<seq<Entry>>)
    requires TailsApart(lanes)
    ensures StableTexts(c, lanes)
  {
    hide Tail, Raws, PreHash;
    forall r1, r2, j, k | Reached(lanes, r1) && Reached(lanes, r2) && 0 <= j < |lanes| && 0 <= k < |lanes[j]|
      ensures TextIn(c, lanes, r1, j, k) == TextIn(c, lanes, r2, j, k)
    {
      RawOfLane(lanes[j], k);
      HeadsOnly(lanes, r1, r2, j, lanes[j][k].raw);
    }
  }

  lemma RawOfLane(lane: seq<Entry>, k: nat)
    requires k < |lane|
    ensures lane[k].raw in Raws(lane)
  {
  }

  lemma RawAt(lane: seq<Entry>, x: string) returns (k: nat)
    requires x in Raws(lane)
    ensures k < |lane| && lane[k].raw == x
  {
    var e :| e in lane && e.raw == x;
    k :| 0 <= k < |lane| && lane[k] == e;
  }

  /**
   * The condition on shared step IDs is exact: each step of a group has the same hashed ID in every
   * invocation if and only if no ID that a callback uses after its first step is used in a later callback.
   */
  lemma {:induction false} GroupIdsStableIff(c: Counts, lanes: seq<seq<Entry>>)
    ensures StableTexts(c, lanes) <==> TailsApart(lanes)
  {
    hide StableTexts, Raws;
    if TailsApart(lanes) {
      ApartIsStable(c, lanes);
    } else {
      var i, j, x :| 0 <= i < j < |lanes| && x in Raws(Tail(lanes[i])) && x in Raws(lanes[j]);
      var m := RawAt(Tail(lanes[i]), x);
      var k := RawAt(lanes[j], x);
      TailUseMoves(c, lanes, i, m + 1, j, k);
    }
  }

  lemma {:induction false} LaneRaws(lanes: seq<seq<Entry>>)
    ensures forall x :: x in Raws(LaneEntries(lanes)) <==> exists j :: 0 <= j < |lanes| && x in Raws(lanes[j])
  {
    if lanes != [] {
      var rest := lanes[1..];
      hide Raws;
      LaneRaws(rest);
      ConcatIds(lanes[0], LaneEntries(rest));
      forall x ensures x in Raws(LaneEntries(lanes)) <==> exists j :: 0 <= j < |lanes| && x in Raws(lanes[j]) {
        if x in Raws(LaneEntries(rest)) {
          var j :| 0 <= j < |rest| && x in Raws(rest[j]);
          assert lanes[j + 1] == rest[j];
        }
        if j :| 1 <= j < |lanes| && x in Raws(lanes[j]) {
          assert rest[j - 1] == lanes[j];
        }
      }
    }
  }

  /** It is the condition under which a group is planned. */
  lemma {:induction false} TailsUnusedIff(lanes: seq<seq<Entry>>)
    ensures TailsUnused(lanes) <==> TailsApart(lanes)
  {
    if lanes != [] {
      var rest, tail := lanes[1..], Raws(Tail(lanes[0]));
      TailsUnusedIff(rest);
      LaneRaws(rest);
      hide Raws, Tail, LaneEntries;
      assert forall j :: 0 <= j < |rest| ==> rest[j] == lanes[j + 1];
      Disjoint(tail, Raws(LaneEntries(rest)));
      assert TailsApart(lanes) <==>
             TailsApart(rest) && forall j, x :: 0 <= j < |rest| && x in tail ==> x !in Raws(rest[j]) by {
        ApartCons(lanes);
      }
    }
  }

  lemma Disjoint<T(!new)>(a: set<T>, b: set<T>)
    ensures a * b == {} <==> forall x :: x in a ==> x !in b
  {
    if a * b == {} {
      forall x | x in a ensures x !in b {
        assert x !in a * b;
      }
    }
  }

  lemma ApartCons(lanes: seq<seq<Entry>>)
    requires lanes != []
    ensures var rest := lanes[1..];
            TailsApart(lanes) <==>
              TailsApart(rest) && forall j, x :: 0 <= j < |rest| && x in Raws(Tail(lanes[0])) ==> x !in Raws(rest[j])
  {
    hide Raws, Tail;
    var rest := lanes[1..];
    assert forall j :: 0 <= j < |rest| ==> rest[j] == lanes[j + 1];
    assert forall j :: 1 <= j < |lanes| ==> lanes[j] == rest[j - 1];
  }

  lemma {:induction false} LaneEntriesSnoc(lanes: seq<seq<Entry>>, lane: seq<Entry>)
    ensures LaneEntries(lanes + [lane]) == LaneEntries(lanes) + lane
  {
    if lanes == [] {
      assert [] + [lane] == [lane] && [lane][1..] == [];
    } else {
      assert (lanes + [lane])[1..] == lanes[1..] + [lane];
      LaneEntriesSnoc(lanes[1..], lane);
      assert lanes[0] + (LaneEntries(lanes[1..]) + lane) == (lanes[0] + LaneEntries(lanes[1..])) + lane;
    }
  }

  lemma {:induction false} FullIsAll(lanes: seq<seq<Entry>>, j: nat, x: string)
    requires j <= |lanes|
    ensures UsesBefore(lanes, Full(lanes), j, x) == Uses(LaneEntries(lanes[..j]), x)
  {
    if j == 0 {
      assert lanes[..0] == [];
    } else {
      FullIsAll(lanes, j - 1, x);
      assert lanes[..j] == lanes[..j - 1] + [lanes[j - 1]];
      LaneEntriesSnoc(lanes[..j - 1], lanes[j - 1]);
      UsesConcat(LaneEntries(lanes[..j - 1]), lanes[j - 1], x);
      assert lanes[j - 1][..|lanes[j - 1]|] == lanes[j - 1];
    }
  }

  lemma {:induction false} LanesSplit(lanes: seq<seq<Entry>>, j: nat)
    requires j < |lanes|
    ensures LaneEntries(lanes[..j]) + lanes[j] <= LaneEntries(lanes)
    decreases |lanes|
  {
    if j == |lanes| - 1 {
      assert lanes == lanes[..j] + [lanes[j]];
      LaneEntriesSnoc(lanes[..j], lanes[j]);
    } else {
      var front := lanes[..|lanes| - 1];
      LanesSplit(front, j);
      assert front[..j] == lanes[..j] && lanes == front + [lanes[|lanes| - 1]];
      LaneEntriesSnoc(front, lanes[|lanes| - 1]);
    }
  }

  lemma PlannedText(c: Counts, lanes: seq<seq<Entry>>, j: nat, k: nat)
    requires IdsFollow(c, LaneEntries(lanes)) && j < |lanes| && k < |lanes[j]|
    ensures lanes[j][k].id == TextIn(c, lanes, Full(lanes), j, k)
  {
    hide PreHash, Uses;
    var before, all := LaneEntries(lanes[..j]), LaneEntries(lanes);
    LanesSplit(lanes, j);
    assert FollowsAt(c, all, |before| + k);
    assert all[|before| + k] == lanes[j][k] && all[..|before| + k] == before + lanes[j][..k];
    FullIsAll(lanes, j, lanes[j][k].raw);
    UsesConcat(before, lanes[j][..k], lanes[j][k].raw);
  }

  /** So a step of a planned group has its planned hashed ID however far the callbacks before it got. */
  lemma {:induction false} GroupIdsAreFixed(gas: nat, callbacks: seq<Prog>, c: Counts, su: Setup, reached: seq<nat>,
                                            j: nat, k: nat)
    requires PlanLanes(gas, callbacks, c, su).Some? && TailsUnused(PlanLanes(gas, callbacks, c, su).value.lanes)
    requires var lanes := PlanLanes(gas, callbacks, c, su).value.lanes;
             Reached(lanes, reached) && j < |lanes| && k < |lanes[j]|
    ensures var lanes := PlanLanes(gas, callbacks, c, su).value.lanes;
            lanes[j][k].id == TextIn(c, lanes, reached, j, k)
  {
    var lanes := PlanLanes(gas, callbacks, c, su).value.lanes;
    LaneIdsFollow(gas, callbacks, c, su);
    TailsUnusedIff(lanes);
    GroupIdsStableIff(c, lanes);
    hide PlanLanes, IdsFollow, TailsUnused, TailsApart;
    PlannedText(c, lanes, j, k);
    assert Reached(lanes, Full(lanes));
    assert TextIn(c, lanes, Full(lanes), j, k) == TextIn(c, lanes, reached, j, k);
  }
}
