/** What one invocation does on a program with a planned run, given correct memos of any part of it. */
module Replay {
  import opened Values
  import opened StepIds
  import opened Memos
  import opened Programs
  import opened Engine
  import opened Plans

  ghost predicate Quiet(fault: string -> Option<string>) {
    forall site :: fault(site).None?
  }

  /** A response that reports `e` as found: `step.run` is planned, any other operation goes to the server. */
  ghost predicate Announces(r: StepResponse, e: Entry) {
    && r.step.displayName == e.raw
    && r.step.id == e.id
    && r.step.op == (if e.op.StepRun? then Planned else e.op)
    && r.error.None?
  }

  ghost predicate AnnouncesAll(rs: seq<StepResponse>, es: seq<Entry>) {
    |rs| == |es| && forall i :: 0 <= i < |rs| ==> Announces(rs[i], es[i])
  }

  /** A response that carries what the handler of `e` returned. */
  ghost predicate Delivers(r: StepResponse, e: Entry) {
    && r.step.displayName == e.raw
    && r.step.id == e.id
    && r.step.op == StepRun
    && r.output == e.value
    && r.error.None?
  }

  /** A response that says the environment made the handler of `e` raise. */
  ghost predicate Fails(r: StepResponse, e: Entry) {
    r.step.id == e.id && r.error.Some? && r.error.value.Transient?
  }

  /** Every memo of a planned step holds the value of that step; `done` tells which of them have one. */
  ghost predicate MemosFit(es: seq<Entry>, memos: MemoMap, done: set<HashedId>, su: Setup) {
    forall i :: 0 <= i < |es| ==>
      && (es[i].id in memos <==> es[i].id in done)
      && (es[i].id in memos ==> memos[es[i].id] == Decode(su.parse, es[i].value))
  }

  ghost predicate CountsAgree(raws: set<string>, c: Counts, d: Counts) {
    forall x :: x in raws ==> Count(c, x) == Count(d, x)
  }

  /** Nothing outside the planned steps was counted or popped. */
  ghost predicate Framed(es: seq<Entry>, s: St, s': St) {
    && (forall x :: x !in Raws(es) ==> Count(s'.counts, x) == Count(s.counts, x))
    && (forall h :: h !in Ids(es) ==> (h in s'.memos <==> h in s.memos))
    && (forall h :: h !in Ids(es) && h in s.memos ==> s'.memos[h] == s.memos[h])
  }

  /** The request can target only a step that a handler resolves. */
  ghost predicate TargetRuns(es: seq<Entry>, rq: Request) {
    rq.target.Some? ==> forall i :: 0 <= i < |es| && es[i].id == rq.target.value ==> es[i].runs
  }

  /** The target is next in line; a flat piece of code may also wait for a target that lies elsewhere. */
  ghost predicate Reachable(segs: seq<Segment>, done: set<HashedId>, rq: Request) {
    rq.target.Some? && Frontier(segs, done) != [] ==>
      rq.target.value in Ids(Frontier(segs, done)) || Flat(segs)
  }

  /** The steps that never get memos have none, and are not targeted. */
  ghost predicate BarredApart(segs: seq<Segment>, done: set<HashedId>, rq: Request) {
    forall e :: e in Barred(segs) ==> e.id !in done && rq.target != Some(e.id)
  }

  ghost predicate Ready(pl: Plan, c: Counts, su: Setup, rq: Request, s: St, done: set<HashedId>) {
    && rq.disableImmediateExecution
    && DistinctIds(Entries(pl.segs))
    && CountsAgree(Raws(Entries(pl.segs)), s.counts, c)
    && MemosFit(Entries(pl.segs), s.memos, done, su)
    && TargetRuns(Entries(pl.segs), rq)
    && Reachable(pl.segs, done, rq)
    && BarredApart(pl.segs, done, rq)
  }

  function ResultOutcome(r: StepResult): Outcome {
    match r
    case Ok(v) => Returned(v)
    case Failed(e) => Threw(e)
  }

  /** The target's handler ran, and this is the response about it. */
  ghost predicate RanTarget(front: seq<Entry>, rq: Request, r: StepResponse) {
    exists e :: e in front && rq.target == Some(e.id) && (Delivers(r, e) || (!Quiet(rq.fault) && Fails(r, e)))
  }

  ghost predicate IsBodyFault(o: Outcome, steady: bool, rq: Request) {
    o.Threw? && o.e.Transient? && !steady && !Quiet(rq.fault)
  }

  /** The possible outcomes, by what the frontier looks like. */
  ghost predicate Explained(front: seq<Entry>, result: Outcome, steady: bool, rq: Request, o: Outcome) {
    || IsBodyFault(o, steady, rq)
    || (front == [] && o == result)
    || (front != [] && rq.target.None? && o.Interrupt? && AnnouncesAll(o.responses, front))
    || (front != [] && rq.target.Some? && rq.target.value in Ids(front)
        && o.Interrupt? && |o.responses| == 1 && RanTarget(front, rq, o.responses[0]))
    || (front != [] && rq.target.Some? && rq.target.value !in Ids(front) && o.Skip?)
  }

  /**
   * What the log gains: a success exactly when the response delivers one. Code that comes to its end may have
   * lost the response of a handler, but only when a later callback of a group threw.
   */
  ghost predicate Logged(calm: bool, rq: Request, s: St, o: Outcome, s': St) {
    && (rq.target.None? ==> Successes(s'.log) == Successes(s.log))
    && (calm || o.Interrupt? || o.Skip? ==>
          Successes(s'.log) == Successes(s.log) +
            (if rq.target.Some? && o.Interrupt? && |o.responses| == 1 && o.responses[0].error.None?
             then multiset{rq.target.value} else multiset{}))
  }

  // ----- Concatenation facts -----

  lemma ConcatIds(a: seq<Entry>, b: seq<Entry>)
    ensures Ids(a + b) == Ids(a) + Ids(b) && Raws(a + b) == Raws(a) + Raws(b)
  {
  }

  lemma ConcatDistinct(a: seq<Entry>, b: seq<Entry>)
    requires DistinctIds(a + b)
    ensures DistinctIds(a) && DistinctIds(b) && Ids(a) !! Ids(b)
  {
    var c := a + b;
    assert forall i :: 0 <= i < |a| ==> c[i] == a[i];
    assert forall i :: 0 <= i < |b| ==> c[|a| + i] == b[i];
    forall x, y | x in a && y in b ensures x.id != y.id {
      var i :| 0 <= i < |a| && a[i] == x;
      var j :| 0 <= j < |b| && b[j] == y;
      assert c[i].id != c[|a| + j].id;
    }
  }

  lemma ConcatMemosFit(a: seq<Entry>, b: seq<Entry>, memos: MemoMap, done: set<HashedId>, su: Setup)
    requires MemosFit(a + b, memos, done, su)
    ensures MemosFit(a, memos, done, su) && MemosFit(b, memos, done, su)
  {
    var c := a + b;
    assert forall i :: 0 <= i < |a| ==> c[i] == a[i];
    assert forall i :: 0 <= i < |b| ==> c[|a| + i] == b[i];
  }

  lemma ConcatTargetRuns(a: seq<Entry>, b: seq<Entry>, rq: Request)
    requires TargetRuns(a + b, rq)
    ensures TargetRuns(a, rq) && TargetRuns(b, rq)
  {
    var c := a + b;
    assert forall i :: 0 <= i < |a| ==> c[i] == a[i];
    assert forall i :: 0 <= i < |b| ==> c[|a| + i] == b[i];
  }

  lemma MemosFitKept(es: seq<Entry>, off: seq<Entry>, s: St, s': St, done: set<HashedId>, su: Setup)
    requires MemosFit(es, s.memos, done, su) && Framed(off, s, s') && Ids(es) !! Ids(off)
    ensures MemosFit(es, s'.memos, done, su)
  {
    forall i | 0 <= i < |es|
      ensures (es[i].id in s'.memos <==> es[i].id in done)
      ensures es[i].id in s'.memos ==> s'.memos[es[i].id] == Decode(su.parse, es[i].value)
    {
      assert es[i].id in Ids(es);
    }
  }

  lemma FramedTrans(a: seq<Entry>, b: seq<Entry>, s: St, s1: St, s2: St)
    requires Framed(a, s, s1) && Framed(b, s1, s2)
    ensures Framed(a + b, s, s2)
  {
    ConcatIds(a, b);
  }

  lemma FramedMore(a: seq<Entry>, b: seq<Entry>, s: St, s1: St)
    requires Framed(a, s, s1)
    ensures Framed(a + b, s, s1)
  {
    ConcatIds(a, b);
  }

  // ----- Plans count what they use -----

  lemma {:induction false} PlanCounts(gas: nat, p: Prog, c: Counts, su: Setup)
    requires PlanOf(gas, p, c, su).Some?
    ensures var pl := PlanOf(gas, p, c, su).value;
            forall x :: x !in Raws(Entries(pl.segs)) ==> Count(pl.counts, x) == Count(c, x)
    decreases gas, 0
  {
    match p
    case Return(_) =>
    case Raise(_) =>
    case Flaky(_, next) => PlanCounts(gas - 1, next, c, su);
    case Step(id, op, handler, k) =>
      var value := PlanStep(gas - 1, id, op, handler, su).value;
      var e := Entry(id, PreHash(id, Count(c, id)), op, value, op.StepRun? && id !in su.stubs);
      var next := k(MemoResult(Decode(su.parse, value)));
      var rest := PlanOf(gas - 1, next, Bump(c, id), su).value;
      PlanCounts(gas - 1, next, Bump(c, id), su);
      EntriesCons(One(e), rest.segs);
      assert [e][0] in [e];
      ConcatIds([e], Entries(rest.segs));
    case Parallel(callbacks, mode, gk) => GroupCounts(gas - 1, callbacks, mode, gk, PlanOf(gas, p, c, su).value, c, su);
  }

  lemma {:induction false} GroupCounts(gas: nat, callbacks: seq<Prog>, mode: ParallelMode, gk: GroupResult -> Prog,
                                       pl: Plan,
                                       c: Counts, su: Setup)
    requires PlanOf(gas + 1, Parallel(callbacks, mode, gk), c, su) == Some(pl)
    ensures forall x :: x !in Raws(Entries(pl.segs)) ==> Count(pl.counts, x) == Count(c, x)
    decreases gas, |callbacks| + 1
  {
    hide PlanOf, PlanLanes, PlanHeads, FailsAtOnce, TailsUnused, Count;
    if FailsAtOnce(gas, callbacks, c, su) {
      var hs, rest := UnfoldFailing(gas, callbacks, mode, gk, pl, c, su);
      HeadsCounted(gas, callbacks, c, su);
      PlanCounts(gas, gk(GroupFailed(hs.e)), hs.counts, su);
      EntriesCons(Heads(hs.lanes), rest.segs);
      ConcatIds(HeadEntries(hs.lanes), Entries(rest.segs));
      CountedElsewhere(c, HeadEntries(hs.lanes), hs.counts);
    } else {
      var ls, rest := UnfoldGroup(gas, callbacks, mode, gk, pl, c, su);
      LanesCounts(gas, callbacks, c, su);
      PlanCounts(gas, gk(ls.Result()), ls.counts, su);
      EntriesCons(Lanes(ls.lanes, ls.Decides()), rest.segs);
      ConcatIds(LaneEntries(ls.lanes), Entries(rest.segs));
    }
  }

  lemma CountedElsewhere(c: Counts, es: seq<Entry>, d: Counts)
    requires Counted(c, es, d)
    ensures forall x :: x !in Raws(es) ==> Count(d, x) == Count(c, x)
  {
    forall x | x !in Raws(es) ensures Count(d, x) == Count(c, x) {
      UsesNone(es, x);
    }
  }

  /** A group that fails at once counts the first steps of the callbacks before. */
  lemma {:induction false} HeadsCounted(gas: nat, callbacks: seq<Prog>, c: Counts, su: Setup)
    requires PlanHeads(gas, callbacks, c, su).Some?
    ensures var hs := PlanHeads(gas, callbacks, c, su).value; Counted(c, HeadEntries(hs.lanes), hs.counts)
    decreases |callbacks|
  {
    hide PlanOf, Counted, Uses, Bump, Entries;
    var first := PlanOf(gas, callbacks[0], c, su).value;
    if first.result.Failed? {
      assert HeadEntries([]) == [];
      CountedNothing(c);
    } else {
      var lane := Entries(first.segs);
      var rest := PlanHeads(gas, callbacks[1..], CountHead(lane, c), su).value;
      HeadsCounted(gas, callbacks[1..], CountHead(lane, c), su);
      assert ([lane] + rest.lanes)[1..] == rest.lanes;
      if lane != [] {
        CountedCons(c, lane[0], HeadEntries(rest.lanes), rest.counts);
      } else {
        assert [] + HeadEntries(rest.lanes) == HeadEntries(rest.lanes);
      }
    }
  }

  lemma {:induction false} LanesCounts(gas: nat, callbacks: seq<Prog>, c: Counts, su: Setup)
    requires PlanLanes(gas, callbacks, c, su).Some?
    ensures var ls := PlanLanes(gas, callbacks, c, su).value;
            forall x :: x !in Raws(LaneEntries(ls.lanes)) ==> Count(ls.counts, x) == Count(c, x)
    decreases gas, |callbacks|
  {
    if callbacks != [] {
      var first := PlanOf(gas, callbacks[0], c, su).value;
      var rest := PlanLanes(gas, callbacks[1..], first.counts, su).value;
      PlanCounts(gas, callbacks[0], c, su);
      LanesCounts(gas, callbacks[1..], first.counts, su);
      LaneEntriesCons(Entries(first.segs), rest.lanes);
      ConcatIds(Entries(first.segs), LaneEntries(rest.lanes));
    }
  }

  lemma {:induction false} UsesNone(es: seq<Entry>, raw: string)
    requires raw !in Raws(es)
    ensures Uses(es, raw) == 0
  {
    if es != [] {
      assert es[0] in es;
      forall e | e in es[1..] ensures e.raw != raw { assert e in es; }
      UsesNone(es[1..], raw);
    }
  }

  lemma UsesCons(e: Entry, es: seq<Entry>, raw: string)
    ensures Uses([e] + es, raw) == (if e.raw == raw then 1 else 0) + Uses(es, raw)
  {
    assert ([e] + es)[1..] == es;
  }

  lemma {:induction false} UsesConcat(a: seq<Entry>, b: seq<Entry>, raw: string)
    ensures Uses(a + b, raw) == Uses(a, raw) + Uses(b, raw)
  {
    if a == [] {
      assert a + b == b;
    } else {
      assert (a + b)[1..] == a[1..] + b;
      UsesConcat(a[1..], b, raw);
    }
  }

  /** `d` counts what `c` counts and the uses in `es`. */
  ghost predicate Counted(c: Counts, es: seq<Entry>, d: Counts) {
    forall x :: Count(d, x) == Count(c, x) + Uses(es, x)
  }

  lemma CountedNothing(c: Counts)
    ensures Counted(c, [], c)
  {
  }

  lemma CountedCons(c: Counts, e: Entry, es: seq<Entry>, d: Counts)
    requires Counted(Bump(c, e.raw), es, d)
    ensures Counted(c, [e] + es, d)
  {
    forall x ensures Count(d, x) == Count(c, x) + Uses([e] + es, x) {
      UsesCons(e, es, x);
    }
  }

  lemma CountedOne(c: Counts, e: Entry)
    ensures Counted(c, [e], Bump(c, e.raw))
  {
    CountedNothing(Bump(c, e.raw));
    CountedCons(c, e, [], Bump(c, e.raw));
    assert [e] + [] == [e];
  }

  lemma GroupIsNotFlat(gas: nat, callbacks: seq<Prog>, mode: ParallelMode, gk: GroupResult -> Prog, c: Counts,
                       su: Setup)
    requires PlanOf(gas, Parallel(callbacks, mode, gk), c, su).Some?
    ensures !Flat(PlanOf(gas, Parallel(callbacks, mode, gk), c, su).value.segs)
    ensures PlanOf(gas, Parallel(callbacks, mode, gk), c, su).value.segs != []
  {
    var pl := PlanOf(gas, Parallel(callbacks, mode, gk), c, su).value;
    hide PlanOf;
    if FailsAtOnce(gas - 1, callbacks, c, su) {
      var hs, rest := UnfoldFailing(gas - 1, callbacks, mode, gk, pl, c, su);
    } else {
      var ls, rest := UnfoldGroup(gas - 1, callbacks, mode, gk, pl, c, su);
    }
    assert !pl.segs[0].One?;
  }

  /** The plan of a flat piece of code counts each of its steps. */
  lemma {:induction false} FlatCounts(gas: nat, p: Prog, c: Counts, su: Setup)
    requires PlanOf(gas, p, c, su).Some? && Flat(PlanOf(gas, p, c, su).value.segs)
    ensures var pl := PlanOf(gas, p, c, su).value; Counted(c, Entries(pl.segs), pl.counts)
    decreases gas
  {
    var pl := PlanOf(gas, p, c, su).value;
    match p
    case Return(_) => CountedNothing(c);
    case Raise(_) => CountedNothing(c);
    case Flaky(_, next) => FlatCounts(gas - 1, next, c, su);
    case Parallel(callbacks, mode, gk) =>
      GroupIsNotFlat(gas, callbacks, mode, gk, c, su);
      assert false;
    case Step(id, op, handler, k) =>
      var value := PlanStep(gas - 1, id, op, handler, su).value;
      var e := Entry(id, PreHash(id, Count(c, id)), op, value, op.StepRun? && id !in su.stubs);
      var next := k(MemoResult(Decode(su.parse, value)));
      var rest := PlanOf(gas - 1, next, Bump(c, id), su).value;
      hide PlanOf, PlanStep, Counted, Bump, Uses;
      assert StartsWith(pl, e, rest);
      StartsWithFacts(pl, e, rest, {});
      FlatCounts(gas - 1, next, Bump(c, id), su);
      CountedCons(c, e, Entries(rest.segs), rest.counts);
  }

  /** The frontier of a flat piece of code is that of its steps taken as one lane. */
  lemma {:induction false} FlatFrontier(segs: seq<Segment>, done: set<HashedId>)
    requires Flat(segs)
    ensures Frontier(segs, done) == LaneFront(Entries(segs), done)
  {
    if segs != [] {
      assert segs[0].One?;
      assert Flat(segs[1..]);
      FlatFrontier(segs[1..], done);
      assert ([segs[0].e] + Entries(segs[1..]))[1..] == Entries(segs[1..]);
    }
  }

  lemma {:induction false} FrontInEntries(segs: seq<Segment>, done: set<HashedId>)
    ensures forall e :: e in Frontier(segs, done) ==> e in Entries(segs) && e in Steps(segs) && e.id !in done
  {
    if segs != [] {
      if segs[0].Lanes? { FrontsInEntries(segs[0].lanes, done); }
      FrontInEntries(segs[1..], done);
    }
  }

  lemma {:induction false} FrontsInEntries(lanes: seq<seq<Entry>>, done: set<HashedId>)
    ensures forall e :: e in Fronts(lanes, done) ==> e in LaneEntries(lanes) && e.id !in done
  {
    if lanes != [] {
      LaneFrontInLane(lanes[0], done);
      FrontsInEntries(lanes[1..], done);
    }
  }

  lemma {:induction false} LaneFrontInLane(lane: seq<Entry>, done: set<HashedId>)
    ensures |LaneFront(lane, done)| <= 1
    ensures forall e :: e in LaneFront(lane, done) ==> e in lane && e.id !in done
  {
    if lane != [] {
      LaneFrontInLane(lane[1..], done);
    }
  }

  // ----- One invocation -----

  /** A handler that contains no steps returns its value unless the environment makes it raise. */
  lemma {:induction false} PlainHandler(gas: nat, p: Prog, c: Counts, su: Setup, rq: Request, cx: Context, s: St)
    requires PlanOf(gas, p, c, su).Some? && PlanOf(gas, p, c, su).value.segs == []
    ensures var (o, s') := Exec(gas, p, rq, cx, s);
            && s' == s
            && (o == ResultOutcome(PlanOf(gas, p, c, su).value.result)
                || IsBodyFault(o, PlanOf(gas, p, c, su).value.steady, rq))
    decreases gas
  {
    match p
    case Return(_) =>
    case Raise(_) =>
    case Flaky(site, next) =>
      if rq.fault(site).None? { PlainHandler(gas - 1, next, c, su, rq, cx, s); }
    case Step(_, _, _, _) => assert false;
    case Parallel(callbacks, mode, gk) =>
      GroupIsNotFlat(gas, callbacks, mode, gk, c, su);
      assert false;
  }

  /** Everything the replay theorem needs to know about running planned code from `s`. */
  ghost predicate Behaves(pl: Plan, done: set<HashedId>, rq: Request, s: St, r: (Outcome, St)) {
    && Explained(Frontier(pl.segs, done), ResultOutcome(pl.result), pl.steady, rq, r.0)
    && Framed(Entries(pl.segs), s, r.1)
    && (Flat(pl.segs) && Frontier(pl.segs, done) == [] && !IsBodyFault(r.0, pl.steady, rq) ==>
          CountsAgree(Raws(Entries(pl.segs)), r.1.counts, pl.counts))
    && Logged(pl.calm, rq, s, r.0, r.1)
  }

  lemma {:induction false} ExecPlan(gas: nat, p: Prog, c: Counts, su: Setup, rq: Request, cx: Context, s: St,
                                    done: set<HashedId>)
    requires PlanOf(gas, p, c, su).Some? && !cx.inStep
    requires Ready(PlanOf(gas, p, c, su).value, c, su, rq, s, done)
    ensures Behaves(PlanOf(gas, p, c, su).value, done, rq, s, Exec(gas, p, rq, cx, s))
    decreases gas, 0
  {
    match p
    case Return(_) =>
    case Raise(_) =>
    case Flaky(site, next) =>
      if rq.fault(site).None? { ExecPlan(gas - 1, next, c, su, rq, cx, s, done); }
    case Step(id, op, handler, k) =>
      ExecPlanStep(gas - 1, id, op, handler, k, PlanOf(gas, p, c, su).value, c, su, rq, cx, s, done);
    case Parallel(callbacks, mode, gk) =>
      if FailsAtOnce(gas - 1, callbacks, c, su) {
        ExecPlanHeads(gas - 1, callbacks, mode, gk, PlanOf(gas, p, c, su).value, c, su, rq, cx, s, done);
      } else {
        ExecPlanGroup(gas - 1, callbacks, mode, gk, PlanOf(gas, p, c, su).value, c, su, rq, cx, s, done);
      }
  }

  // ----- A single step, then the rest -----

  /** `pl` is the step `e` followed by `rest`. */
  ghost predicate StartsWith(pl: Plan, e: Entry, rest: Plan) {
    pl == rest.(segs := [One(e)] + rest.segs)
  }

  lemma StartsWithFacts(pl: Plan, e: Entry, rest: Plan, done: set<HashedId>)
    requires StartsWith(pl, e, rest)
    ensures Entries(pl.segs) == [e] + Entries(rest.segs)
    ensures Raws(Entries(pl.segs)) == {e.raw} + Raws(Entries(rest.segs))
    ensures Ids(Entries(pl.segs)) == {e.id} + Ids(Entries(rest.segs))
    ensures Raws([e]) == {e.raw} && Ids([e]) == {e.id}
    ensures Frontier(pl.segs, done) == if e.id in done then Frontier(rest.segs, done) else [e]
    ensures Flat(pl.segs) == Flat(rest.segs) && Barred(pl.segs) == Barred(rest.segs)
  {
    EntriesCons(One(e), rest.segs);
    assert forall x :: x in [e] ==> x == e;
    assert e in [e];
    ConcatIds([e], Entries(rest.segs));
    assert pl.segs[1..] == rest.segs;
    assert pl.segs[0].One? && forall i :: 0 <= i < |rest.segs| ==> pl.segs[i + 1] == rest.segs[i];
    if Flat(pl.segs) { assert Flat(rest.segs); }
  }

  lemma PopFramed(e: Entry, s: St)
    ensures var s2 := PopMemo(e.id, CountStep(e.raw, s));
            Framed([e], s, s2) && s2.counts == Bump(s.counts, e.raw)
  {
    PopShape(e.id, e.raw, s);
    hide PopMemo, CountStep, Bump, Count;
    assert e in [e];
    BumpElsewhere(s.counts, e.raw);
  }

  lemma PopShape(h: HashedId, id: string, s: St)
    ensures var s2 := PopMemo(h, CountStep(id, s)); s2.memos == s.memos - {h} && s2.counts == Bump(s.counts, id)
  {
  }

  lemma BumpElsewhere(c: Counts, raw: string)
    ensures forall x :: x != raw ==> Count(Bump(c, raw), x) == Count(c, x)
  {
  }

  lemma PopFacts(e: Entry, s: St)
    ensures var s2 := PopMemo(e.id, CountStep(e.raw, s));
            && Framed([e], s, s2)
            && Successes(s2.log) == Successes(s.log)
            && s2.counts == Bump(s.counts, e.raw)
  {
    PopFramed(e, s);
    hide Framed, Bump;
    SuccessesSnoc(s.log, BeforeExecution);
  }

  lemma ReadyAfterPop(pl: Plan, e: Entry, rest: Plan, c: Counts, su: Setup, rq: Request, s: St, done: set<HashedId>)
    requires StartsWith(pl, e, rest) && Ready(pl, c, su, rq, s, done) && e.id in done
    ensures Ready(rest, Bump(c, e.raw), su, rq, PopMemo(e.id, CountStep(e.raw, s)), done)
  {
    hide Frontier, TargetRuns, PopMemo, LaneEntries, Entries, DistinctIds;
    var es := Entries(rest.segs);
    var s2 := PopMemo(e.id, CountStep(e.raw, s));
    StartsWithFacts(pl, e, rest, done);
    PopFacts(e, s);
    ConcatDistinct([e], es);
    ConcatMemosFit([e], es, s.memos, done, su);
    ConcatTargetRuns([e], es, rq);
    MemosFitKept(es, [e], s, s2, done, su);
  }

  lemma BehavesAfterPop(pl: Plan, e: Entry, rest: Plan, c: Counts, rq: Request, s: St, done: set<HashedId>,
                        r: (Outcome, St))
    requires StartsWith(pl, e, rest) && e.id in done
    requires CountsAgree(Raws(Entries(pl.segs)), s.counts, c)
    requires e.raw !in Raws(Entries(rest.segs)) ==> Count(rest.counts, e.raw) == Count(Bump(c, e.raw), e.raw)
    requires Behaves(rest, done, rq, PopMemo(e.id, CountStep(e.raw, s)), r)
    ensures Behaves(pl, done, rq, s, r)
  {
    var s2 := PopMemo(e.id, CountStep(e.raw, s));
    StartsWithFacts(pl, e, rest, done);
    PopFacts(e, s);
    FramedTrans([e], Entries(rest.segs), s, s2, r.1);
  }

  lemma BehavesStuck(pl: Plan, e: Entry, rest: Plan, rq: Request, cx: Context, s: St, done: set<HashedId>,
                     r: (Outcome, St))
    requires StartsWith(pl, e, rest) && e.id !in done && rq.target != Some(e.id) && rq.disableImmediateExecution
    requires r.1 == PopMemo(e.id, CountStep(e.raw, s))
    requires r.0 == StuckOutcome(StepInfo(e.raw, e.id, e.op, false), rq, cx)
    ensures Behaves(pl, done, rq, s, r)
  {
    hide PopMemo, Framed, Frontier, Entries, CountsAgree, Successes;
    StartsWithFacts(pl, e, rest, done);
    PopFacts(e, s);
    FramedMore([e], Entries(rest.segs), s, r.1);
  }

  /** `step.run` called its handler, which ended with `o`. */
  ghost predicate Ran(e: Entry, rq: Request, s: St, o: Outcome, r: (Outcome, St)) {
    var s2 := PopMemo(e.id, CountStep(e.raw, s));
    && (o == Returned(e.value) || (o.Threw? && o.e.Transient? && !Quiet(rq.fault)))
    && r.0 == HandlerOutcome(o, StepInfo(e.raw, e.id, StepRun, false), rq)
    && r.1 == s2.(log := s2.log + [HandlerStart(e.id)] + [HandlerEnd(e.id, o.Returned?)])
  }

  lemma RanLogged(calm: bool, e: Entry, rq: Request, s: St, o: Outcome, r: (Outcome, St))
    requires Ran(e, rq, s, o, r) && rq.target == Some(e.id)
    ensures Logged(calm, rq, s, r.0, r.1) && Framed([e], s, r.1)
  {
    var s2 := PopMemo(e.id, CountStep(e.raw, s));
    PopFacts(e, s);
    SuccessesSnoc(s2.log, HandlerStart(e.id));
    SuccessesSnoc(s2.log + [HandlerStart(e.id)], HandlerEnd(e.id, o.Returned?));
  }

  lemma BehavesRun(pl: Plan, e: Entry, rest: Plan, rq: Request, s: St, done: set<HashedId>, o: Outcome,
                   r: (Outcome, St))
    requires StartsWith(pl, e, rest) && e.id !in done && rq.target == Some(e.id)
    requires Ran(e, rq, s, o, r)
    ensures Behaves(pl, done, rq, s, r)
  {
    StartsWithFacts(pl, e, rest, done);
    RanLogged(pl.calm, e, rq, s, o, r);
    FramedMore([e], Entries(rest.segs), s, r.1);
    assert e in [e];
    assert RanTarget([e], rq, r.0.responses[0]);
  }

  lemma HandlerRan(gas: nat, handler: Prog, e: Entry, su: Setup, rq: Request, cx: Context, s: St) returns (o: Outcome)
    requires PlanOf(gas, handler, map[], su).Some? && PlanOf(gas, handler, map[], su).value.segs == []
    requires PlanOf(gas, handler, map[], su).value.result == Ok(e.value)
    ensures var s2 := PopMemo(e.id, CountStep(e.raw, s));
            Ran(e, rq, s, o, RunHandler(gas, handler, StepInfo(e.raw, e.id, StepRun, false), rq, cx, s2))
  {
    var s2 := PopMemo(e.id, CountStep(e.raw, s));
    var started := s2.(log := s2.log + [HandlerStart(e.id)]);
    PlainHandler(gas, handler, map[], su, rq, cx.(inStep := true), started);
    o := Exec(gas, handler, rq, cx.(inStep := true), started).0;
  }

  /** `e` and `rest` are what the planned run makes of a step call; `next` is the code after it. */
  ghost predicate PlannedStep(gas: nat, e: Entry, next: Prog, rest: Plan, id: string, op: Opcode, handler: Prog,
                              k: StepResult -> Prog, c: Counts, su: Setup) {
    && PlanStep(gas, id, op, handler, su) == Some(e.value)
    && e == Entry(id, PreHash(id, Count(c, id)), op, e.value, op.StepRun? && id !in su.stubs)
    && next == k(MemoResult(Decode(su.parse, e.value)))
    && PlanOf(gas, next, Bump(c, id), su) == Some(rest)
  }

  lemma UnfoldStep(gas: nat, id: string, op: Opcode, handler: Prog, k: StepResult -> Prog, pl: Plan, c: Counts,
                   su: Setup)
    returns (e: Entry, next: Prog, rest: Plan)
    requires PlanOf(gas + 1, Step(id, op, handler, k), c, su) == Some(pl)
    ensures PlannedStep(gas, e, next, rest, id, op, handler, k, c, su) && StartsWith(pl, e, rest)
  {
    var value := PlanStep(gas, id, op, handler, su).value;
    e := Entry(id, PreHash(id, Count(c, id)), op, value, op.StepRun? && id !in su.stubs);
    next := k(MemoResult(Decode(su.parse, value)));
    rest := PlanOf(gas, next, Bump(c, id), su).value;
  }

  lemma StepMemoized(gas: nat, e: Entry, next: Prog, rest: Plan, id: string, op: Opcode, handler: Prog,
                     k: StepResult -> Prog,
                     pl: Plan, c: Counts, su: Setup, rq: Request, cx: Context, s: St, done: set<HashedId>)
    requires PlannedStep(gas, e, next, rest, id, op, handler, k, c, su) && StartsWith(pl, e, rest)
    requires Ready(pl, c, su, rq, s, done) && !cx.inStep && e.id in done
    ensures ExecStep(gas, id, op, handler, k, rq, cx, s) == Exec(gas, next, rq, cx, PopMemo(e.id, CountStep(id, s)))
  {
    PlannedInfo(e, pl, rest, c, su, rq, s, done);
    hide Ready, PopMemo, Exec, PlanOf, PlanStep;
  }

  /** What a step call without a memo comes to when it is not the target. */
  function StuckOutcome(info: StepInfo, rq: Request, cx: Context): Outcome {
    if rq.target.Some? then Skip(info.displayName)
    else if cx.inParallel || info.op.StepRun? then Respond(PlanInfo(info))
    else Respond(info)
  }

  lemma StuckStep(gas: nat, id: string, op: Opcode, handler: Prog, k: StepResult -> Prog, rq: Request, cx: Context,
                  s: St)
    requires var info := InfoOf(id, op, s);
             info.id !in s.memos && rq.target != Some(info.id) && rq.disableImmediateExecution
    ensures var info := InfoOf(id, op, s);
            ExecStep(gas, id, op, handler, k, rq, cx, s) ==
              (StuckOutcome(info, rq, cx), PopMemo(info.id, CountStep(id, s)))
  {
    hide PopMemo;
  }

  lemma PlannedInfo(e: Entry, pl: Plan, rest: Plan, c: Counts, su: Setup, rq: Request, s: St, done: set<HashedId>)
    requires StartsWith(pl, e, rest) && Ready(pl, c, su, rq, s, done) && e.id == PreHash(e.raw, Count(c, e.raw))
    ensures InfoOf(e.raw, e.op, s) == StepInfo(e.raw, e.id, e.op, false)
    ensures e.id in s.memos <==> e.id in done
    ensures e.id in done ==> s.memos[e.id] == Decode(su.parse, e.value)
    ensures rq.target == Some(e.id) ==> e.runs
  {
    hide Frontier, Reachable, DistinctIds;
    StartsWithFacts(pl, e, rest, done);
    assert Entries(pl.segs)[0] == e;
    assert e.raw in Raws(Entries(pl.segs));
  }

  lemma StepStuck(gas: nat, e: Entry, next: Prog, rest: Plan, id: string, op: Opcode, handler: Prog,
                  k: StepResult -> Prog,
                  pl: Plan, c: Counts, su: Setup, rq: Request, cx: Context, s: St, done: set<HashedId>)
    requires PlannedStep(gas, e, next, rest, id, op, handler, k, c, su) && StartsWith(pl, e, rest)
    requires Ready(pl, c, su, rq, s, done) && !cx.inStep && e.id !in done && rq.target != Some(e.id)
    ensures Behaves(pl, done, rq, s, ExecStep(gas, id, op, handler, k, rq, cx, s))
  {
    PlannedInfo(e, pl, rest, c, su, rq, s, done);
    StuckStep(gas, id, op, handler, k, rq, cx, s);
    hide Behaves, ExecStep, PopMemo;
    BehavesStuck(pl, e, rest, rq, cx, s, done, ExecStep(gas, id, op, handler, k, rq, cx, s));
  }

  lemma StepTargeted(gas: nat, e: Entry, next: Prog, rest: Plan, id: string, op: Opcode, handler: Prog,
                     k: StepResult -> Prog,
                     pl: Plan, c: Counts, su: Setup, rq: Request, cx: Context, s: St, done: set<HashedId>)
    requires PlannedStep(gas, e, next, rest, id, op, handler, k, c, su) && StartsWith(pl, e, rest)
    requires Ready(pl, c, su, rq, s, done) && !cx.inStep && e.id !in done && rq.target == Some(e.id)
    ensures Behaves(pl, done, rq, s, ExecStep(gas, id, op, handler, k, rq, cx, s))
  {
    TargetIsFresh(gas, e, next, rest, id, op, handler, k, pl, c, su, rq, cx, s, done);
    var info := StepInfo(e.raw, e.id, StepRun, false);
    var r := RunHandler(gas, handler, info, rq, cx, PopMemo(e.id, CountStep(id, s)));
    var o := HandlerRan(gas, handler, e, su, rq, cx, s);
    FreshStep(gas, id, op, handler, k, rq, cx, s);
    assert !r.0.Threw?;
    BehavesRun(pl, e, rest, rq, s, done, o, r);
  }

  lemma TargetIsFresh(gas: nat, e: Entry, next: Prog, rest: Plan, id: string, op: Opcode, handler: Prog,
                      k: StepResult -> Prog,
                      pl: Plan, c: Counts, su: Setup, rq: Request, cx: Context, s: St, done: set<HashedId>)
    requires PlannedStep(gas, e, next, rest, id, op, handler, k, c, su) && StartsWith(pl, e, rest)
    requires Ready(pl, c, su, rq, s, done) && !cx.inStep && e.id !in done && rq.target == Some(e.id)
    ensures e.raw == id && op.StepRun? && InfoOf(id, op, s) == StepInfo(e.raw, e.id, StepRun, false)
    ensures ReportStep(InfoOf(id, op, s), rq, cx, CountStep(id, s)) == Fresh
    ensures var h := PlanOf(gas, handler, map[], su);
            h.Some? && h.value.segs == [] && h.value.result == Ok(e.value)
  {
    PlannedInfo(e, pl, rest, c, su, rq, s, done);
    hide Ready, PopMemo;
  }

  lemma FreshStep(gas: nat, id: string, op: Opcode, handler: Prog, k: StepResult -> Prog, rq: Request, cx: Context,
                  s: St)
    requires ReportStep(InfoOf(id, op, s), rq, cx, CountStep(id, s)) == Fresh && !cx.inStep
    ensures var info := InfoOf(id, op, s);
            var r := RunHandler(gas, handler, info, rq, cx, PopMemo(info.id, CountStep(id, s)));
            !r.0.Threw? ==> ExecStep(gas, id, op, handler, k, rq, cx, s) == r
  {
  }

  lemma ReadyCounts(pl: Plan, c: Counts, su: Setup, rq: Request, s: St, done: set<HashedId>)
    requires Ready(pl, c, su, rq, s, done)
    ensures CountsAgree(Raws(Entries(pl.segs)), s.counts, c)
  {
  }

  lemma {:induction false} ExecPlanStep(gas: nat, id: string, op: Opcode, handler: Prog, k: StepResult -> Prog,
                                        pl: Plan,
                                        c: Counts, su: Setup, rq: Request, cx: Context, s: St, done: set<HashedId>)
    requires PlanOf(gas + 1, Step(id, op, handler, k), c, su) == Some(pl) && !cx.inStep
    requires Ready(pl, c, su, rq, s, done)
    ensures Behaves(pl, done, rq, s, ExecStep(gas, id, op, handler, k, rq, cx, s))
    decreases gas, 2
  {
    hide PlanOf, PlanStep, StartsWith, Ready, Behaves, Exec, ExecStep, PopMemo;
    var e, next, rest := UnfoldStep(gas, id, op, handler, k, pl, c, su);
    if e.id in done {
      StepMemoized(gas, e, next, rest, id, op, handler, k, pl, c, su, rq, cx, s, done);
      ReadyAfterPop(pl, e, rest, c, su, rq, s, done);
      var s2 := PopMemo(e.id, CountStep(id, s));
      ExecPlan(gas, next, Bump(c, id), su, rq, cx, s2, done);
      PlanCounts(gas, next, Bump(c, id), su);
      ReadyCounts(pl, c, su, rq, s, done);
      BehavesAfterPop(pl, e, rest, c, rq, s, done, Exec(gas, next, rq, cx, s2));
    } else if rq.target == Some(e.id) {
      StepTargeted(gas, e, next, rest, id, op, handler, k, pl, c, su, rq, cx, s, done);
    } else {
      StepStuck(gas, e, next, rest, id, op, handler, k, pl, c, su, rq, cx, s, done);
    }
  }

  // ----- How far a callback gets -----

  /**
   * An invocation that does not throw in a flat piece of code counts a first part of its steps, the first one
   * included; which part, depends on the memos.
   */
  lemma {:induction false} ReachedPrefix(gas: nat, p: Prog, c: Counts, su: Setup, rq: Request, cx: Context, s: St,
                                         done: set<HashedId>)
    returns (r: nat)
    requires PlanOf(gas, p, c, su).Some? && Flat(PlanOf(gas, p, c, su).value.segs) && !cx.inStep
    requires Ready(PlanOf(gas, p, c, su).value, c, su, rq, s, done)
    requires !Exec(gas, p, rq, cx, s).0.Threw?
    ensures var lane := Entries(PlanOf(gas, p, c, su).value.segs);
            && r <= |lane| && (lane != [] ==> r > 0)
            && Counted(s.counts, lane[..r], Exec(gas, p, rq, cx, s).1.counts)
    decreases gas, 0
  {
    hide ExecStep, ExecGroup, Counted, Entries, CountsAgree, MemosFit, TargetRuns, Reachable, DistinctIds, Decode,
         PlanStep, PlanLanes;
    var pl := PlanOf(gas, p, c, su).value;
    match p
    case Return(_) =>
      assert Entries([]) == [] by { NoEntries(); }
      r := 0;
      CountedNothing(s.counts);
    case Raise(_) => assert false;
    case Flaky(site, next) =>
      r := ReachedPrefix(gas - 1, next, c, su, rq, cx, s, done);
    case Parallel(callbacks, mode, gk) => GroupIsNotFlat(gas, callbacks, mode, gk, c, su);
    case Step(id, op, handler, k) =>
      r := ReachedStep(gas - 1, id, op, handler, k, pl, c, su, rq, cx, s, done);
  }

  lemma NoEntries()
    ensures Entries([]) == []
  {
  }

  lemma {:induction false} ReachedStep(gas: nat, id: string, op: Opcode, handler: Prog, k: StepResult -> Prog, pl: Plan,
                                       c: Counts, su: Setup, rq: Request, cx: Context, s: St, done: set<HashedId>)
    returns (r: nat)
    requires PlanOf(gas + 1, Step(id, op, handler, k), c, su) == Some(pl) && Flat(pl.segs) && !cx.inStep
    requires Ready(pl, c, su, rq, s, done)
    requires !ExecStep(gas, id, op, handler, k, rq, cx, s).0.Threw?
    ensures var lane := Entries(pl.segs);
            && 0 < r <= |lane|
            && Counted(s.counts, lane[..r], ExecStep(gas, id, op, handler, k, rq, cx, s).1.counts)
    decreases gas, 1
  {
    hide PlanOf, PlanStep, Ready, Exec, ExecStep, PopMemo, Counted, Entries, Flat, Decode, Frontier, Raws;
    var e, next, rest := UnfoldStep(gas, id, op, handler, k, pl, c, su);
    StartsWithFacts(pl, e, rest, done);
    PopFramed(e, s);
    if e.id in done {
      StepMemoized(gas, e, next, rest, id, op, handler, k, pl, c, su, rq, cx, s, done);
      ReadyAfterPop(pl, e, rest, c, su, rq, s, done);
      var more := ReachedPrefix(gas, next, Bump(c, id), su, rq, cx, PopMemo(e.id, CountStep(id, s)), done);
      r := more + 1;
      CountedCons(s.counts, e, Entries(rest.segs)[..more], Exec(gas, next, rq, cx, PopMemo(e.id, CountStep(id, s))).1.counts);
      assert ([e] + Entries(rest.segs))[..r] == [e] + Entries(rest.segs)[..more];
    } else {
      r := 1;
      CountedOne(s.counts, e);
      assert ([e] + Entries(rest.segs))[..1] == [e];
      StuckCounts(gas, e, next, rest, id, op, handler, k, pl, c, su, rq, cx, s, done);
    }
  }

  lemma StuckCounts(gas: nat, e: Entry, next: Prog, rest: Plan, id: string, op: Opcode, handler: Prog,
                    k: StepResult -> Prog,
                    pl: Plan, c: Counts, su: Setup, rq: Request, cx: Context, s: St, done: set<HashedId>)
    requires PlannedStep(gas, e, next, rest, id, op, handler, k, c, su) && StartsWith(pl, e, rest)
    requires Ready(pl, c, su, rq, s, done) && !cx.inStep && e.id !in done
    ensures ExecStep(gas, id, op, handler, k, rq, cx, s).1.counts == Bump(s.counts, id)
  {
    PopFramed(e, s);
    PlannedInfo(e, pl, rest, c, su, rq, s, done);
    if rq.target == Some(e.id) {
      TargetIsFresh(gas, e, next, rest, id, op, handler, k, pl, c, su, rq, cx, s, done);
      var o := HandlerRan(gas, handler, e, su, rq, cx, s);
      FreshStep(gas, id, op, handler, k, rq, cx, s);
      hide Ready, PopMemo, Exec, ExecStep, RunHandler, PlanOf, PlanStep;
      var info := StepInfo(e.raw, e.id, StepRun, false);
      assert !RunHandler(gas, handler, info, rq, cx, PopMemo(e.id, CountStep(id, s))).0.Threw?;
    } else {
      StuckStep(gas, id, op, handler, k, rq, cx, s);
      hide Ready, PopMemo, ExecStep, PlanOf, PlanStep;
    }
  }

  /** An ID that a lane uses only in its first step is counted alike by every part of it that was reached. */
  lemma HeadUses(lane: seq<Entry>, r: nat, x: string)
    requires r <= |lane| && (lane != [] ==> r > 0) && x !in Raws(Tail(lane))
    ensures Uses(lane[..r], x) == Uses(lane, x)
  {
    if lane != [] {
      assert lane == [lane[0]] + Tail(lane) && lane[..r] == [lane[0]] + Tail(lane)[..r - 1];
      UsesCons(lane[0], Tail(lane), x);
      UsesCons(lane[0], Tail(lane)[..r - 1], x);
      UsesNone(Tail(lane), x);
      UsesNone(Tail(lane)[..r - 1], x);
    }
  }

  // ----- A group, then the rest -----

  ghost predicate LanesReady(ls: LanePlans, c: Counts, su: Setup, rq: Request, s: St, done: set<HashedId>) {
    && rq.disableImmediateExecution
    && DistinctIds(LaneEntries(ls.lanes))
    && CountsAgree(Raws(LaneEntries(ls.lanes)), s.counts, c)
    && MemosFit(LaneEntries(ls.lanes), s.memos, done, su)
    && TargetRuns(LaneEntries(ls.lanes), rq)
    && TailsUnused(ls.lanes)
  }

  /** The callback that raises, if one does, has made all its steps. */
  predicate Decided(ls: LanePlans, done: set<HashedId>) {
    ls.raised.Some? && LaneFront(ls.raised.value.lane, done) == []
  }

  /** One response per step in `fronts`; or the one about the target, if it is among them. */
  ghost predicate Responds(fronts: seq<Entry>, rq: Request, rs: seq<StepResponse>) {
    && (rq.target.None? ==> AnnouncesAll(rs, fronts))
    && (rq.target.Some? && rq.target.value !in Ids(fronts) ==> rs == [])
    && (rq.target.Some? && rq.target.value in Ids(fronts) ==> |rs| == 1 && RanTarget(fronts, rq, rs[0]))
  }

  /**
   * The callbacks of a group: an error once the callback that raises has made its steps; else outputs when all
   * are complete, or one response per callback that is not.
   */
  ghost predicate Gathers(ls: LanePlans, done: set<HashedId>, rq: Request, g: Gathered) {
    var fronts := Fronts(ls.lanes, done);
    && (g.Stopped? ==> IsBodyFault(g.o, ls.steady, rq) || (Decided(ls, done) && g.o == Threw(ls.raised.value.e)))
    && (g.Collected? ==>
          && !Decided(ls, done)
          && (fronts == [] ==> ls.raised.None? && g == Collected(ls.outputs, []))
          && Responds(fronts, rq, g.responses))
  }

  /** One callback makes all the steps, and then raises. */
  predicate LoneCulprit(ls: LanePlans) {
    ls.raised.Some? && ls.Alone()
  }

  ghost predicate LanesLogged(ls: LanePlans, rq: Request, s: St, g: Gathered, s': St) {
    && (rq.target.None? || (g.Stopped? && LoneCulprit(ls) && !IsBodyFault(g.o, ls.steady, rq)) ==>
          Successes(s'.log) == Successes(s.log))
    && (g.Collected? ==> ResponsesLogged(rq, s, g.responses, s'))
  }

  ghost predicate ResponsesLogged(rq: Request, s: St, rs: seq<StepResponse>, s': St) {
    Successes(s'.log) == Successes(s.log) +
      (if rq.target.Some? && |rs| == 1 && rs[0].error.None? then multiset{rq.target.value} else multiset{})
  }

  ghost predicate LanesBehave(ls: LanePlans, done: set<HashedId>, rq: Request, s: St, r: (Gathered, St)) {
    && Gathers(ls, done, rq, r.0)
    && Framed(LaneEntries(ls.lanes), s, r.1)
    && (Fronts(ls.lanes, done) == [] && r.0.Collected? ==>
          CountsAgree(Raws(LaneEntries(ls.lanes)), r.1.counts, ls.counts))
    && (LoneCulprit(ls) && r.0.Stopped? && !IsBodyFault(r.0.o, ls.steady, rq) ==>
          CountsAgree(Raws(LaneEntries(ls.lanes)), r.1.counts, ls.counts))
    && LanesLogged(ls, rq, s, r.0, r.1)
  }

  lemma StartsWithGroupFacts(pl: Plan, ls: LanePlans, rest: Plan, done: set<HashedId>)
    requires StartsWithGroup(pl, ls, rest)
    ensures Entries(pl.segs) == LaneEntries(ls.lanes) + Entries(rest.segs)
    ensures Raws(Entries(pl.segs)) == Raws(LaneEntries(ls.lanes)) + Raws(Entries(rest.segs))
    ensures Ids(Entries(pl.segs)) == Ids(LaneEntries(ls.lanes)) + Ids(Entries(rest.segs))
    ensures Frontier(pl.segs, done) ==
            var front := GroupFront(ls.lanes, ls.Decides(), done); if front == [] then Frontier(rest.segs, done) else front
    ensures !Flat(pl.segs) && Barred(pl.segs) == Barred(rest.segs)
  {
    EntriesCons(Lanes(ls.lanes, ls.Decides()), rest.segs);
    ConcatIds(LaneEntries(ls.lanes), Entries(rest.segs));
    assert pl.segs[1..] == rest.segs;
    assert pl.segs[0].Lanes?;
  }

  lemma ReadyForLanes(pl: Plan, ls: LanePlans, rest: Plan, c: Counts, su: Setup, rq: Request, s: St,
                      done: set<HashedId>)
    requires StartsWithGroup(pl, ls, rest) && Ready(pl, c, su, rq, s, done)
    ensures LanesReady(ls, c, su, rq, s, done)
  {
    var a, b := LaneEntries(ls.lanes), Entries(rest.segs);
    StartsWithGroupFacts(pl, ls, rest, done);
    ConcatDistinct(a, b);
    ConcatMemosFit(a, b, s.memos, done, su);
    ConcatTargetRuns(a, b, rq);
  }

  /** The group is over: its callbacks are complete, or one has raised. */
  ghost predicate GroupOver(ls: LanePlans, done: set<HashedId>, rq: Request, g: Gathered) {
    && GroupFront(ls.lanes, ls.Decides(), done) == []
    && if g.Collected? then ls.raised.None? else Decided(ls, done) && !IsBodyFault(g.o, ls.steady, rq)
  }

  lemma NothingReady(segs: seq<Segment>, c: Counts, su: Setup, rq: Request, s: St, done: set<HashedId>)
    requires Entries(segs) == []
    ensures DistinctIds(Entries(segs)) && CountsAgree(Raws(Entries(segs)), s.counts, c) && Frontier(segs, done) == []
    ensures MemosFit(Entries(segs), s.memos, done, su) && TargetRuns(Entries(segs), rq)
  {
    FrontInEntries(segs, done);
    HasFirst(Frontier(segs, done));
  }

  lemma HasFirst(es: seq<Entry>)
    ensures es != [] ==> exists e :: e in es
  {
    if es != [] { assert es[0] in es; }
  }

  lemma ReadyAfterGroup(pl: Plan, ls: LanePlans, rest: Plan, c: Counts, su: Setup, rq: Request, s: St,
                        done: set<HashedId>, r: (Gathered, St))
    requires StartsWithGroup(pl, ls, rest) && Ready(pl, c, su, rq, s, done)
    requires LanesBehave(ls, done, rq, s, r) && GroupOver(ls, done, rq, r.0)
    requires forall x :: x !in Raws(LaneEntries(ls.lanes)) ==> Count(ls.counts, x) == Count(c, x)
    ensures Ready(rest, ls.counts, su, rq, r.1, done)
  {
    var a, b := LaneEntries(ls.lanes), Entries(rest.segs);
    StartsWithGroupFacts(pl, ls, rest, done);
    LaterReachable(pl, ls, rest, rq, done);
    hide Entries, Frontier, LaneEntries, TailsUnused, LanesLogged, Gathers, Fronts, LaneFront, Reachable, Barred;
    if b == [] {
      NothingReady(rest.segs, ls.counts, su, rq, r.1, done);
    } else {
      CountsAfterGroup(ls, b, c, rq, s, done, r);
      hide CountsAgree, LanesBehave, GroupOver;
      ConcatDistinct(a, b);
      ConcatMemosFit(a, b, s.memos, done, su);
      ConcatTargetRuns(a, b, rq);
      GroupFramed(ls, done, rq, s, r);
      MemosFitKept(b, a, s, r.1, done, su);
    }
  }

  lemma GroupFramed(ls: LanePlans, done: set<HashedId>, rq: Request, s: St, r: (Gathered, St))
    requires LanesBehave(ls, done, rq, s, r)
    ensures Framed(LaneEntries(ls.lanes), s, r.1)
  {
  }

  lemma LaterReachable(pl: Plan, ls: LanePlans, rest: Plan, rq: Request, done: set<HashedId>)
    requires StartsWithGroup(pl, ls, rest) && Reachable(pl.segs, done, rq)
    requires GroupFront(ls.lanes, ls.Decides(), done) == []
    ensures Reachable(rest.segs, done, rq)
  {
    StartsWithGroupFacts(pl, ls, rest, done);
    hide Frontier, GroupFront, Entries, TailsUnused;
  }

  lemma CountsAfterGroup(ls: LanePlans, b: seq<Entry>, c: Counts, rq: Request, s: St, done: set<HashedId>,
                         r: (Gathered, St))
    requires ls.Alone() && LanesBehave(ls, done, rq, s, r) && GroupOver(ls, done, rq, r.0)
    requires CountsAgree(Raws(b), s.counts, c)
    requires forall x :: x !in Raws(LaneEntries(ls.lanes)) ==> Count(ls.counts, x) == Count(c, x)
    ensures CountsAgree(Raws(b), r.1.counts, ls.counts)
  {
    hide LaneEntries, LanesLogged, Gathers, Fronts, LaneFront, Raws;
  }

  lemma BehavesAfterGroup(pl: Plan, ls: LanePlans, rest: Plan, rq: Request, s: St, done: set<HashedId>,
                          g: (Gathered, St), r: (Outcome, St))
    requires StartsWithGroup(pl, ls, rest)
    requires LanesBehave(ls, done, rq, s, g) && GroupOver(ls, done, rq, g.0)
    requires Behaves(rest, done, rq, g.1, r)
    ensures Behaves(pl, done, rq, s, r)
  {
    StartsWithGroupFacts(pl, ls, rest, done);
    FramedTrans(LaneEntries(ls.lanes), Entries(rest.segs), s, g.1, r.1);
    hide Framed, Entries, LaneEntries, Frontier, Flat, CountsAgree, TailsUnused;
    AfterGroupLogged(pl, ls, rest, rq, s, done, g, r);
  }

  lemma AfterGroupLogged(pl: Plan, ls: LanePlans, rest: Plan, rq: Request, s: St, done: set<HashedId>,
                         g: (Gathered, St), r: (Outcome, St))
    requires StartsWithGroup(pl, ls, rest)
    requires LanesBehave(ls, done, rq, s, g) && GroupOver(ls, done, rq, g.0)
    requires Behaves(rest, done, rq, g.1, r)
    ensures Logged(pl.calm, rq, s, r.0, r.1)
  {
    hide Framed, CountsAgree, TailsUnused, LaneEntries, Raws, Announces, RanTarget;
    if !ls.Alone() { NothingReady(rest.segs, ls.counts, Setup(map[], _ => None), rq, s, done); }
  }

  lemma BehavesInGroup(pl: Plan, ls: LanePlans, rest: Plan, mode: ParallelMode, rq: Request, s: St,
                       done: set<HashedId>, g: (Gathered, St))
    requires StartsWithGroup(pl, ls, rest)
    requires LanesBehave(ls, done, rq, s, g) && g.0.Collected? && g.0.responses != []
    ensures Behaves(pl, done, rq, s, (Interrupt(WithMode(g.0.responses, mode)), g.1))
  {
    StartsWithGroupFacts(pl, ls, rest, done);
    FramedMore(LaneEntries(ls.lanes), Entries(rest.segs), s, g.1);
    if rq.target.Some? {
      var fronts, rs := Fronts(ls.lanes, done), g.0.responses;
      var e :| e in fronts && rq.target == Some(e.id) && (Delivers(rs[0], e) || (!Quiet(rq.fault) && Fails(rs[0], e)));
      assert RanTarget(fronts, rq, WithMode(rs, mode)[0]);
    }
  }

  lemma BehavesStopped(pl: Plan, ls: LanePlans, rest: Plan, rq: Request, s: St, done: set<HashedId>, g: (Gathered, St))
    requires StartsWithGroup(pl, ls, rest)
    requires LanesBehave(ls, done, rq, s, g) && g.0.Stopped? && IsBodyFault(g.0.o, ls.steady, rq)
    ensures Behaves(pl, done, rq, s, (g.0.o, g.1))
  {
    StartsWithGroupFacts(pl, ls, rest, done);
    FramedMore(LaneEntries(ls.lanes), Entries(rest.segs), s, g.1);
    hide Framed, Entries, LaneEntries, Frontier, TailsUnused, CountsAgree, Successes;
  }

  lemma {:induction false} ExecPlanGroup(gas: nat, callbacks: seq<Prog>, mode: ParallelMode, gk: GroupResult -> Prog,
                                         pl: Plan,
                                         c: Counts, su: Setup, rq: Request, cx: Context, s: St, done: set<HashedId>)
    requires !FailsAtOnce(gas, callbacks, c, su)
    requires PlanOf(gas + 1, Parallel(callbacks, mode, gk), c, su) == Some(pl) && !cx.inStep
    requires Ready(pl, c, su, rq, s, done)
    ensures Behaves(pl, done, rq, s, ExecGroup(gas, callbacks, mode, gk, rq, cx, s))
    decreases gas, |callbacks| + 1
  {
    hide PlanOf, PlanLanes, FailsAtOnce, Ready, LanesReady, Behaves, TailsUnused;
    var ls, rest := UnfoldGroup(gas, callbacks, mode, gk, pl, c, su);
    var inner := cx.(inParallel := true);
    ReadyForLanes(pl, ls, rest, c, su, rq, s, done);
    ExecLanes(gas, callbacks, c, su, rq, inner, s, done);
    var (g, s1) := ExecAll(gas, callbacks, rq, inner, s);
    if g.Stopped? && IsBodyFault(g.o, ls.steady, rq) {
      PlanNeedsGas(gas, gk(ls.Result()), ls.counts, su);
      assert gk(GroupFailed(g.o.e)) == Raise(g.o.e);
      assert Exec(gas, Raise(g.o.e), rq, cx, s1) == (Threw(g.o.e), s1);
      BehavesStopped(pl, ls, rest, rq, s, done, (g, s1));
    } else if g.Collected? && g.responses != [] {
      BehavesInGroup(pl, ls, rest, mode, rq, s, done, (g, s1));
    } else {
      GroupEnds(pl, ls, rest, c, su, rq, s, done, (g, s1));
      LanesCounts(gas, callbacks, c, su);
      ReadyAfterGroup(pl, ls, rest, c, su, rq, s, done, (g, s1));
      ExecPlan(gas, gk(ls.Result()), ls.counts, su, rq, cx, s1, done);
      BehavesAfterGroup(pl, ls, rest, rq, s, done, (g, s1), Exec(gas, gk(ls.Result()), rq, cx, s1));
    }
  }

  lemma GroupEnds(pl: Plan, ls: LanePlans, rest: Plan, c: Counts, su: Setup, rq: Request, s: St, done: set<HashedId>,
                  g: (Gathered, St))
    requires StartsWithGroup(pl, ls, rest) && Ready(pl, c, su, rq, s, done) && LanesBehave(ls, done, rq, s, g)
    requires if g.0.Stopped? then !IsBodyFault(g.0.o, ls.steady, rq) else g.0.responses == []
    ensures GroupOver(ls, done, rq, g.0)
    ensures if g.0.Stopped? then g.0.o == Threw(ls.raised.value.e) else g.0 == Collected(ls.outputs, [])
  {
    StartsWithGroupFacts(pl, ls, rest, done);
    hide Framed, LanesLogged, CountsAgree, TailsUnused, Entries, LaneEntries, MemosFit, DistinctIds, TargetRuns;
  }

  // ----- A group that fails at once, then the rest -----

  lemma StartsWithHeadsFacts(pl: Plan, hs: HeadPlans, rest: Plan, done: set<HashedId>)
    requires StartsWithHeads(pl, hs, rest)
    ensures Entries(pl.segs) == HeadEntries(hs.lanes) + Entries(rest.segs)
    ensures Raws(Entries(pl.segs)) == Raws(HeadEntries(hs.lanes)) + Raws(Entries(rest.segs))
    ensures Ids(Entries(pl.segs)) == Ids(HeadEntries(hs.lanes)) + Ids(Entries(rest.segs))
    ensures Frontier(pl.segs, done) == Frontier(rest.segs, done)
    ensures !Flat(pl.segs) && Barred(pl.segs) == HeadEntries(hs.lanes) + Barred(rest.segs)
  {
    EntriesCons(Heads(hs.lanes), rest.segs);
    ConcatIds(HeadEntries(hs.lanes), Entries(rest.segs));
    assert pl.segs[1..] == rest.segs;
    assert pl.segs[0].Heads?;
  }

  /** The first step of a flat piece of code is reported, and no more: it has no memo and is not targeted. */
  lemma {:induction false} HeadIsStuck(gas: nat, p: Prog, c: Counts, su: Setup, rq: Request, cx: Context, s: St)
    requires PlanOf(gas, p, c, su).Some? && Flat(PlanOf(gas, p, c, su).value.segs) && PlanOf(gas, p, c, su).value.segs != []
    requires var e := Entries(PlanOf(gas, p, c, su).value.segs)[0];
             e.id !in s.memos && rq.target != Some(e.id) && Count(s.counts, e.raw) == Count(c, e.raw)
    requires !cx.inStep && rq.disableImmediateExecution
    ensures var pl := PlanOf(gas, p, c, su).value;
            var e := Entries(pl.segs)[0];
            var (o, s') := Exec(gas, p, rq, cx, s);
            || (IsBodyFault(o, pl.steady, rq) && s' == s)
            || ((o.Interrupt? || o.Skip?) && s' == PopMemo(e.id, CountStep(e.raw, s)))
    decreases gas
  {
    hide PopMemo, Decode, ExecStep, ExecGroup, Count;
    FlatEntries(PlanOf(gas, p, c, su).value.segs);
    match p
    case Return(_) => assert false;
    case Raise(_) => assert false;
    case Flaky(site, next) =>
      if rq.fault(site).None? { HeadIsStuck(gas - 1, next, c, su, rq, cx, s); }
    case Parallel(callbacks, mode, gk) =>
      GroupIsNotFlat(gas, callbacks, mode, gk, c, su);
      assert false;
    case Step(id, op, handler, k) =>
      StepIsStuck(gas - 1, id, op, handler, k, PlanOf(gas, p, c, su).value, c, su, rq, cx, s);
  }

  lemma StepIsStuck(gas: nat, id: string, op: Opcode, handler: Prog, k: StepResult -> Prog, pl: Plan, c: Counts,
                    su: Setup,
                    rq: Request, cx: Context, s: St)
    requires PlanOf(gas + 1, Step(id, op, handler, k), c, su) == Some(pl)
    requires Entries(pl.segs) != []
    requires var e := Entries(pl.segs)[0];
             e.id !in s.memos && rq.target != Some(e.id) && Count(s.counts, e.raw) == Count(c, e.raw)
    requires rq.disableImmediateExecution
    ensures var e := Entries(pl.segs)[0];
            var (o, s') := ExecStep(gas, id, op, handler, k, rq, cx, s);
            (o.Interrupt? || o.Skip?) && s' == PopMemo(e.id, CountStep(e.raw, s))
  {
    hide PlanOf, ExecStep, PopMemo, Decode, CountStep;
    var e, next, rest := UnfoldStep(gas, id, op, handler, k, pl, c, su);
    StartsWithFacts(pl, e, rest, {});
    hide Entries, Frontier;
    StuckStep(gas, id, op, handler, k, rq, cx, s);
  }

  ghost predicate HeadsReady(hs: HeadPlans, c: Counts, rq: Request, s: St) {
    && rq.disableImmediateExecution
    && DistinctIds(HeadEntries(hs.lanes))
    && (forall e :: e in HeadEntries(hs.lanes) ==> e.id !in s.memos && rq.target != Some(e.id))
    && CountsAgree(Raws(HeadEntries(hs.lanes)), s.counts, c)
  }

  /** The group stops, by its own error or one of the environment, and has counted and run nothing else. */
  ghost predicate HeadsBehave(hs: HeadPlans, rq: Request, s: St, r: (Gathered, St)) {
    && r.0.Stopped? && (IsBodyFault(r.0.o, hs.steady, rq) || r.0.o == Threw(hs.e))
    && Framed(HeadEntries(hs.lanes), s, r.1)
    && (!IsBodyFault(r.0.o, hs.steady, rq) ==> CountsAgree(Raws(HeadEntries(hs.lanes)), r.1.counts, hs.counts))
    && Successes(r.1.log) == Successes(s.log)
  }

  lemma {:induction false} ExecHeads(gas: nat, callbacks: seq<Prog>, c: Counts, su: Setup, rq: Request, cx: Context,
                                     s: St)
    requires PlanHeads(gas, callbacks, c, su).Some? && !cx.inStep
    requires HeadsReady(PlanHeads(gas, callbacks, c, su).value, c, rq, s)
    ensures HeadsBehave(PlanHeads(gas, callbacks, c, su).value, rq, s, ExecAll(gas, callbacks, rq, cx, s))
    decreases |callbacks|
  {
    hide Exec, HeadEntries, Entries, PlanOf, PlanHeads, HeadsReady, HeadsBehave;
    var hs := PlanHeads(gas, callbacks, c, su).value;
    var first := UnfoldHeads(gas, callbacks, c, su);
    var (o, s1) := Exec(gas, callbacks[0], rq, cx, s);
    FlatEntries(first.segs);
    if first.result.Failed? {
      PlainHandler(gas, callbacks[0], c, su, rq, cx, s);
      FailsFirst(hs, first, rq, s, o, s1);
    } else {
      var lane := Entries(first.segs);
      var rest := PlanHeads(gas, callbacks[1..], CountHead(lane, c), su).value;
      FirstHead(gas, callbacks[0], first, hs, rest, c, su, rq, cx, s);
      if o.Threw? {
        HeadFaults(hs, first, lane, rest, rq, s, o, s1);
      } else {
        ReadyForRestHeads(hs, lane, rest, c, rq, s, s1);
        ExecHeads(gas, callbacks[1..], CountHead(lane, c), su, rq, cx, s1);
        HeadsCounted(gas, callbacks[1..], CountHead(lane, c), su);
        HeadsJoined(hs, first, lane, rest, c, rq, s, s1, ExecAll(gas, callbacks[1..], rq, cx, s1));
      }
    }
  }

  lemma UnfoldHeads(gas: nat, callbacks: seq<Prog>, c: Counts, su: Setup) returns (first: Plan)
    requires PlanHeads(gas, callbacks, c, su).Some?
    ensures callbacks != [] && PlanOf(gas, callbacks[0], c, su) == Some(first) && Flat(first.segs)
    ensures var hs := PlanHeads(gas, callbacks, c, su).value;
            var lane := Entries(first.segs);
            var rest := PlanHeads(gas, callbacks[1..], CountHead(lane, c), su);
            if first.result.Failed? then first.segs == [] && hs == HeadPlans([], c, first.result.e, first.steady)
            else rest.Some? && hs == rest.value.(lanes := [lane] + rest.value.lanes, steady := first.steady && rest.value.steady)
  {
    hide PlanOf;
    first := PlanOf(gas, callbacks[0], c, su).value;
  }

  /** A callback that does not raise gets to its first step, or returns if it has none. */
  lemma FirstHead(gas: nat, callback: Prog, first: Plan, hs: HeadPlans, rest: HeadPlans, c: Counts, su: Setup,
                  rq: Request, cx: Context, s: St)
    requires PlanOf(gas, callback, c, su) == Some(first) && Flat(first.segs) && first.result.Ok? && !cx.inStep
    requires HeadsReady(hs, c, rq, s) && hs.lanes == [Entries(first.segs)] + rest.lanes
    ensures var (o, s') := Exec(gas, callback, rq, cx, s);
            if o.Threw? then IsBodyFault(o, first.steady, rq) && s' == s
            else !o.NestedStep? && !o.Exhausted? && HeadPopped(Entries(first.segs), s, s')
  {
    HeadsSplit(hs, Entries(first.segs), rest);
    FlatEntries(first.segs);
    hide Exec, PopMemo, Entries, HeadEntries;
    if first.segs == [] {
      PlainHandler(gas, callback, c, su, rq, cx, s);
    } else {
      HeadIsStuck(gas, callback, c, su, rq, cx, s);
    }
  }

  lemma FlatEntries(segs: seq<Segment>)
    requires Flat(segs)
    ensures Entries(segs) == [] <==> segs == []
  {
    if segs != [] { assert segs[0].One?; }
  }

  lemma HeadsSplit(hs: HeadPlans, lane: seq<Entry>, rest: HeadPlans)
    requires hs.lanes == [lane] + rest.lanes
    ensures HeadEntries(hs.lanes) == Head(lane) + HeadEntries(rest.lanes)
    ensures Raws(HeadEntries(hs.lanes)) == Raws(Head(lane)) + Raws(HeadEntries(rest.lanes))
    ensures lane != [] ==> lane[0] in HeadEntries(hs.lanes) && lane[0].raw in Raws(HeadEntries(hs.lanes))
  {
    assert hs.lanes[1..] == rest.lanes;
    ConcatIds(Head(lane), HeadEntries(rest.lanes));
    if lane != [] { assert lane[0] in Head(lane); }
  }

  /** The first step of the callback was popped and counted, if it has one. */
  ghost predicate HeadPopped(lane: seq<Entry>, s: St, s1: St) {
    s1 == if lane == [] then s else PopMemo(lane[0].id, CountStep(lane[0].raw, s))
  }

  lemma HeadPoppedFacts(lane: seq<Entry>, s: St, s1: St)
    requires HeadPopped(lane, s, s1)
    ensures Framed(Head(lane), s, s1) && Successes(s1.log) == Successes(s.log)
    ensures s1.counts == CountHead(lane, s.counts)
  {
    if lane != [] { PopFacts(lane[0], s); }
  }

  lemma FailsFirst(hs: HeadPlans, first: Plan, rq: Request, s: St, o: Outcome, s1: St)
    requires first.result.Failed? && hs.lanes == [] && hs.e == first.result.e && hs.steady == first.steady
    requires s1 == s && (o == Threw(hs.e) || IsBodyFault(o, first.steady, rq))
    ensures HeadsBehave(hs, rq, s, (Stopped(o), s1))
  {
    assert HeadEntries([]) == [];
  }

  lemma HeadFaults(hs: HeadPlans, first: Plan, lane: seq<Entry>, rest: HeadPlans, rq: Request, s: St, o: Outcome,
                   s1: St)
    requires hs.steady == (first.steady && rest.steady) && IsBodyFault(o, first.steady, rq) && s1 == s
    ensures HeadsBehave(hs, rq, s, (Stopped(o), s1))
  {
  }

  lemma ReadyForRestHeads(hs: HeadPlans, lane: seq<Entry>, rest: HeadPlans, c: Counts, rq: Request, s: St, s1: St)
    requires HeadsReady(hs, c, rq, s) && HeadPopped(lane, s, s1) && hs.lanes == [lane] + rest.lanes
    ensures HeadsReady(rest, CountHead(lane, c), rq, s1)
  {
    HeadsSplit(hs, lane, rest);
    HeadPoppedFacts(lane, s, s1);
    ConcatDistinct(Head(lane), HeadEntries(rest.lanes));
    hide HeadPopped, HeadEntries, DistinctIds;
    forall e | e in HeadEntries(rest.lanes) ensures e.id !in s1.memos {
      assert e in HeadEntries(hs.lanes);
      assert e.id in Ids(HeadEntries(rest.lanes));
    }
    CountHeadAgrees(lane, s.counts, c, Raws(HeadEntries(rest.lanes)));
  }

  lemma CountHeadAgrees(lane: seq<Entry>, c: Counts, d: Counts, raws: set<string>)
    requires CountsAgree(raws, c, d)
    ensures CountsAgree(raws, CountHead(lane, c), CountHead(lane, d))
  {
  }

  lemma HeadsJoined(hs: HeadPlans, first: Plan, lane: seq<Entry>, rest: HeadPlans, c: Counts, rq: Request, s: St,
                    s1: St, g: (Gathered, St))
    requires hs == rest.(lanes := [lane] + rest.lanes, steady := first.steady && rest.steady)
    requires HeadsReady(hs, c, rq, s) && HeadPopped(lane, s, s1) && HeadsBehave(rest, rq, s1, g)
    requires Counted(CountHead(lane, c), HeadEntries(rest.lanes), rest.counts)
    ensures HeadsBehave(hs, rq, s, g) && g.0.Stopped?
  {
    HeadsSplit(hs, lane, rest);
    HeadPoppedFacts(lane, s, s1);
    FramedTrans(Head(lane), HeadEntries(rest.lanes), s, s1, g.1);
    CountedElsewhere(CountHead(lane, c), HeadEntries(rest.lanes), rest.counts);
    CountHeadAgrees(lane, s.counts, c, Raws(HeadEntries(hs.lanes)));
    FramedCounts(HeadEntries(rest.lanes), s1, g.1);
    hide HeadPopped, HeadEntries, DistinctIds, CountHead, Counted, Framed, Head, Successes, Raws, Count, Quiet;
  }

  lemma ReadyForHeads(pl: Plan, hs: HeadPlans, rest: Plan, c: Counts, su: Setup, rq: Request, s: St,
                      done: set<HashedId>)
    requires StartsWithHeads(pl, hs, rest) && Ready(pl, c, su, rq, s, done)
    ensures HeadsReady(hs, c, rq, s)
  {
    var a, b := HeadEntries(hs.lanes), Entries(rest.segs);
    StartsWithHeadsFacts(pl, hs, rest, done);
    ConcatDistinct(a, b);
    ConcatMemosFit(a, b, s.memos, done, su);
    hide HeadEntries, Entries, DistinctIds;
    forall e | e in a ensures e.id !in s.memos && rq.target != Some(e.id) {
      assert e in Barred(pl.segs);
      var i :| 0 <= i < |a| && a[i] == e;
    }
  }

  lemma ReadyAfterHeads(pl: Plan, hs: HeadPlans, rest: Plan, c: Counts, su: Setup, rq: Request, s: St,
                        done: set<HashedId>, r: (Gathered, St))
    requires StartsWithHeads(pl, hs, rest) && Ready(pl, c, su, rq, s, done)
    requires HeadsBehave(hs, rq, s, r) && !IsBodyFault(r.0.o, hs.steady, rq)
    requires Counted(c, HeadEntries(hs.lanes), hs.counts)
    ensures Ready(rest, hs.counts, su, rq, r.1, done)
  {
    var a, b := HeadEntries(hs.lanes), Entries(rest.segs);
    StartsWithHeadsFacts(pl, hs, rest, done);
    CountedElsewhere(c, a, hs.counts);
    hide HeadEntries, Frontier, Counted;
    ConcatDistinct(a, b);
    ConcatMemosFit(a, b, s.memos, done, su);
    ConcatTargetRuns(a, b, rq);
    MemosFitKept(b, a, s, r.1, done, su);
  }

  lemma BehavesAfterHeads(pl: Plan, hs: HeadPlans, rest: Plan, rq: Request, s: St, done: set<HashedId>,
                          g: (Gathered, St), r: (Outcome, St))
    requires StartsWithHeads(pl, hs, rest) && HeadsBehave(hs, rq, s, g) && !IsBodyFault(g.0.o, hs.steady, rq)
    requires Behaves(rest, done, rq, g.1, r)
    ensures Behaves(pl, done, rq, s, r)
  {
    StartsWithHeadsFacts(pl, hs, rest, done);
    FramedTrans(HeadEntries(hs.lanes), Entries(rest.segs), s, g.1, r.1);
  }

  lemma BehavesFaulty(pl: Plan, hs: HeadPlans, rest: Plan, rq: Request, s: St, done: set<HashedId>, g: (Gathered, St))
    requires StartsWithHeads(pl, hs, rest) && HeadsBehave(hs, rq, s, g) && IsBodyFault(g.0.o, hs.steady, rq)
    ensures Behaves(pl, done, rq, s, (g.0.o, g.1))
  {
    StartsWithHeadsFacts(pl, hs, rest, done);
    FramedMore(HeadEntries(hs.lanes), Entries(rest.segs), s, g.1);
  }

  lemma {:induction false} ExecPlanHeads(gas: nat, callbacks: seq<Prog>, mode: ParallelMode, gk: GroupResult -> Prog,
                                         pl: Plan,
                                         c: Counts, su: Setup, rq: Request, cx: Context, s: St, done: set<HashedId>)
    requires FailsAtOnce(gas, callbacks, c, su)
    requires PlanOf(gas + 1, Parallel(callbacks, mode, gk), c, su) == Some(pl) && !cx.inStep
    requires Ready(pl, c, su, rq, s, done)
    ensures Behaves(pl, done, rq, s, ExecGroup(gas, callbacks, mode, gk, rq, cx, s))
    decreases gas, |callbacks| + 1
  {
    hide PlanOf, PlanHeads, FailsAtOnce, Ready, HeadsReady, Behaves;
    var hs, rest := UnfoldFailing(gas, callbacks, mode, gk, pl, c, su);
    var inner := cx.(inParallel := true);
    ReadyForHeads(pl, hs, rest, c, su, rq, s, done);
    ExecHeads(gas, callbacks, c, su, rq, inner, s);
    var (g, s1) := ExecAll(gas, callbacks, rq, inner, s);
    if IsBodyFault(g.o, hs.steady, rq) {
      PlanNeedsGas(gas, gk(GroupFailed(hs.e)), hs.counts, su);
      assert gk(GroupFailed(g.o.e)) == Raise(g.o.e);
      assert Exec(gas, Raise(g.o.e), rq, cx, s1) == (Threw(g.o.e), s1);
      BehavesFaulty(pl, hs, rest, rq, s, done, (g, s1));
    } else {
      HeadsCounted(gas, callbacks, c, su);
      ReadyAfterHeads(pl, hs, rest, c, su, rq, s, done, (g, s1));
      ExecPlan(gas, gk(GroupFailed(hs.e)), hs.counts, su, rq, cx, s1, done);
      BehavesAfterHeads(pl, hs, rest, rq, s, done, (g, s1), Exec(gas, gk(GroupFailed(hs.e)), rq, cx, s1));
    }
  }

  lemma PlanNeedsGas(gas: nat, p: Prog, c: Counts, su: Setup)
    requires PlanOf(gas, p, c, su).Some?
    ensures gas > 0
  {
  }

  // ----- The callbacks of a group, one after the other -----

  /** `ls` is the callback planned as `first`, then the callbacks planned as `rest`. */
  ghost predicate SplitLanes(ls: LanePlans, first: Plan, rest: LanePlans) {
    && Flat(first.segs) && first.calm
    && (first.result.Failed? ==> first.segs != [] && rest.raised.None?)
    && (rest.raised.Some? ==> |rest.raised.value.lane| <= |LaneEntries(rest.lanes)|)
    && ls == JoinLanes(first, rest)
    && TailsUnused(ls.lanes)
  }

  /** If one callback makes all the steps, it is the first one or one of the rest. */
  lemma LoneSplit(ls: LanePlans, first: Plan, rest: LanePlans)
    requires SplitLanes(ls, first, rest) && LoneCulprit(ls)
    ensures first.result.Ok? ==> Entries(first.segs) == [] && LoneCulprit(rest)
    ensures first.result.Failed? ==> LaneEntries(rest.lanes) == []
  {
    LaneEntriesCons(Entries(first.segs), rest.lanes);
    hide TailsUnused, Entries, LaneEntries, Flat;
    assert |LaneEntries(ls.lanes)| == |Entries(first.segs)| + |LaneEntries(rest.lanes)|;
  }

  lemma {:induction false} CulpritMakesSteps(gas: nat, callbacks: seq<Prog>, c: Counts, su: Setup)
    requires PlanLanes(gas, callbacks, c, su).Some? && PlanLanes(gas, callbacks, c, su).value.raised.Some?
    ensures var ls := PlanLanes(gas, callbacks, c, su).value; |ls.raised.value.lane| <= |LaneEntries(ls.lanes)|
    decreases |callbacks|
  {
    hide PlanOf, Entries, LaneEntries;
    var first := PlanOf(gas, callbacks[0], c, su).value;
    var rest := PlanLanes(gas, callbacks[1..], first.counts, su).value;
    LaneEntriesCons(Entries(first.segs), rest.lanes);
    if first.result.Ok? { CulpritMakesSteps(gas, callbacks[1..], first.counts, su); }
  }

  /** Flat code has no later callback that could lose a result. */
  lemma {:induction false} FlatIsCalm(gas: nat, p: Prog, c: Counts, su: Setup)
    requires PlanOf(gas, p, c, su).Some? && Flat(PlanOf(gas, p, c, su).value.segs)
    ensures PlanOf(gas, p, c, su).value.calm
    decreases gas
  {
    match p
    case Return(_) =>
    case Raise(_) =>
    case Flaky(_, next) => FlatIsCalm(gas - 1, next, c, su);
    case Step(id, op, handler, k) =>
      var e, next, rest := UnfoldStep(gas - 1, id, op, handler, k, PlanOf(gas, p, c, su).value, c, su);
      StartsWithFacts(PlanOf(gas, p, c, su).value, e, rest, {});
      FlatIsCalm(gas - 1, next, Bump(c, id), su);
    case Parallel(callbacks, mode, gk) =>
      GroupIsNotFlat(gas, callbacks, mode, gk, c, su);
      assert false;
  }

  lemma SplitFacts(ls: LanePlans, first: Plan, rest: LanePlans, done: set<HashedId>)
    requires SplitLanes(ls, first, rest)
    ensures LaneEntries(ls.lanes) == Entries(first.segs) + LaneEntries(rest.lanes)
    ensures Raws(LaneEntries(ls.lanes)) == Raws(Entries(first.segs)) + Raws(LaneEntries(rest.lanes))
    ensures Ids(LaneEntries(ls.lanes)) == Ids(Entries(first.segs)) + Ids(LaneEntries(rest.lanes))
    ensures Fronts(ls.lanes, done) == Frontier(first.segs, done) + Fronts(rest.lanes, done)
    ensures Frontier(first.segs, done) == LaneFront(Entries(first.segs), done) && Barred(first.segs) == []
    ensures |Frontier(first.segs, done)| <= 1
    ensures Ids(Fronts(ls.lanes, done)) == Ids(Frontier(first.segs, done)) + Ids(Fronts(rest.lanes, done))
    ensures Ids(Frontier(first.segs, done)) <= Ids(Entries(first.segs))
    ensures Ids(Fronts(rest.lanes, done)) <= Ids(LaneEntries(rest.lanes))
  {
    LaneEntriesCons(Entries(first.segs), rest.lanes);
    ConcatIds(Entries(first.segs), LaneEntries(rest.lanes));
    FlatFrontier(first.segs, done);
    FlatSteps(first.segs);
    LaneFrontInLane(Entries(first.segs), done);
    FrontsInEntries(rest.lanes, done);
    assert ls.lanes[1..] == rest.lanes;
    ConcatIds(Frontier(first.segs, done), Fronts(rest.lanes, done));
  }

  lemma ReadyForFirst(ls: LanePlans, first: Plan, rest: LanePlans, c: Counts, su: Setup, rq: Request, s: St,
                      done: set<HashedId>)
    requires SplitLanes(ls, first, rest) && LanesReady(ls, c, su, rq, s, done)
    ensures Ready(first, c, su, rq, s, done)
  {
    var a, b := Entries(first.segs), LaneEntries(rest.lanes);
    SplitFacts(ls, first, rest, done);
    ConcatDistinct(a, b);
    ConcatMemosFit(a, b, s.memos, done, su);
    ConcatTargetRuns(a, b, rq);
  }

  lemma ReadyForRest(ls: LanePlans, first: Plan, rest: LanePlans, c: Counts, su: Setup, rq: Request, s: St,
                     done: set<HashedId>,
                     r: (Outcome, St), n: nat)
    requires SplitLanes(ls, first, rest) && LanesReady(ls, c, su, rq, s, done)
    requires Framed(Entries(first.segs), s, r.1)
    requires n <= |Entries(first.segs)| && (Entries(first.segs) != [] ==> n > 0)
    requires Counted(s.counts, Entries(first.segs)[..n], r.1.counts) && Counted(c, Entries(first.segs), first.counts)
    ensures LanesReady(rest, first.counts, su, rq, r.1, done)
  {
    var a, b := Entries(first.segs), LaneEntries(rest.lanes);
    SplitFacts(ls, first, rest, done);
    assert ls.lanes[0] == a && ls.lanes[1..] == rest.lanes;
    forall x | x in Raws(b) ensures Count(r.1.counts, x) == Count(first.counts, x) {
      assert x !in Raws(Tail(a)) * Raws(b);
      HeadUses(a, n, x);
    }
    ConcatDistinct(a, b);
    ConcatMemosFit(a, b, s.memos, done, su);
    ConcatTargetRuns(a, b, rq);
    MemosFitKept(b, a, s, r.1, done, su);
  }

  lemma GathersSplit(ls: LanePlans, first: Plan, rest: LanePlans, done: set<HashedId>, rq: Request, o: Outcome,
                     g: Gathered)
    requires SplitLanes(ls, first, rest) && DistinctIds(LaneEntries(ls.lanes))
    requires Explained(Frontier(first.segs, done), ResultOutcome(first.result), first.steady, rq, o) && !o.Threw?
    requires Gathers(rest, done, rq, g)
    ensures Gathers(ls, done, rq, Prepend(o, g))
  {
    var a, b := Frontier(first.segs, done), Fronts(rest.lanes, done);
    SplitFacts(ls, first, rest, done);
    ConcatDistinct(Entries(first.segs), LaneEntries(rest.lanes));
    hide DistinctIds, TailsUnused, LaneEntries, Entries, Frontier, Fronts, LaneFront, RanTarget, Announces, Quiet,
         Raws, Flat, Responds, Barred, Ids;
    if g.Collected? { RespondsSplit(a, b, ResultOutcome(first.result), first.steady, rq, o, g); }
  }

  lemma RespondsSplit(a: seq<Entry>, b: seq<Entry>, result: Outcome, steady: bool, rq: Request, o: Outcome, g: Gathered)
    requires |a| <= 1 && Ids(a) !! Ids(b) && Explained(a, result, steady, rq, o) && !o.Threw?
    requires result.Returned? || result.Threw?
    requires g.Collected? && Responds(b, rq, g.responses)
    ensures Responds(a + b, rq, Prepend(o, g).responses)
  {
    ConcatIds(a, b);
    hide RanTarget, Announces, Quiet;
    if rq.target.Some? {
      var t, rs := rq.target.value, Prepend(o, g).responses;
      if t in Ids(a) {
        assert t !in Ids(b) && rs == o.responses;
        RanInMore(a, b, rq, rs[0]);
      } else if t in Ids(b) {
        assert rs == g.responses;
        RanInMore(b, a, rq, rs[0]);
      }
    }
  }

  lemma RanInMore(a: seq<Entry>, b: seq<Entry>, rq: Request, r: StepResponse)
    requires RanTarget(a, rq, r)
    ensures RanTarget(a + b, rq, r) && RanTarget(b + a, rq, r)
  {
    var e :| e in a && rq.target == Some(e.id) && (Delivers(r, e) || (!Quiet(rq.fault) && Fails(r, e)));
    assert e in a + b && e in b + a;
  }

  lemma LoggedSplit(ls: LanePlans, first: Plan, rest: LanePlans, done: set<HashedId>, rq: Request, s: St, s1: St,
                    s2: St, o: Outcome, g: Gathered)
    requires SplitLanes(ls, first, rest) && DistinctIds(LaneEntries(ls.lanes))
    requires Explained(Frontier(first.segs, done), ResultOutcome(first.result), first.steady, rq, o) && !o.Threw?
    requires Gathers(rest, done, rq, g)
    requires Logged(first.calm, rq, s, o, s1) && LanesLogged(rest, rq, s1, g, s2)
    ensures LanesLogged(ls, rq, s, Prepend(o, g), s2)
  {
    if g.Stopped? {
      StoppedLogged(ls, first, rest, done, rq, s, s1, s2, o, g);
    } else {
      SplitFacts(ls, first, rest, done);
      ConcatDistinct(Entries(first.segs), LaneEntries(rest.lanes));
      hide TailsUnused, LaneEntries, Entries, Frontier, Fronts, LaneFront, Raws, Flat, DistinctIds, Barred, Successes,
           Responds,
           ResponsesLogged, Ids, Explained, Logged;
      ResponsesLoggedSplit(Frontier(first.segs, done), Fronts(rest.lanes, done), ResultOutcome(first.result), first.steady,
                           rq, s, s1, s2, o, g);
    }
  }

  lemma ResponsesLoggedSplit(a: seq<Entry>, b: seq<Entry>, result: Outcome, steady: bool, rq: Request, s: St, s1: St,
                             s2: St,
                             o: Outcome, g: Gathered)
    requires Ids(a) !! Ids(b) && Explained(a, result, steady, rq, o) && !o.Threw?
    requires result.Returned? || result.Threw?
    requires g.Collected? && Responds(b, rq, g.responses)
    requires Logged(true, rq, s, o, s1) && ResponsesLogged(rq, s1, g.responses, s2)
    ensures ResponsesLogged(rq, s, Prepend(o, g).responses, s2)
  {
    hide RanTarget, Announces, Quiet, Successes, AnnouncesAll;
  }

  lemma StoppedLogged(ls: LanePlans, first: Plan, rest: LanePlans, done: set<HashedId>, rq: Request, s: St, s1: St,
                      s2: St, o: Outcome, g: Gathered)
    requires SplitLanes(ls, first, rest) && g.Stopped?
    requires Explained(Frontier(first.segs, done), ResultOutcome(first.result), first.steady, rq, o) && !o.Threw?
    requires Gathers(rest, done, rq, g)
    requires Logged(first.calm, rq, s, o, s1) && LanesLogged(rest, rq, s1, g, s2)
    ensures LanesLogged(ls, rq, s, g, s2)
  {
    if LoneCulprit(ls) {
      LoneSplit(ls, first, rest);
      if Entries(first.segs) == [] { NothingReady(first.segs, map[], Setup(map[], _ => None), rq, s, done); }
    }
    hide TailsUnused, LaneEntries, Entries, Frontier, Fronts, LaneFront, Raws, Announces, RanTarget, Flat, Successes,
         Quiet;
  }

  lemma {:induction false} ExecLanes(gas: nat, callbacks: seq<Prog>, c: Counts, su: Setup, rq: Request, cx: Context,
                                     s: St, done: set<HashedId>)
    requires PlanLanes(gas, callbacks, c, su).Some? && !cx.inStep
    requires LanesReady(PlanLanes(gas, callbacks, c, su).value, c, su, rq, s, done)
    ensures LanesBehave(PlanLanes(gas, callbacks, c, su).value, done, rq, s, ExecAll(gas, callbacks, rq, cx, s))
    decreases gas, |callbacks|
  {
    if callbacks == [] { return; }
    hide Exec, LanesReady, Ready, LanesBehave, Behaves, LaneEntries, Entries, TailsUnused;
    var first := PlanOf(gas, callbacks[0], c, su).value;
    var rest := PlanLanes(gas, callbacks[1..], first.counts, su).value;
    var ls := PlanLanes(gas, callbacks, c, su).value;
    assert SplitLanes(ls, first, rest) by {
      LanesReadyTails(ls, c, su, rq, s, done);
      FlatIsCalm(gas, callbacks[0], c, su);
      if rest.raised.Some? { CulpritMakesSteps(gas, callbacks[1..], first.counts, su); }
    }
    LanesCounts(gas, callbacks[1..], first.counts, su);
    hide PlanOf, PlanLanes, SplitLanes;
    ReadyForFirst(ls, first, rest, c, su, rq, s, done);
    ExecPlan(gas, callbacks[0], c, su, rq, cx, s, done);
    var (o, s1) := Exec(gas, callbacks[0], rq, cx, s);
    FirstOutcome(ls, first, rest, done, rq, s, (o, s1));
    if !o.Threw? {
      FlatCounts(gas, callbacks[0], c, su);
      var n := ReachedPrefix(gas, callbacks[0], c, su, rq, cx, s, done);
      ReadyForRest(ls, first, rest, c, su, rq, s, done, (o, s1), n);
      ExecLanes(gas, callbacks[1..], first.counts, su, rq, cx, s1, done);
      BehavesJoined(ls, first, rest, c, su, done, rq, s, (o, s1), ExecAll(gas, callbacks[1..], rq, cx, s1));
    }
  }

  lemma LanesReadyTails(ls: LanePlans, c: Counts, su: Setup, rq: Request, s: St, done: set<HashedId>)
    requires LanesReady(ls, c, su, rq, s, done)
    ensures TailsUnused(ls.lanes)
  {
  }

  /** The first callback neither exhausts the calls nor meets a nested step; if it throws, the group stops. */
  lemma FirstOutcome(ls: LanePlans, first: Plan, rest: LanePlans, done: set<HashedId>, rq: Request, s: St,
                     r: (Outcome, St))
    requires SplitLanes(ls, first, rest) && Behaves(first, done, rq, s, r)
    requires forall x :: x !in Raws(LaneEntries(rest.lanes)) ==> Count(rest.counts, x) == Count(first.counts, x)
    ensures Flat(first.segs)
    ensures !r.0.NestedStep? && !r.0.Exhausted? && Framed(Entries(first.segs), s, r.1)
    ensures r.0.Threw? ==> LanesBehave(ls, done, rq, s, (Stopped(r.0), r.1))
  {
    SplitFacts(ls, first, rest, done);
    FramedMore(Entries(first.segs), LaneEntries(rest.lanes), s, r.1);
    if LoneCulprit(ls) { LoneSplit(ls, first, rest); }
    hide Framed, Entries, LaneEntries, Frontier, Fronts, TailsUnused, Barred;
  }

  lemma BehavesJoined(ls: LanePlans, first: Plan, rest: LanePlans, c: Counts, su: Setup, done: set<HashedId>,
                      rq: Request, s: St,
                      r: (Outcome, St), g: (Gathered, St))
    requires SplitLanes(ls, first, rest) && LanesReady(ls, c, su, rq, s, done)
    requires Behaves(first, done, rq, s, r) && !r.0.Threw? && !r.0.NestedStep? && !r.0.Exhausted?
    requires LanesBehave(rest, done, rq, r.1, g)
    requires forall x :: x !in Raws(LaneEntries(rest.lanes)) ==> Count(rest.counts, x) == Count(first.counts, x)
    ensures LanesBehave(ls, done, rq, s, (Prepend(r.0, g.0), g.1))
  {
    if LoneCulprit(ls) {
      LoneSplit(ls, first, rest);
      assert first.result.Failed? && g.0.Stopped? ==> IsBodyFault(g.0.o, ls.steady, rq);
    }
    hide Framed, MemosFit, TargetRuns, LaneEntries, Entries, Fronts, Frontier, TailsUnused, Gathers, LanesLogged,
         Logged, Explained;
    var lane, es := Entries(first.segs), LaneEntries(rest.lanes);
    SplitFacts(ls, first, rest, done);
    FramedTrans(lane, es, s, r.1, g.1);
    GathersSplit(ls, first, rest, done, rq, r.0, g.0);
    LoggedSplit(ls, first, rest, done, rq, s, r.1, g.1, r.0, g.0);
    FramedCounts(es, r.1, g.1);
    assert lane == [] ==> lane + es == es;
  }

  lemma FramedCounts(es: seq<Entry>, s: St, s': St)
    requires Framed(es, s, s')
    ensures forall x :: x !in Raws(es) ==> Count(s'.counts, x) == Count(s.counts, x)
  {
  }
}
