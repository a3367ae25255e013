/** Replay computes what a direct run computes, in a bounded number of invocations, running handlers once. */
module TriggerLaws {
  import opened Values
  import opened StepIds
  import opened Memos
  import opened Programs
  import opened Engine
  import opened EngineLaws
  import opened Plans
  import opened Replay
  import opened Trigger

  // ----- The frontier moves only where it is worked on -----

  lemma {:induction false} LaneFrontStable(lane: seq<Entry>, done: set<HashedId>, more: set<HashedId>, e: Entry)
    requires e in LaneFront(lane, done) && e.id !in more
    ensures e in LaneFront(lane, done + more)
  {
    if lane[0].id in done {
      LaneFrontStable(lane[1..], done, more, e);
    }
  }

  lemma {:induction false} FrontsStable(lanes: seq<seq<Entry>>, done: set<HashedId>, more: set<HashedId>, e: Entry)
    requires e in Fronts(lanes, done) && e.id !in more
    ensures e in Fronts(lanes, done + more)
  {
    if e in LaneFront(lanes[0], done) {
      LaneFrontStable(lanes[0], done, more, e);
    } else {
      FrontsStable(lanes[1..], done, more, e);
    }
  }

  lemma {:induction false} LaneDoneStays(lane: seq<Entry>, done: set<HashedId>, more: set<HashedId>)
    requires LaneFront(lane, done) == []
    ensures LaneFront(lane, done + more) == []
  {
    if lane != [] { LaneDoneStays(lane[1..], done, more); }
  }

  lemma {:induction false} FrontsDoneStay(lanes: seq<seq<Entry>>, done: set<HashedId>, more: set<HashedId>)
    requires Fronts(lanes, done) == []
    ensures Fronts(lanes, done + more) == []
  {
    if lanes != [] {
      LaneDoneStays(lanes[0], done, more);
      FrontsDoneStay(lanes[1..], done, more);
    }
  }

  lemma GroupFrontDoneStays(lanes: seq<seq<Entry>>, decides: Option<seq<Entry>>, done: set<HashedId>,
                            more: set<HashedId>)
    requires GroupFront(lanes, decides, done) == []
    ensures GroupFront(lanes, decides, done + more) == []
  {
    if decides.Some? && LaneFront(decides.value, done) == [] {
      LaneDoneStays(decides.value, done, more);
    } else {
      FrontsDoneStay(lanes, done, more);
    }
  }

  /** A callback that raises after its steps makes all the steps of its group, or the code after makes none. */
  ghost predicate WellCut(segs: seq<Segment>) {
    segs != [] ==>
      && (segs[0].Lanes? && segs[0].decides.Some? ==>
            LaneEntries(segs[0].lanes) == segs[0].decides.value || Entries(segs[1..]) == [])
      && WellCut(segs[1..])
  }

  lemma {:induction false} PlanWellCut(gas: nat, p: Prog, c: Counts, su: Setup)
    requires PlanOf(gas, p, c, su).Some?
    ensures WellCut(PlanOf(gas, p, c, su).value.segs)
    decreases gas
  {
    var pl := PlanOf(gas, p, c, su).value;
    match p
    case Return(_) =>
    case Raise(_) =>
    case Flaky(_, next) => PlanWellCut(gas - 1, next, c, su);
    case Step(id, op, handler, k) =>
      var e, next, rest := UnfoldStep(gas - 1, id, op, handler, k, pl, c, su);
      hide PlanOf, Entries, LaneEntries;
      PlanWellCut(gas - 1, next, Bump(c, id), su);
      assert pl.segs[1..] == rest.segs;
    case Parallel(callbacks, mode, gk) =>
      if FailsAtOnce(gas - 1, callbacks, c, su) {
        var hs, rest := UnfoldFailing(gas - 1, callbacks, mode, gk, pl, c, su);
        hide PlanOf, Entries, LaneEntries;
        PlanWellCut(gas - 1, gk(GroupFailed(hs.e)), hs.counts, su);
        assert pl.segs[1..] == rest.segs;
      } else {
        var ls, rest := UnfoldGroup(gas - 1, callbacks, mode, gk, pl, c, su);
        hide PlanOf, Entries, LaneEntries, TailsUnused;
        PlanWellCut(gas - 1, gk(ls.Result()), ls.counts, su);
        assert pl.segs[1..] == rest.segs;
      }
  }

  /**
   * A step that is next in line stays next in line while others are memoized, unless a callback has raised and
   * nothing is left to do.
   */
  lemma {:induction false} FrontierStable(segs: seq<Segment>, done: set<HashedId>, more: set<HashedId>, e: Entry)
    requires WellCut(segs) && e in Frontier(segs, done) && e.id !in more
    ensures e in Frontier(segs, done + more) || Frontier(segs, done + more) == []
  {
    var front := SegmentFront(segs[0], done);
    if front == [] {
      if segs[0].Lanes? { GroupFrontDoneStays(segs[0].lanes, segs[0].decides, done, more); }
      FrontierStable(segs[1..], done, more, e);
    } else if segs[0].Lanes? {
      LanesStable(segs, done, more, e);
    }
  }

  lemma LanesStable(segs: seq<Segment>, done: set<HashedId>, more: set<HashedId>, e: Entry)
    requires segs != [] && segs[0].Lanes? && WellCut(segs) && e in Fronts(segs[0].lanes, done) && e.id !in more
    ensures e in Frontier(segs, done + more) || Frontier(segs, done + more) == []
  {
    var lanes, decides := segs[0].lanes, segs[0].decides;
    FrontsStable(lanes, done, more, e);
    if decides.Some? && LaneFront(decides.value, done + more) == [] {
      FrontsInEntries(lanes, done);
      LaneFrontEmpty(decides.value, done + more);
      assert e in decides.value ==> e.id in Ids(decides.value);
      FrontInEntries(segs[1..], done + more);
      HasFirst(Frontier(segs[1..], done + more));
    }
  }

  lemma {:induction false} LaneFrontEmpty(lane: seq<Entry>, done: set<HashedId>)
    requires LaneFront(lane, done) == []
    ensures Ids(lane) <= done
  {
    if lane != [] {
      LaneFrontEmpty(lane[1..], done);
      assert lane == [lane[0]] + lane[1..];
    }
  }

  lemma {:induction false} FrontsEmpty(lanes: seq<seq<Entry>>, done: set<HashedId>)
    requires Fronts(lanes, done) == []
    ensures Ids(LaneEntries(lanes)) <= done
  {
    if lanes != [] {
      LaneFrontEmpty(lanes[0], done);
      FrontsEmpty(lanes[1..], done);
    }
  }

  /** No callback leaves steps of its group behind when it raises. */
  ghost predicate Whole(segs: seq<Segment>) {
    segs != [] ==>
      && (segs[0].Lanes? && segs[0].decides.Some? ==> LaneEntries(segs[0].lanes) == segs[0].decides.value)
      && Whole(segs[1..])
  }

  /** Nothing is next in line only when every step has a memo, if no steps are left behind. */
  lemma {:induction false} FrontierEmpty(segs: seq<Segment>, done: set<HashedId>)
    requires Frontier(segs, done) == [] && Whole(segs)
    ensures Ids(Steps(segs)) <= done
  {
    if segs != [] {
      if segs[0].Lanes? { GroupFrontEmpty(segs[0].lanes, segs[0].decides, done); }
      FrontierEmpty(segs[1..], done);
    }
  }

  lemma GroupFrontEmpty(lanes: seq<seq<Entry>>, decides: Option<seq<Entry>>, done: set<HashedId>)
    requires GroupFront(lanes, decides, done) == [] && (decides.Some? ==> LaneEntries(lanes) == decides.value)
    ensures Ids(LaneEntries(lanes)) <= done
  {
    if decides.Some? && LaneFront(decides.value, done) == [] {
      LaneFrontEmpty(decides.value, done);
    } else {
      FrontsEmpty(lanes, done);
    }
  }

  lemma {:induction false} DistinctFronts(lanes: seq<seq<Entry>>, done: set<HashedId>)
    requires DistinctIds(LaneEntries(lanes))
    ensures DistinctIds(Fronts(lanes, done))
  {
    if lanes != [] {
      ConcatDistinct(lanes[0], LaneEntries(lanes[1..]));
      DistinctFronts(lanes[1..], done);
      LaneFrontInLane(lanes[0], done);
      FrontsInEntries(lanes[1..], done);
      var a: seq<Entry>, b: seq<Entry> := LaneFront(lanes[0], done), Fronts(lanes[1..], done);
      var c: seq<Entry> := a + b;
      forall i, j | 0 <= i < j < |c| ensures c[i].id != c[j].id {
        if i < |a| {
          assert a[i] in lanes[0] && a[i].id in Ids(lanes[0]);
          assert b[j - |a|] in LaneEntries(lanes[1..]) && b[j - |a|].id in Ids(LaneEntries(lanes[1..]));
        }
      }
    }
  }

  lemma {:induction false} DistinctFrontier(segs: seq<Segment>, done: set<HashedId>)
    requires DistinctIds(Entries(segs))
    ensures DistinctIds(Frontier(segs, done))
  {
    if segs != [] {
      ConcatDistinct(SegmentEntries(segs[0]), Entries(segs[1..]));
      if segs[0].Lanes? { DistinctFronts(segs[0].lanes, done); }
      DistinctFrontier(segs[1..], done);
    }
  }

  // ----- Every planned step can be resolved -----

  /** How the executor finds the value of a step it was told about. */
  ghost predicate Resolvable(e: Entry, stubs: Stubs) {
    && e.runs == (e.op.StepRun? && e.raw !in stubs)
    && (e.raw in stubs ==> e.value == StubValue(stubs[e.raw]))
    && (e.raw !in stubs ==> e.op.Sleep? || e.op.StepRun?)
    && (e.raw !in stubs && e.op.Sleep? ==> e.value == Null)
  }

  ghost predicate AllResolvable(es: seq<Entry>, stubs: Stubs) {
    forall e :: e in es ==> Resolvable(e, stubs)
  }

  lemma {:induction false} PlanResolvable(gas: nat, p: Prog, c: Counts, su: Setup)
    requires PlanOf(gas, p, c, su).Some?
    ensures AllResolvable(Entries(PlanOf(gas, p, c, su).value.segs), su.stubs)
    decreases gas, 0
  {
    match p
    case Return(_) =>
    case Raise(_) =>
    case Flaky(_, next) => PlanResolvable(gas - 1, next, c, su);
    case Step(id, op, handler, k) =>
      var value := PlanStep(gas - 1, id, op, handler, su).value;
      var e := Entry(id, PreHash(id, Count(c, id)), op, value, op.StepRun? && id !in su.stubs);
      var next := k(MemoResult(Decode(su.parse, value)));
      PlanResolvable(gas - 1, next, Bump(c, id), su);
      EntriesCons(One(e), PlanOf(gas - 1, next, Bump(c, id), su).value.segs);
    case Parallel(callbacks, mode, gk) => GroupResolvable(gas - 1, callbacks, mode, gk, PlanOf(gas, p, c, su).value, c, su);
  }

  lemma {:induction false} GroupResolvable(gas: nat, callbacks: seq<Prog>, mode: ParallelMode,
                                           gk: GroupResult -> Prog, pl: Plan,
                                           c: Counts, su: Setup)
    requires PlanOf(gas + 1, Parallel(callbacks, mode, gk), c, su) == Some(pl)
    ensures AllResolvable(Entries(pl.segs), su.stubs)
    decreases gas, |callbacks| + 1
  {
    hide PlanOf, PlanLanes, PlanHeads, FailsAtOnce, TailsUnused, Resolvable;
    if FailsAtOnce(gas, callbacks, c, su) {
      var hs, rest := UnfoldFailing(gas, callbacks, mode, gk, pl, c, su);
      HeadsResolvable(gas, callbacks, c, su);
      PlanResolvable(gas, gk(GroupFailed(hs.e)), hs.counts, su);
      EntriesCons(Heads(hs.lanes), rest.segs);
    } else {
      var ls, rest := UnfoldGroup(gas, callbacks, mode, gk, pl, c, su);
      LanesResolvable(gas, callbacks, c, su);
      PlanResolvable(gas, gk(ls.Result()), ls.counts, su);
      EntriesCons(Lanes(ls.lanes, ls.Decides()), rest.segs);
    }
  }

  lemma {:induction false} HeadsResolvable(gas: nat, callbacks: seq<Prog>, c: Counts, su: Setup)
    requires PlanHeads(gas, callbacks, c, su).Some?
    ensures AllResolvable(HeadEntries(PlanHeads(gas, callbacks, c, su).value.lanes), su.stubs)
    decreases gas, |callbacks|
  {
    hide PlanOf, Resolvable, Entries;
    var first := UnfoldHeads(gas, callbacks, c, su);
    if first.result.Ok? {
      var lane := Entries(first.segs);
      var rest := PlanHeads(gas, callbacks[1..], CountHead(lane, c), su).value;
      PlanResolvable(gas, callbacks[0], c, su);
      HeadsResolvable(gas, callbacks[1..], CountHead(lane, c), su);
      HeadsSplit(PlanHeads(gas, callbacks, c, su).value, lane, rest);
    } else {
      assert HeadEntries([]) == [];
    }
  }

  lemma {:induction false} LanesResolvable(gas: nat, callbacks: seq<Prog>, c: Counts, su: Setup)
    requires PlanLanes(gas, callbacks, c, su).Some?
    ensures AllResolvable(LaneEntries(PlanLanes(gas, callbacks, c, su).value.lanes), su.stubs)
    decreases gas, |callbacks|
  {
    if callbacks != [] {
      var first := PlanOf(gas, callbacks[0], c, su).value;
      PlanResolvable(gas, callbacks[0], c, su);
      LanesResolvable(gas, callbacks[1..], first.counts, su);
      LaneEntriesCons(Entries(first.segs), PlanLanes(gas, callbacks[1..], first.counts, su).value.lanes);
    }
  }

  // ----- The loop invariant -----

  ghost predicate QuietAt(w: World, n: nat) {
    forall site :: w.fault(n)(site).None?
  }

  /** How many of the first `n` invocations the environment may disturb. */
  ghost function FaultsBefore(w: World, n: nat): nat {
    if n == 0 then 0 else FaultsBefore(w, n - 1) + (if QuietAt(w, n - 1) then 0 else 1)
  }

  /** The steps that only a handler resolves. */
  function RunIds(es: seq<Entry>, done: set<HashedId>): set<HashedId> {
    set e | e in es && e.runs && e.id in done :: e.id
  }

  ghost predicate NextInLine(segs: seq<Segment>, done: set<HashedId>, t: HashedId) {
    exists e :: e in Frontier(segs, done) && e.id == t && e.runs
  }

  /** A handler resolves this step. */
  ghost predicate RunsLater(segs: seq<Segment>, t: HashedId) {
    exists e :: e in Steps(segs) && e.id == t && e.runs
  }

  /** What is planned has no memo and is next in line, unless nothing is. */
  ghost predicate PlannedFit(segs: seq<Segment>, done: set<HashedId>, planned: set<HashedId>) {
    && (forall t :: t in planned ==> t !in done && RunsLater(segs, t))
    && (Frontier(segs, done) != [] ==> forall t :: t in planned ==> NextInLine(segs, done, t))
  }

  lemma PlannedFewer(segs: seq<Segment>, done: set<HashedId>, planned: set<HashedId>, fewer: set<HashedId>)
    requires PlannedFit(segs, done, planned) && fewer <= planned
    ensures PlannedFit(segs, done, fewer)
  {
  }

  /** Memos belong to planned steps and hold their values. */
  ghost predicate MemosCorrect(es: seq<Entry>, steps: map<HashedId, Value>) {
    && steps.Keys <= Ids(es)
    && forall e :: e in es && e.id in steps ==> steps[e.id] == e.value
  }

  /** Every memoized step was memoized once, in the order of the stack. */
  ghost predicate StackFits(st: TState) {
    NoDuplicates(st.stack) && Elements(st.stack) == st.steps.Keys
  }

  ghost predicate Inv(pl: Plan, w: World, cfg: Config, st: TState) {
    && MemosCorrect(Steps(pl.segs), st.steps)
    && StackFits(st)
    && PlannedFit(pl.segs, st.steps.Keys, st.planned)
    && st.attempt <= cfg.MaxAttempt()
    && st.attempt == st.errors
    && (pl.result.Ok? ==> st.errors <= FaultsBefore(w, st.n))
    && SuccessesAccounted(pl, st, st.steps.Keys)
  }

  /**
   * Every handler that returned has its step among the memoized ones `done`, once, or its result was lost in
   * an invocation that answered something else; that cannot happen in a calm program.
   */
  ghost predicate SuccessesAccounted(pl: Plan, st: TState, done: set<HashedId>) {
    && Successes(st.log) == multiset(RunIds(Steps(pl.segs), done)) + st.lost
    && (pl.calm ==> st.lost == multiset{})
  }

  /** The program has a planned run in which no hashed ID occurs twice. */
  ghost predicate Planned(gas: nat, p: Prog, cfg: Config, pl: Plan) {
    && PlanOf(gas, p, map[], cfg.setup) == Some(pl)
    && DistinctIds(Entries(pl.segs))
  }

  /** What is left to do: every memo counts double, as it may first have to be planned. */
  ghost function Measure(pl: Plan, cfg: Config, st: TState): int {
    2 * (|Ids(Steps(pl.segs))| - |st.steps.Keys|) + 2 * (cfg.MaxAttempt() + 1 - st.attempt)
    + (if st.planned == {} then 1 else 0)
  }

  lemma StartInv(pl: Plan, w: World, cfg: Config)
    ensures Inv(pl, w, cfg, START)
  {
    assert RunIds(Steps(pl.segs), {}) == {};
  }

  // ----- What responses do to the loop state -----

  /** Steps resolved as soon as they are reported, and steps that are planned. */
  function NowIds(es: seq<Entry>): set<HashedId> {
    set e | e in es && !e.runs :: e.id
  }

  function LaterIds(es: seq<Entry>): set<HashedId> {
    set e | e in es && e.runs :: e.id
  }

  /** The state after being told about `es`: sleeps and stubs are memoized at once, the rest is planned. */
  ghost predicate Told(es: seq<Entry>, st: TState, st': TState) {
    && st'.steps.Keys == st.steps.Keys + NowIds(es)
    && (forall h :: h in st.steps ==> st'.steps[h] == st.steps[h])
    && (forall e :: e in es && !e.runs ==> st'.steps[e.id] == e.value)
    && st'.planned == st.planned + LaterIds(es)
    && st' == st.(steps := st'.steps, planned := st'.planned, stack := st'.stack)
  }

  lemma ApplyAnnouncement(r: StepResponse, e: Entry, cfg: Config, st: TState)
    requires Announces(r, e) && Resolvable(e, cfg.setup.stubs) && e.id !in st.steps && StackFits(st)
    ensures var turn := ApplyOne(r, cfg, st);
            turn.Again? && Told([e], st, turn.st) && StackFits(turn.st)
  {
    assert forall x :: x in [e] <==> x == e;
    assert e in [e];
    var st1 := ApplyOne(r, cfg, st).st;
    if !e.runs {
      assert Elements(st1.stack) == Elements(st.stack) + {e.id};
    }
  }

  lemma ToldConcat(a: seq<Entry>, b: seq<Entry>, st: TState, st1: TState, st2: TState)
    requires Told(a, st, st1) && Told(b, st1, st2) && Ids(a) !! Ids(b)
    ensures Told(a + b, st, st2)
  {
    assert NowIds(a + b) == NowIds(a) + NowIds(b);
    assert LaterIds(a + b) == LaterIds(a) + LaterIds(b);
  }

  lemma {:induction false} ApplyAnnounced(rs: seq<StepResponse>, es: seq<Entry>, cfg: Config, st: TState)
    requires AnnouncesAll(rs, es) && DistinctIds(es) && Ids(es) !! st.steps.Keys
    requires AllResolvable(es, cfg.setup.stubs) && StackFits(st)
    ensures var turn := ApplyAll(rs, cfg, st);
            turn.Again? && Told(es, st, turn.st) && StackFits(turn.st)
  {
    if rs != [] {
      var e, rest := es[0], es[1..];
      assert es == [e] + rest;
      ConcatDistinct([e], rest);
      ConcatIds([e], rest);
      assert e in es && e in [e];
      assert Announces(rs[0], e);
      ApplyAnnouncement(rs[0], e, cfg, st);
      var st1 := ApplyOne(rs[0], cfg, st).st;
      assert forall i :: 0 <= i < |rs| - 1 ==> Announces(rs[1..][i], rest[i]);
      assert forall x :: x in [e] ==> x == e;
      ApplyAnnounced(rs[1..], rest, cfg, st1);
      ToldConcat([e], rest, st, st1, ApplyAll(rs, cfg, st).st);
    }
  }

  // ----- One turn of the loop -----

  lemma SumAssociative<T>(x: multiset<T>, y: multiset<T>, z: multiset<T>)
    ensures x + (y + z) == (x + y) + z
  {
  }

  lemma ConcatSnoc<T>(a: seq<T>, b: seq<T>)
    requires b != []
    ensures b == b[..|b| - 1] + [b[|b| - 1]] && a + b == (a + b[..|b| - 1]) + [b[|b| - 1]]
  {
  }

  lemma {:induction false} SuccessesConcat(a: seq<Event>, b: seq<Event>)
    ensures Successes(a + b) == Successes(a) + Successes(b)
  {
    if b == [] {
      assert a + b == a;
    } else {
      hide Successes;
      var front, last := b[..|b| - 1], b[|b| - 1];
      var gain := if last.HandlerEnd? && last.ok then multiset{last.id} else multiset{};
      SuccessesConcat(a, front);
      SuccessesSnoc(a + front, last);
      SuccessesSnoc(front, last);
      ConcatSnoc(a, b);
      SumAssociative(Successes(a), Successes(front), gain);
    }
  }

  lemma DistinctEntry(es: seq<Entry>, d: Entry, e: Entry)
    requires DistinctIds(es) && d in es && e in es && d.id == e.id
    ensures d == e
  {
    var i :| 0 <= i < |es| && es[i] == d;
    var j :| 0 <= j < |es| && es[j] == e;
  }

  /** Every step gets a memo or never does. */
  lemma {:induction false} EntriesParts(segs: seq<Segment>)
    requires DistinctIds(Entries(segs))
    ensures DistinctIds(Steps(segs)) && Ids(Steps(segs)) !! Ids(Barred(segs))
    ensures forall e :: e in Entries(segs) <==> e in Steps(segs) || e in Barred(segs)
    ensures Ids(Entries(segs)) == Ids(Steps(segs)) + Ids(Barred(segs))
  {
    if segs != [] {
      var a, rest := SegmentEntries(segs[0]), segs[1..];
      ConcatDistinct(a, Entries(rest));
      EntriesParts(rest);
      ConcatIds(a, Entries(rest));
      ConcatIds(a, Steps(rest));
      ConcatIds(a, Barred(rest));
      assert [] + Steps(rest) == Steps(rest) && [] + Barred(rest) == Barred(rest);
      hide SegmentEntries;
      if !segs[0].Heads? { JoinDistinct(a, Steps(rest)); }
    }
  }

  lemma JoinDistinct(a: seq<Entry>, b: seq<Entry>)
    requires DistinctIds(a) && DistinctIds(b) && Ids(a) !! Ids(b)
    ensures DistinctIds(a + b)
  {
    forall i, j | 0 <= i < j < |a + b| ensures (a + b)[i].id != (a + b)[j].id {
      if i < |a| <= j {
        assert a[i] in a && b[j - |a|] in b;
        assert a[i].id in Ids(a) && b[j - |a|].id in Ids(b);
      }
    }
  }

  lemma MemosAreReady(pl: Plan, cfg: Config, steps: map<HashedId, Value>)
    requires DistinctIds(Entries(pl.segs)) && MemosCorrect(Steps(pl.segs), steps)
    ensures MemosFit(Entries(pl.segs), FromRaw(cfg.setup.parse, steps), steps.Keys, cfg.setup)
    ensures forall e :: e in Barred(pl.segs) ==> e.id !in steps
  {
    EntriesParts(pl.segs);
    hide Entries, Steps, Barred, DistinctIds, Ids;
    BarredHaveNone(Steps(pl.segs), Barred(pl.segs), steps);
    FitFromParts(Entries(pl.segs), Steps(pl.segs), Barred(pl.segs), cfg.setup, steps);
  }

  lemma BarredHaveNone(es: seq<Entry>, barred: seq<Entry>, steps: map<HashedId, Value>)
    requires MemosCorrect(es, steps) && Ids(es) !! Ids(barred)
    ensures forall e :: e in barred ==> e.id !in steps
  {
    forall e | e in barred ensures e.id !in steps {
      assert e.id in Ids(barred);
    }
  }

  lemma FitFromParts(all: seq<Entry>, es: seq<Entry>, barred: seq<Entry>, su: Setup, steps: map<HashedId, Value>)
    requires forall e :: e in all <==> e in es || e in barred
    requires MemosCorrect(es, steps) && forall e :: e in barred ==> e.id !in steps
    ensures MemosFit(all, FromRaw(su.parse, steps), steps.Keys, su)
  {
    hide Decode, Ids;
    forall i | 0 <= i < |all| && all[i].id in steps ensures steps[all[i].id] == all[i].value {
      assert all[i] in all;
    }
  }

  lemma TargetIsReady(pl: Plan, rq: Request)
    requires DistinctIds(Entries(pl.segs)) && (rq.target.Some? ==> RunsLater(pl.segs, rq.target.value))
    ensures TargetRuns(Entries(pl.segs), rq)
    ensures forall e :: e in Barred(pl.segs) ==> rq.target != Some(e.id)
  {
    EntriesParts(pl.segs);
    hide Entries, Steps, Barred;
    var es := Entries(pl.segs);
    if rq.target.Some? {
      var t := rq.target.value;
      var e :| e in Steps(pl.segs) && e.id == t && e.runs;
      assert e.id in Ids(Steps(pl.segs));
      forall i | 0 <= i < |es| && es[i].id == t ensures es[i].runs {
        DistinctEntry(es, es[i], e);
      }
      forall b | b in Barred(pl.segs) ensures b.id != t {
        assert b.id in Ids(Barred(pl.segs));
      }
    }
  }

  /** A target is a step without a memo that gets one later, and it is next in line unless nothing is. */
  lemma PlannedIsNext(segs: seq<Segment>, done: set<HashedId>, planned: set<HashedId>, t: HashedId)
    requires PlannedFit(segs, done, planned) && t in planned
    ensures RunsLater(segs, t) && (Frontier(segs, done) != [] ==> t in Ids(Frontier(segs, done)))
  {
    hide Frontier, Steps;
    if Frontier(segs, done) != [] { assert NextInLine(segs, done, t); }
  }

  lemma LoopIsReady(gas: nat, p: Prog, pl: Plan, w: World, cfg: Config, st: TState)
    requires Planned(gas, p, cfg, pl) && ValidPick(w) && Inv(pl, w, cfg, st)
    ensures Ready(pl, map[], cfg.setup, RequestOf(w, st), Initial(FromRaw(cfg.setup.parse, st.steps)), st.steps.Keys)
  {
    var rq, done := RequestOf(w, st), st.steps.Keys;
    hide Entries, Steps, Barred, MemosFit, TargetRuns, MemosCorrect, StackFits, SuccessesAccounted, PlanOf,
         DistinctIds, FaultsBefore;
    hide Frontier, PlannedFit, RunsLater;
    if rq.target.Some? { PlannedIsNext(pl.segs, done, st.planned, rq.target.value); }
    MemosAreReady(pl, cfg, st.steps);
    TargetIsReady(pl, rq);
  }

  /** The loop has ended as it should. */
  ghost predicate Final(pl: Plan, w: World, cfg: Config, result: Result, st: TState) {
    && (pl.result.Ok? ==>
          && st.errors <= FaultsBefore(w, st.n)
          && (|| (result == Completed(pl.result.v) && st.errors <= cfg.MaxAttempt())
              || (result.Failure? && result.error.Transient? && st.errors == cfg.MaxAttempt() + 1)))
    && (pl.result.Failed? ==>
          || result == Failure(pl.result.e)
          || (result.Failure? && result.error.Transient? && FaultsBefore(w, st.n) > 0))
    && (result.Completed? ==>
          && MemosCorrect(Steps(pl.segs), st.steps) && StackFits(st)
          && (Whole(pl.segs) ==> st.steps.Keys == Ids(Steps(pl.segs)))
          && SuccessesAccounted(pl, st, st.steps.Keys))
  }

  ghost predicate Progress(pl: Plan, w: World, cfg: Config, st: TState, turn: Turn) {
    match turn
    case Again(st1) => Inv(pl, w, cfg, st1) && st1.n == st.n + 1 && Measure(pl, cfg, st1) < Measure(pl, cfg, st)
    case Stop(result, st1) => Final(pl, w, cfg, result, st1) && st1.n == st.n + 1
    case Hangs => false
  }

  /** An error is the function's own, or one that the environment caused in this invocation. */
  ghost predicate Accounted(pl: Plan, w: World, n: nat, e: Err) {
    (e.Transient? && !QuietAt(w, n)) || pl.result == Failed(e)
  }

  lemma LostAccounted(pl: Plan, w: World, st: TState, res: CallResult, log: seq<Event>, done: set<HashedId>)
    requires SuccessesAccounted(pl, st, done) && !Delivered(res)
    requires pl.calm ==> Successes(log) == multiset{}
    ensures SuccessesAccounted(pl, Invoked(w, st, res, log), done)
  {
    hide RunIds, Successes, Steps, AnswersError;
    SuccessesConcat(st.log, log);
    SumAssociative(multiset(RunIds(Steps(pl.segs), done)), st.lost, Successes(log));
  }

  lemma NothingMoreAccounted(pl: Plan, w: World, st: TState, res: CallResult, log: seq<Event>, done: set<HashedId>)
    requires SuccessesAccounted(pl, st, done) && !AnswersError(res) && Successes(log) == multiset{}
    ensures SuccessesAccounted(pl, Invoked(w, st, res, log), done)
  {
    hide RunIds, Successes, Steps;
    SuccessesConcat(st.log, log);
  }

  /** What an invocation leaves as it was. */
  lemma InvokedKeeps(w: World, st: TState, res: CallResult, log: seq<Event>)
    ensures var st1 := Invoked(w, st, res, log);
            && st1.steps == st.steps && st1.stack == st.stack && st1.attempt == st.attempt && st1.n == st.n + 1
            && st1.errors == st.errors + (if AnswersError(res) then 1 else 0)
            && st1.planned <= st.planned
            && (StackFits(st) ==> StackFits(st1))
  {
    hide AnswersError;
  }

  lemma SameAccount(pl: Plan, st: TState, st1: TState, done: set<HashedId>)
    requires SuccessesAccounted(pl, st, done) && st1.log == st.log && st1.lost == st.lost
    ensures SuccessesAccounted(pl, st1, done)
  {
  }

  lemma ErrorAgain(pl: Plan, w: World, cfg: Config, st: TState, res: CallResult, log: seq<Event>, e: Err)
    requires Inv(pl, w, cfg, st) && ValidPick(w) && Accounted(pl, w, st.n, e) && st.attempt < cfg.MaxAttempt()
    requires AnswersError(res) && (pl.calm ==> Successes(log) == multiset{})
    ensures var st1 := Invoked(w, st, res, log).(attempt := st.attempt + 1);
            Inv(pl, w, cfg, st1) && Measure(pl, cfg, st1) < Measure(pl, cfg, st)
  {
    var invoked := Invoked(w, st, res, log);
    var st1 := invoked.(attempt := st.attempt + 1);
    LostAccounted(pl, w, st, res, log, st.steps.Keys);
    InvokedKeeps(w, st, res, log);
    PlannedFewer(pl.segs, st.steps.Keys, st.planned, st1.planned);
    hide Invoked, MemosCorrect, PlannedFit, Steps, QuietAt, Successes, AnswersError, ValidPick, SuccessesAccounted;
    SameAccount(pl, invoked, st1, st.steps.Keys);
    assert StackFits(st1) by { assert st1.stack == invoked.stack; }
  }

  lemma ErrorTurn(pl: Plan, w: World, cfg: Config, st: TState, res: CallResult, log: seq<Event>, e: Err)
    requires Inv(pl, w, cfg, st) && ValidPick(w) && Accounted(pl, w, st.n, e)
    requires AnswersError(res) && (pl.calm ==> Successes(log) == multiset{})
    ensures Progress(pl, w, cfg, st, CountError(e, cfg, Invoked(w, st, res, log)))
  {
    InvokedKeeps(w, st, res, log);
    hide Invoked, MemosCorrect, PlannedFit, SuccessesAccounted, Steps, QuietAt, Successes, StackFits, AnswersError,
         ValidPick;
    if st.attempt < cfg.MaxAttempt() {
      ErrorAgain(pl, w, cfg, st, res, log, e);
      hide Inv, Measure;
    }
  }

  lemma CompletesWell(pl: Plan, w: World, cfg: Config, st: TState, v: Value)
    requires pl.result == Ok(v) && st.errors <= FaultsBefore(w, st.n) && st.errors <= cfg.MaxAttempt()
    requires MemosCorrect(Steps(pl.segs), st.steps) && StackFits(st)
    requires Whole(pl.segs) ==> st.steps.Keys == Ids(Steps(pl.segs))
    requires SuccessesAccounted(pl, st, st.steps.Keys)
    ensures Final(pl, w, cfg, Completed(v), st)
  {
    hide SuccessesAccounted, MemosCorrect, StackFits, Steps, FaultsBefore, Whole;
  }

  lemma AllMemoized(pl: Plan, w: World, cfg: Config, st: TState)
    requires Inv(pl, w, cfg, st) && Frontier(pl.segs, st.steps.Keys) == [] && Whole(pl.segs)
    ensures st.steps.Keys == Ids(Steps(pl.segs))
  {
    hide SuccessesAccounted, StackFits, FaultsBefore, PlannedFit, Steps;
    FrontierEmpty(pl.segs, st.steps.Keys);
  }

  lemma ReturnTurn(pl: Plan, w: World, cfg: Config, st: TState, log: seq<Event>, v: Value)
    requires Inv(pl, w, cfg, st) && pl.result == Ok(v)
    requires Frontier(pl.segs, st.steps.Keys) == []
    requires pl.calm ==> Successes(log) == multiset{}
    ensures Progress(pl, w, cfg, st, Stop(Completed(v), Invoked(w, st, Finished(v), log)))
  {
    var st1 := Invoked(w, st, Finished(v), log);
    InvokedKeeps(w, st, Finished(v), log);
    assert FaultsBefore(w, st.n) <= FaultsBefore(w, st1.n);
    assert st1.errors == st.errors by { hide Invoked; }
    hide SuccessesAccounted, MemosCorrect, Steps, Invoked, StackFits, PlannedFit, Successes, Frontier, FaultsBefore,
         Final, Whole, AnswersError;
    LostAccounted(pl, w, st, Finished(v), log, st.steps.Keys);
    if Whole(pl.segs) { AllMemoized(pl, w, cfg, st); }
    CompletesWell(pl, w, cfg, st1, v);
  }

  /** Memoizing the steps `f` with their own values keeps the memos correct. */
  lemma MoreMemosCorrect(es: seq<Entry>, f: seq<Entry>, steps: map<HashedId, Value>, steps': map<HashedId, Value>)
    requires MemosCorrect(es, steps) && DistinctIds(es) && forall e :: e in f ==> e in es
    requires steps'.Keys == steps.Keys + NowIds(f)
    requires forall h :: h in steps ==> steps'[h] == steps[h]
    requires forall e :: e in f && !e.runs ==> steps'[e.id] == e.value
    ensures MemosCorrect(es, steps')
  {
    forall e | e in es && e.id in steps' ensures steps'[e.id] == e.value {
      if e.id !in steps {
        var d :| d in f && !d.runs && d.id == e.id;
        DistinctEntry(es, d, e);
      }
    }
  }

  lemma NowDoesNotRun(es: seq<Entry>, f: seq<Entry>, e: Entry)
    requires DistinctIds(es) && (forall d :: d in f ==> d in es) && e in es && e.runs
    ensures e.id !in NowIds(f)
  {
    if e.id in NowIds(f) {
      var d :| d in f && !d.runs && d.id == e.id;
      DistinctEntry(es, d, e);
    }
  }

  lemma RunIdsKept(es: seq<Entry>, f: seq<Entry>, done: set<HashedId>)
    requires DistinctIds(es) && forall e :: e in f ==> e in es
    ensures RunIds(es, done + NowIds(f)) == RunIds(es, done)
  {
    forall e | e in es && e.runs ensures e.id in done + NowIds(f) <==> e.id in done {
      NowDoesNotRun(es, f, e);
    }
  }

  lemma StillNext(segs: seq<Segment>, done: set<HashedId>, more: set<HashedId>, t: HashedId)
    requires WellCut(segs) && NextInLine(segs, done, t) && t !in more
    ensures NextInLine(segs, done + more, t) || Frontier(segs, done + more) == []
  {
    var e :| e in Frontier(segs, done) && e.id == t && e.runs;
    FrontierStable(segs, done, more, e);
  }

  /** The steps of the frontier that a handler resolves stay next in line while the others are memoized. */
  lemma DiscoveryPlans(segs: seq<Segment>, done: set<HashedId>)
    requires WellCut(segs) && DistinctIds(Entries(segs))
    ensures var f := Frontier(segs, done); PlannedFit(segs, done + NowIds(f), LaterIds(f))
  {
    hide Frontier, Entries, Steps, WellCut, Barred;
    var es, f := Steps(segs), Frontier(segs, done);
    EntriesParts(segs);
    FrontInEntries(segs, done);
    forall t | t in LaterIds(f)
      ensures t !in done + NowIds(f) && RunsLater(segs, t)
      ensures NextInLine(segs, done + NowIds(f), t) || Frontier(segs, done + NowIds(f)) == []
    {
      var e :| e in f && e.runs && e.id == t;
      NowDoesNotRun(es, f, e);
      StillNext(segs, done, NowIds(f), t);
    }
  }

  lemma DiscoveryKeepsInv(pl: Plan, w: World, cfg: Config, st: TState, res: CallResult, log: seq<Event>, st1: TState)
    requires Inv(pl, w, cfg, st) && DistinctIds(Entries(pl.segs)) && WellCut(pl.segs) && st.planned == {}
    requires Successes(log) == multiset{} && !AnswersError(res)
    requires Told(Frontier(pl.segs, st.steps.Keys), Invoked(w, st, res, log), st1) && StackFits(st1)
    ensures Inv(pl, w, cfg, st1) && st1.n == st.n + 1
  {
    hide Frontier, RunIds, MemosCorrect, StackFits, Entries, Steps, WellCut, Barred, PlannedFit;
    var es, done, f := Steps(pl.segs), st.steps.Keys, Frontier(pl.segs, st.steps.Keys);
    EntriesParts(pl.segs);
    NothingMoreAccounted(pl, w, st, res, log, done);
    FrontInEntries(pl.segs, done);
    MoreMemosCorrect(es, f, st.steps, st1.steps);
    RunIdsKept(es, f, done);
    DiscoveryPlans(pl.segs, done);
    assert st1.planned == LaterIds(f);
  }

  lemma DiscoveryShrinks(pl: Plan, cfg: Config, st: TState, st1: TState, more: set<HashedId>)
    requires st.planned == {} && st1.attempt == st.attempt && more !! st.steps.Keys
    requires st1.steps.Keys == st.steps.Keys + more
    requires st1.planned != {} || more != {}
    ensures Measure(pl, cfg, st1) < Measure(pl, cfg, st)
  {
    assert |st1.steps.Keys| == |st.steps.Keys| + |more|;
  }

  /** An untargeted invocation that reports steps memoizes some of them or plans some of them. */
  lemma DiscoveryTurn(pl: Plan, w: World, cfg: Config, st: TState, log: seq<Event>, rs: seq<StepResponse>)
    requires Inv(pl, w, cfg, st) && DistinctIds(Entries(pl.segs)) && WellCut(pl.segs) && st.planned == {}
    requires AllResolvable(Entries(pl.segs), cfg.setup.stubs)
    requires Successes(log) == multiset{}
    requires Frontier(pl.segs, st.steps.Keys) != [] && AnnouncesAll(rs, Frontier(pl.segs, st.steps.Keys))
    ensures Progress(pl, w, cfg, st, ApplyAll(rs, cfg, Invoked(w, st, Multi(rs), log)))
  {
    assert !AnswersError(Multi(rs));
    hide Frontier, MemosCorrect, AnswersError, Resolvable, NextInLine, RunsLater, ApplyAll, Entries, Steps, Successes,
         FaultsBefore, AnnouncesAll, RunIds, Measure, WellCut;
    var es, done, f := Entries(pl.segs), st.steps.Keys, Frontier(pl.segs, st.steps.Keys);
    FrontInEntries(pl.segs, done);
    DistinctFrontier(pl.segs, done);
    var st0 := Invoked(w, st, Multi(rs), log);
    ApplyAnnounced(rs, f, cfg, st0);
    var st1 := ApplyAll(rs, cfg, st0).st;
    DiscoveryKeepsInv(pl, w, cfg, st, Multi(rs), log, st1);
    var more := NowIds(f);
    assert f[0] in f;
    assert if f[0].runs then f[0].id in st1.planned else f[0].id in more;
    assert more !! done;
    DiscoveryShrinks(pl, cfg, st, st1, more);
  }

  lemma OneMemoMore(es: seq<Entry>, e: Entry, steps: map<HashedId, Value>)
    requires MemosCorrect(es, steps) && DistinctIds(es) && e in es
    ensures MemosCorrect(es, steps[e.id := e.value])
  {
    forall x | x in es && x.id in steps[e.id := e.value] ensures steps[e.id := e.value][x.id] == x.value {
      if x.id == e.id { DistinctEntry(es, x, e); }
    }
  }

  lemma OneSuccessMore(pl: Plan, w: World, st: TState, res: CallResult, log: seq<Event>, e: Entry)
    requires SuccessesAccounted(pl, st, st.steps.Keys) && Delivered(res) && Successes(log) == multiset{e.id}
    requires e in Steps(pl.segs) && e.runs && e.id !in st.steps.Keys
    ensures SuccessesAccounted(pl, Invoked(w, st, res, log), st.steps.Keys + {e.id})
  {
    var es, done := Steps(pl.segs), st.steps.Keys;
    hide Successes, Steps, AnswersError;
    SuccessesConcat(st.log, log);
    assert RunIds(es, done + {e.id}) == RunIds(es, done) + {e.id};
    assert e.id !in RunIds(es, done);
  }

  lemma DeliveryKeepsInv(pl: Plan, w: World, cfg: Config, st: TState, res: CallResult, log: seq<Event>, e: Entry)
    requires Inv(pl, w, cfg, st) && DistinctIds(Entries(pl.segs)) && WellCut(pl.segs)
    requires TargetOf(w, st) == Some(e.id) && e in Frontier(pl.segs, st.steps.Keys) && e.runs
    requires Successes(log) == multiset{e.id} && Delivered(res)
    ensures Inv(pl, w, cfg, Invoked(w, st, res, log).Memoize(e.id, e.value))
  {
    hide Frontier, RunIds, MemosCorrect, Entries, Steps, Barred, NextInLine, RunsLater, WellCut, AnswersError;
    var es, done := Steps(pl.segs), st.steps.Keys;
    var st1 := Invoked(w, st, res, log).Memoize(e.id, e.value);
    EntriesParts(pl.segs);
    FrontInEntries(pl.segs, done);
    assert st1.steps.Keys == done + {e.id};
    OneMemoMore(es, e, st.steps);
    forall u | u in st1.planned
      ensures u !in st1.steps && RunsLater(pl.segs, u)
      ensures NextInLine(pl.segs, st1.steps.Keys, u) || Frontier(pl.segs, st1.steps.Keys) == []
    {
      StillNext(pl.segs, done, {e.id}, u);
    }
    assert StackFits(st1) by {
      assert Elements(st1.stack) == Elements(st.stack) + {e.id};
    }
    OneSuccessMore(pl, w, st, res, log, e);
  }

  lemma ApplySingle(r: StepResponse, cfg: Config, st: TState)
    ensures ApplyAll([r], cfg, st) == ApplyOne(r, cfg, st)
  {
    var turn := ApplyOne(r, cfg, st);
    assert [r][1..] == [];
    assert turn.Again? ==> ApplyAll([], cfg, turn.st) == turn;
  }

  lemma DeliveryTurn(pl: Plan, w: World, cfg: Config, st: TState, log: seq<Event>, e: Entry, r: StepResponse)
    requires Inv(pl, w, cfg, st) && DistinctIds(Entries(pl.segs)) && WellCut(pl.segs) && ValidPick(w)
    requires AllResolvable(Entries(pl.segs), cfg.setup.stubs)
    requires TargetOf(w, st) == Some(e.id) && e in Frontier(pl.segs, st.steps.Keys) && e.runs && Delivers(r, e)
    requires Successes(log) == multiset{e.id}
    ensures Progress(pl, w, cfg, st, ApplyAll([r], cfg, Invoked(w, st, Multi([r]), log)))
  {
    hide Invoked, Inv, Measure, AllResolvable, Successes, Frontier, AnswersError, Entries, DistinctIds, ValidPick,
         TargetOf, ApplyAll, Resolvable, WellCut;
    var st0 := Invoked(w, st, Multi([r]), log);
    NoErrorAnswered(r, e);
    NextIsOpen(pl, cfg, st, e);
    InvokedKeeps(w, st, Multi([r]), log);
    DeliveryKeepsInv(pl, w, cfg, st, Multi([r]), log, e);
    DeliveryApplied(r, e, cfg, st0);
    MemoShrinks(pl, cfg, st, st0.Memoize(e.id, e.value), e.id);
  }

  lemma NoErrorAnswered(r: StepResponse, e: Entry)
    requires Delivers(r, e)
    ensures !AnswersError(Multi([r]))
  {
  }

  lemma NextIsOpen(pl: Plan, cfg: Config, st: TState, e: Entry)
    requires AllResolvable(Entries(pl.segs), cfg.setup.stubs) && e in Frontier(pl.segs, st.steps.Keys)
    ensures Resolvable(e, cfg.setup.stubs) && e.id !in st.steps
  {
    hide Resolvable, Frontier, Entries;
    FrontInEntries(pl.segs, st.steps.Keys);
  }

  lemma DeliveryApplied(r: StepResponse, e: Entry, cfg: Config, st: TState)
    requires Delivers(r, e) && e.runs && Resolvable(e, cfg.setup.stubs)
    ensures ApplyAll([r], cfg, st) == Again(st.Memoize(e.id, e.value))
  {
    ApplySingle(r, cfg, st);
  }

  lemma MemoShrinks(pl: Plan, cfg: Config, st: TState, st1: TState, id: HashedId)
    requires st1.attempt == st.attempt && id !in st.steps && st1.steps.Keys == st.steps.Keys + {id}
    ensures Measure(pl, cfg, st1) < Measure(pl, cfg, st)
  {
  }

  lemma InitialFacts(memos: MemoMap)
    ensures Successes(Initial(memos).log) == multiset{}
  {
    SuccessesSnoc([], BeforeExecution);
    assert [] + [BeforeExecution] == [BeforeExecution];
  }

  lemma QuietMatches(w: World, st: TState)
    ensures Quiet(RequestOf(w, st).fault) <==> QuietAt(w, st.n)
  {
  }

  /** The invocation of a turn from a good state, seen through the plan. */
  lemma TurnBehaves(gas: nat, p: Prog, pl: Plan, w: World, cfg: Config, st: TState)
    requires Planned(gas, p, cfg, pl) && ValidPick(w) && Inv(pl, w, cfg, st)
    ensures var rq, s0 := RequestOf(w, st), Initial(FromRaw(cfg.setup.parse, st.steps));
            && Behaves(pl, st.steps.Keys, rq, s0, Exec(gas, p, rq, TOP_LEVEL, s0))
            && Successes(s0.log) == multiset{}
            && (Quiet(rq.fault) <==> QuietAt(w, st.n))
    ensures AllResolvable(Entries(pl.segs), cfg.setup.stubs) && WellCut(pl.segs)
  {
    PlanWellCut(gas, p, map[], cfg.setup);
    hide WellCut;
    var rq := RequestOf(w, st);
    var memos := FromRaw(cfg.setup.parse, st.steps);
    LoopIsReady(gas, p, pl, w, cfg, st);
    PlanResolvable(gas, p, map[], cfg.setup);
    InitialFacts(memos);
    QuietMatches(w, st);
    ExecPlan(gas, p, map[], cfg.setup, rq, TOP_LEVEL, Initial(memos), st.steps.Keys);
  }

  lemma TurnSettles(gas: nat, p: Prog, w: World, cfg: Config, st: TState)
    ensures var (o, s) := Exec(gas, p, RequestOf(w, st), TOP_LEVEL, Initial(FromRaw(cfg.setup.parse, st.steps)));
            TakeTurn(w, cfg, gas, p, st) == Settle(ToCallResult(o), cfg, Invoked(w, st, ToCallResult(o), s.log))
  {
    hide Exec;
  }

  lemma TargetedTurn(pl: Plan, w: World, cfg: Config, st: TState, s0: St, o: Outcome, s: St)
    requires ValidPick(w) && Inv(pl, w, cfg, st) && DistinctIds(Entries(pl.segs)) && WellCut(pl.segs)
    requires AllResolvable(Entries(pl.segs), cfg.setup.stubs)
    requires st.planned != {} && Successes(s0.log) == multiset{} && Frontier(pl.segs, st.steps.Keys) != []
    requires Behaves(pl, st.steps.Keys, RequestOf(w, st), s0, (o, s)) && !IsBodyFault(o, pl.steady, RequestOf(w, st))
    requires Quiet(RequestOf(w, st).fault) <==> QuietAt(w, st.n)
    ensures Progress(pl, w, cfg, st, Settle(ToCallResult(o), cfg, Invoked(w, st, ToCallResult(o), s.log)))
  {
    hide Frontier, Entries, MemosCorrect, ApplyAll;
    var rq, front := RequestOf(w, st), Frontier(pl.segs, st.steps.Keys);
    var t := rq.target.value;
    assert NextInLine(pl.segs, st.steps.Keys, t);
    var d :| d in front && d.id == t && d.runs;
    assert t in Ids(front);
    var r := o.responses[0];
    assert o.responses == [r];
    var e :| e in front && rq.target == Some(e.id) && (Delivers(r, e) || (!Quiet(rq.fault) && Fails(r, e)));
    FrontInEntries(pl.segs, st.steps.Keys);
    DistinctEntry(Entries(pl.segs), d, e);
    if Delivers(r, e) {
      DeliveryTurn(pl, w, cfg, st, s.log, e, r);
    } else {
      assert AnswersError(Multi([r])) by { assert [r][0].error.Some?; }
      ErrorTurn(pl, w, cfg, st, Multi([r]), s.log, r.error.value);
      ApplySingle(r, cfg, Invoked(w, st, Multi([r]), s.log));
    }
  }

  lemma UntargetedTurn(pl: Plan, w: World, cfg: Config, st: TState, s0: St, o: Outcome, s: St)
    requires ValidPick(w) && Inv(pl, w, cfg, st) && DistinctIds(Entries(pl.segs)) && WellCut(pl.segs)
    requires AllResolvable(Entries(pl.segs), cfg.setup.stubs)
    requires st.planned == {} || Frontier(pl.segs, st.steps.Keys) == []
    requires Successes(s0.log) == multiset{}
    requires Behaves(pl, st.steps.Keys, RequestOf(w, st), s0, (o, s)) && !IsBodyFault(o, pl.steady, RequestOf(w, st))
    ensures Progress(pl, w, cfg, st, Settle(ToCallResult(o), cfg, Invoked(w, st, ToCallResult(o), s.log)))
  {
    if Frontier(pl.segs, st.steps.Keys) != [] {
      DiscoveryTurn(pl, w, cfg, st, s.log, o.responses);
    } else if pl.result.Ok? {
      ReturnTurn(pl, w, cfg, st, s.log, pl.result.v);
    } else {
      ErrorTurn(pl, w, cfg, st, Errored(pl.result.e), s.log, pl.result.e);
    }
  }

  lemma ThrownLogged(pl: Plan, done: set<HashedId>, rq: Request, s0: St, o: Outcome, s: St)
    requires Behaves(pl, done, rq, s0, (o, s)) && o.Threw?
    ensures pl.calm ==> Successes(s.log) == Successes(s0.log)
  {
    hide Explained, Framed, CountsAgree, Successes, Frontier, Entries;
  }

  /** Every turn from a good state ends the loop properly or leads to a good state with less left to do. */
  lemma {:induction false} TurnMakesProgress(gas: nat, p: Prog, pl: Plan, w: World, cfg: Config, st: TState)
    requires Planned(gas, p, cfg, pl) && ValidPick(w) && Inv(pl, w, cfg, st)
    ensures Progress(pl, w, cfg, st, TakeTurn(w, cfg, gas, p, st))
  {
    hide Exec, TakeTurn, Initial, Inv, Behaves, Progress, ApplyAll, Entries, Frontier, AllResolvable, PlanOf,
         DistinctIds;
    var rq, s0 := RequestOf(w, st), Initial(FromRaw(cfg.setup.parse, st.steps));
    TurnBehaves(gas, p, pl, w, cfg, st);
    var (o, s) := Exec(gas, p, rq, TOP_LEVEL, s0);
    TurnSettles(gas, p, w, cfg, st);
    if IsBodyFault(o, pl.steady, rq) {
      ThrownLogged(pl, st.steps.Keys, rq, s0, o, s);
      ErrorTurn(pl, w, cfg, st, Errored(o.e), s.log, o.e);
    } else if st.planned == {} || Frontier(pl.segs, st.steps.Keys) == [] {
      UntargetedTurn(pl, w, cfg, st, s0, o, s);
    } else {
      TargetedTurn(pl, w, cfg, st, s0, o, s);
    }
  }

  // ----- Whole runs -----

  /** From a good state, as many invocations as there is left to do are enough to end the loop. */
  lemma {:induction false} RunEnds(gas: nat, p: Prog, pl: Plan, w: World, cfg: Config, st: TState, budget: nat)
    requires Planned(gas, p, cfg, pl) && ValidPick(w) && Inv(pl, w, cfg, st)
    requires budget >= Measure(pl, cfg, st) - 1
    ensures var r := RunTrigger(w, cfg, gas, p, st, budget);
            r.Some? && Final(pl, w, cfg, r.value.0, r.value.1)
    decreases budget
  {
    hide TakeTurn, RunTrigger, Inv, Measure, Planned, Final;
    MeasureIsLarge(pl, w, cfg, st);
    TurnMakesProgress(gas, p, pl, w, cfg, st);
    var turn := TakeTurn(w, cfg, gas, p, st);
    RunUnfolds(gas, p, w, cfg, st, budget);
    if turn.Again? {
      RunEnds(gas, p, pl, w, cfg, turn.st, budget - 1);
    }
  }

  lemma RunUnfoldsToNothing(gas: nat, p: Prog, w: World, cfg: Config, st: TState)
    ensures RunTrigger(w, cfg, gas, p, st, 0) == None
  {
  }

  lemma MeasureIsLarge(pl: Plan, w: World, cfg: Config, st: TState)
    requires Inv(pl, w, cfg, st)
    ensures Measure(pl, cfg, st) >= 2
  {
    SubsetCardinality(st.steps.Keys, Ids(Steps(pl.segs)));
  }

  lemma RunUnfolds(gas: nat, p: Prog, w: World, cfg: Config, st: TState, budget: nat)
    requires budget > 0
    ensures var turn := TakeTurn(w, cfg, gas, p, st);
            RunTrigger(w, cfg, gas, p, st, budget) ==
              if turn.Again? then RunTrigger(w, cfg, gas, p, turn.st, budget - 1)
              else if turn.Stop? then Some((turn.result, turn.st)) else None
  {
  }

  lemma SubsetCardinality<T>(a: set<T>, b: set<T>)
    requires a <= b
    ensures |a| <= |b|
  {
    assert b == a + (b - a);
  }

  /** Invocations that suffice for a plan: two per step and two per attempt. */
  function Bound(pl: Plan, cfg: Config): nat {
    2 * |Ids(Steps(pl.segs))| + 2 * (cfg.MaxAttempt() + 1)
  }

  lemma {:induction false} TriggerEnds(gas: nat, p: Prog, pl: Plan, w: World, cfg: Config, budget: nat)
    requires Planned(gas, p, cfg, pl) && ValidPick(w) && budget >= Bound(pl, cfg)
    ensures var r := RunTrigger(w, cfg, gas, p, START, budget);
            r.Some? && Final(pl, w, cfg, r.value.0, r.value.1)
  {
    StartInv(pl, w, cfg);
    RunEnds(gas, p, pl, w, cfg, START, budget);
  }

  /**
   * Replay equals direct run. For a program whose straight run is planned, with distinct hashed IDs and no
   * memo that looks like nested output, the loop ends within the bound, for every choice of the planned
   * step to run next. It completes, with the value of a run without memoization, if and only if at most as
   * many invocations answered an error as may be retried; and only an invocation that the environment
   * disturbs answers one.
   */
  lemma {:induction false} ReplayEqualsDirect(gas: nat, p: Prog, pl: Plan, w: World, cfg: Config, budget: nat)
    requires Planned(gas, p, cfg, pl) && NoneShaped(Seen(pl.segs), cfg.setup.parse)
    requires ValidPick(w) && budget >= Bound(pl, cfg)
    ensures var direct := DirectEval(gas, p, cfg.setup.stubs);
            var r := RunTrigger(w, cfg, gas, p, START, budget);
            && direct.Some? && r.Some?
            && (direct.value.Ok? ==>
                  && (r.value.0 == Completed(direct.value.v) <==> r.value.1.errors <= cfg.MaxAttempt())
                  && (r.value.0 != Completed(direct.value.v) ==> r.value.0.Failure? && r.value.0.error.Transient?)
                  && r.value.1.errors <= FaultsBefore(w, r.value.1.n))
            && (direct.value.Failed? && (forall n :: QuietAt(w, n)) ==> r.value.0 == Failure(direct.value.e))
  {
    PlanIsDirect(gas, p, map[], cfg.setup);
    TriggerEnds(gas, p, pl, w, cfg, budget);
    if forall n :: QuietAt(w, n) {
      NoFaults(w, RunTrigger(w, cfg, gas, p, START, budget).value.1.n);
    }
  }

  lemma {:induction false} NoFaults(w: World, n: nat)
    requires forall m :: QuietAt(w, m)
    ensures FaultsBefore(w, n) == 0
  {
    if n > 0 { NoFaults(w, n - 1); }
  }

  /**
   * Exactly once. A completed run has memoized steps of the straight run once each, and all of them unless a
   * callback that raised has left some behind. The handler calls that returned are one for each memoized step
   * that a handler resolves, and those whose result was lost because the invocation answered something else;
   * there are none of these in a calm program.
   */
  lemma {:induction false} HandlersSucceedOnce(gas: nat, p: Prog, pl: Plan, w: World, cfg: Config, budget: nat)
    requires Planned(gas, p, cfg, pl) && ValidPick(w) && budget >= Bound(pl, cfg)
    ensures var r := RunTrigger(w, cfg, gas, p, START, budget);
            r.Some? && (r.value.0.Completed? ==>
              && NoDuplicates(r.value.1.stack) && Elements(r.value.1.stack) <= Ids(Steps(pl.segs))
              && (Whole(pl.segs) ==> Elements(r.value.1.stack) == Ids(Steps(pl.segs)))
              && Successes(r.value.1.log) == multiset(RunIds(Steps(pl.segs), Elements(r.value.1.stack))) + r.value.1.lost
              && (pl.calm ==> r.value.1.lost == multiset{}))
  {
    TriggerEnds(gas, p, pl, w, cfg, budget);
  }

  /** The invariant holds in every state the loop reaches. */
  lemma {:induction false} ReachableInv(gas: nat, p: Prog, pl: Plan, w: World, cfg: Config, k: nat, st: TState)
    requires Planned(gas, p, cfg, pl) && ValidPick(w) && StateAfter(w, cfg, gas, p, k) == Some(st)
    ensures Inv(pl, w, cfg, st) && st.n == k
    decreases k
  {
    hide TakeTurn, Inv, Measure, Planned, Final;
    if k == 0 {
      StartInv(pl, w, cfg);
    } else {
      var before := StateAfter(w, cfg, gas, p, k - 1).value;
      ReachableInv(gas, p, pl, w, cfg, k - 1, before);
      TurnMakesProgress(gas, p, pl, w, cfg, before);
      assert Progress(pl, w, cfg, before, TakeTurn(w, cfg, gas, p, before));
    }
  }

  /**
   * Once memoized, never re-run: in every reachable state no planned step is memoized, and the next
   * invocation starts handlers only for steps that are not. Invocations with a target plan nothing.
   */
  lemma {:induction false} MemoizedNeverRerun(gas: nat, p: Prog, pl: Plan, w: World, cfg: Config, k: nat, st: TState)
    requires Planned(gas, p, cfg, pl) && ValidPick(w) && StateAfter(w, cfg, gas, p, k) == Some(st)
    ensures var s := RunFunction(gas, p, RequestOf(w, st), FromRaw(cfg.setup.parse, st.steps)).1;
            var turn := TakeTurn(w, cfg, gas, p, st);
            && st.planned !! st.steps.Keys
            && (forall e :: e in s.log && e.HandlerStart? ==> e.id !in st.steps)
            && (turn.Again? && st.planned != {} ==> turn.st.planned <= st.planned)
            && (turn.Again? ==> st.steps.Keys <= turn.st.steps.Keys)
  {
    ReachableInv(gas, p, pl, w, cfg, k, st);
    var memos := FromRaw(cfg.setup.parse, st.steps);
    if st.planned == {} {
      UntargetedInvocation(gas, p, RequestOf(w, st), memos);
    } else {
      TargetedInvocation(gas, p, RequestOf(w, st), memos);
    }
    TurnGrows(gas, p, pl, w, cfg, st);
  }

  lemma {:induction false} TurnGrows(gas: nat, p: Prog, pl: Plan, w: World, cfg: Config, st: TState)
    requires Planned(gas, p, cfg, pl) && ValidPick(w) && Inv(pl, w, cfg, st)
    ensures var turn := TakeTurn(w, cfg, gas, p, st);
            turn.Again? ==>
              && st.steps.Keys <= turn.st.steps.Keys
              && (st.planned != {} ==> turn.st.planned <= st.planned)
  {
    hide Exec, TakeTurn, Initial, Planned, Inv, Behaves, ApplyAll;
    var rq, s0 := RequestOf(w, st), Initial(FromRaw(cfg.setup.parse, st.steps));
    TurnBehaves(gas, p, pl, w, cfg, st);
    var (o, s) := Exec(gas, p, rq, TOP_LEVEL, s0);
    TurnSettles(gas, p, w, cfg, st);
    if o.Interrupt? {
      ApplyGrows(o.responses, cfg, Invoked(w, st, Multi(o.responses), s.log));
      if rq.target.Some? { TargetedPlansNothing(pl, w, cfg, st, s0, o, s); }
    }
  }

  lemma TargetedPlansNothing(pl: Plan, w: World, cfg: Config, st: TState, s0: St, o: Outcome, s: St)
    requires ValidPick(w) && Inv(pl, w, cfg, st) && st.planned != {} && o.Interrupt?
    requires Behaves(pl, st.steps.Keys, RequestOf(w, st), s0, (o, s))
    ensures var st0 := Invoked(w, st, ToCallResult(o), s.log);
            var turn := ApplyAll(o.responses, cfg, st0);
            turn.Again? ==> turn.st.planned <= st.planned
  {
    var st0, r := Invoked(w, st, ToCallResult(o), s.log), o.responses[0];
    assert o.responses == [r];
    ApplySingle(r, cfg, st0);
  }

  lemma {:induction false} ApplyGrows(rs: seq<StepResponse>, cfg: Config, st: TState)
    ensures var turn := ApplyAll(rs, cfg, st);
            turn.Again? ==> st.steps.Keys <= turn.st.steps.Keys
  {
    if rs != [] {
      var turn := ApplyOne(rs[0], cfg, st);
      if turn.Again? { ApplyGrows(rs[1..], cfg, turn.st); }
    }
  }
}
