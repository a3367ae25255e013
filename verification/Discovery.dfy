/** What an invocation discovers: group discovery without a target, and when the hooks fire. */
module Discovery {
  import opened Values
  import opened StepIds
  import opened Memos
  import opened Programs
  import opened Engine
  import opened EngineLaws
  import opened Plans
  import opened Replay

  /**
   * A callback followed along its memos only: it completes, raises, or reaches its first step without a memo.
   * `Other` is code outside of the claim: the environment makes it raise, it nests a group or does not finish.
   */
  datatype Walk = Complete(v: Value) | Fails(e: Err) | Stuck(info: StepInfo) | Other

  function WalkMemos(gas: nat, p: Prog, rq: Request, s: St): (Walk, St) {
    if gas == 0 then (Other, s)
    else
      match p
      case Return(v) => (Complete(v), s)
      case Raise(e) => (Fails(e), s)
      case Flaky(site, next) => if rq.fault(site).Some? then (Other, s) else WalkMemos(gas - 1, next, rq, s)
      case Step(id, op, _, k) =>
        var info := InfoOf(id, op, s);
        var s1 := PopMemo(info.id, CountStep(id, s));
        if info.id in s.memos then WalkMemos(gas - 1, k(MemoResult(s.memos[info.id])), rq, s1) else (Stuck(info), s1)
      case Parallel(_, _, _) => (Other, s)
  }

  /** The walks of all callbacks, in callback order. */
  function WalkAll(gas: nat, callbacks: seq<Prog>, rq: Request, s: St): (seq<Walk>, St) {
    if callbacks == [] then ([], s)
    else
      var (first, s1) := WalkMemos(gas, callbacks[0], rq, s);
      var (rest, s2) := WalkAll(gas, callbacks[1..], rq, s1);
      ([first] + rest, s2)
  }

  /** The steps that callbacks wait for, and the outputs of the callbacks that wait for none. */
  function Waiting(walks: seq<Walk>): seq<StepInfo> {
    if walks == [] then []
    else (match walks[0] case Stuck(info) => [info] case _ => []) + Waiting(walks[1..])
  }

  function Finished(walks: seq<Walk>): seq<Value> {
    if walks == [] then []
    else (match walks[0] case Complete(v) => [v] case _ => []) + Finished(walks[1..])
  }

  /** Every callback completes or waits for a step. */
  ghost predicate NoneFails(walks: seq<Walk>) {
    forall i :: 0 <= i < |walks| ==> walks[i].Complete? || walks[i].Stuck?
  }

  /** One response per step, in order; runs are turned into plans. */
  ghost predicate PlansEach(infos: seq<StepInfo>, mode: ParallelMode, rs: seq<StepResponse>) {
    && |rs| == |infos|
    && forall i :: 0 <= i < |rs| ==> rs[i] == StepResponse(PlanInfo(infos[i]).SetParallelMode(mode), Null, None)
  }

  /** What a step without a memo comes to in a group, when it is not the target. */
  function WaitOutcome(info: StepInfo, rq: Request): Outcome {
    if rq.target.None? then Respond(PlanInfo(info)) else Skip(info.displayName)
  }

  /** The target, if there is one, is none of the steps that the callbacks wait for. */
  ghost predicate TargetElsewhere(walks: seq<Walk>, rq: Request) {
    forall i :: 0 <= i < |walks| && walks[i].Stuck? ==> rq.target != Some(walks[i].info.id)
  }

  lemma WaitsInGroup(gas: nat, id: string, op: Opcode, handler: Prog, k: StepResult -> Prog, rq: Request, cx: Context,
                     s: St)
    requires InfoOf(id, op, s).id !in s.memos && rq.target != Some(InfoOf(id, op, s).id)
    requires cx.inParallel || rq.target.Some?
    ensures var info := InfoOf(id, op, s);
            ExecStep(gas, id, op, handler, k, rq, cx, s) == (WaitOutcome(info, rq), PopMemo(info.id, CountStep(id, s)))
  {
    hide PopMemo;
  }

  lemma MemoizedStep(gas: nat, id: string, op: Opcode, handler: Prog, k: StepResult -> Prog, rq: Request, cx: Context,
                     s: St)
    requires InfoOf(id, op, s).id in s.memos && !cx.inStep
    ensures var info := InfoOf(id, op, s);
            ExecStep(gas, id, op, handler, k, rq, cx, s) ==
              Exec(gas, k(MemoResult(s.memos[info.id])), rq, cx, PopMemo(info.id, CountStep(id, s)))
  {
    hide PopMemo, Exec;
  }

  lemma {:induction false} WalkIsExec(gas: nat, p: Prog, rq: Request, cx: Context, s: St)
    requires (cx.inParallel || rq.target.Some?) && !cx.inStep
    ensures var (walk, s1) := WalkMemos(gas, p, rq, s);
            && (walk.Complete? ==> Exec(gas, p, rq, cx, s) == (Returned(walk.v), s1))
            && (walk.Fails? ==> Exec(gas, p, rq, cx, s) == (Threw(walk.e), s1))
            && (walk.Stuck? && rq.target != Some(walk.info.id) ==> Exec(gas, p, rq, cx, s) == (WaitOutcome(walk.info, rq), s1))
  {
    hide ExecStep, PopMemo, InfoOf, CountStep, PlanInfo;
    if gas == 0 { return; }
    match p
    case Return(_) =>
    case Raise(_) =>
    case Flaky(site, next) =>
      if rq.fault(site).None? { WalkIsExec(gas - 1, next, rq, cx, s); }
    case Step(id, op, handler, k) =>
      var info := InfoOf(id, op, s);
      if info.id in s.memos {
        MemoizedStep(gas - 1, id, op, handler, k, rq, cx, s);
        WalkIsExec(gas - 1, k(MemoResult(s.memos[info.id])), rq, cx, PopMemo(info.id, CountStep(id, s)));
      } else if rq.target != Some(info.id) {
        WaitsInGroup(gas - 1, id, op, handler, k, rq, cx, s);
      }
    case Parallel(_, _, _) =>
  }

  /** What the callbacks that wait answer: their steps when discovering, nothing when a target is set. */
  ghost predicate Answers(walks: seq<Walk>, rq: Request, rs: seq<StepResponse>) {
    if rq.target.None? then PlansEach(Waiting(walks), Wait, rs) else rs == []
  }

  ghost predicate WalkEnds(walk: Walk, rq: Request, o: Outcome) {
    (walk.Complete? || walk.Stuck?) && o == if walk.Complete? then Returned(walk.v) else WaitOutcome(walk.info, rq)
  }

  lemma GatherWalk(first: Walk, rest: seq<Walk>, rq: Request, o: Outcome, g: Gathered)
    requires WalkEnds(first, rq, o) && g.Collected? && g.outputs == Finished(rest) && Answers(rest, rq, g.responses)
    ensures !o.Threw? && !o.NestedStep? && !o.Exhausted?
    ensures var all := Prepend(o, g);
            all.Collected? && all.outputs == Finished([first] + rest) && Answers([first] + rest, rq, all.responses)
  {
    assert ([first] + rest)[1..] == rest;
  }

  lemma {:induction false} WalksAreExec(gas: nat, callbacks: seq<Prog>, rq: Request, cx: Context, s: St)
    requires cx.inParallel && !cx.inStep
    requires var walks := WalkAll(gas, callbacks, rq, s).0; NoneFails(walks) && TargetElsewhere(walks, rq)
    ensures var (walks, s1) := WalkAll(gas, callbacks, rq, s);
            var (g, s2) := ExecAll(gas, callbacks, rq, cx, s);
            && s1 == s2 && g.Collected?
            && g.outputs == Finished(walks)
            && Answers(walks, rq, g.responses)
  {
    if callbacks == [] { return; }
    hide Exec, WalkMemos, Answers, Waiting, Finished, Prepend, WaitOutcome;
    var (first, mid) := WalkMemos(gas, callbacks[0], rq, s);
    var (rest, s1) := WalkAll(gas, callbacks[1..], rq, mid);
    var walks := WalkAll(gas, callbacks, rq, s).0;
    assert walks == [first] + rest && walks[0] == first;
    assert forall i :: 0 <= i < |rest| ==> walks[i + 1] == rest[i];
    WalkIsExec(gas, callbacks[0], rq, cx, s);
    WalksAreExec(gas, callbacks[1..], rq, cx, mid);
    GatherWalk(first, rest, rq, Exec(gas, callbacks[0], rq, cx, s).0, ExecAll(gas, callbacks[1..], rq, cx, mid).0);
  }

  /**
   * Untargeted discovery. A group whose callbacks neither raise nor nest groups reports exactly the first
   * un-memoized step of each callback, in callback order, with runs turned into plans; and it returns to the
   * code after it only when every callback is fully memoized, with one output per callback in order.
   */
  lemma {:induction false} GroupDiscovery(gas: nat, callbacks: seq<Prog>, mode: ParallelMode, gk: GroupResult -> Prog,
                                          rq: Request, cx: Context, s: St)
    requires rq.target.None? && !cx.inStep && NoneFails(WalkAll(gas, callbacks, rq, s).0)
    ensures var (walks, s1) := WalkAll(gas, callbacks, rq, s);
            var r := ExecGroup(gas, callbacks, mode, gk, rq, cx, s);
            && (Waiting(walks) != [] ==>
                  r.0.Interrupt? && PlansEach(Waiting(walks), mode, r.0.responses) && r.1 == s1)
            && (Waiting(walks) == [] ==>
                  |Finished(walks)| == |callbacks| && r == Exec(gas, gk(Outputs(Finished(walks))), rq, cx, s1))
  {
    WalksAreExec(gas, callbacks, rq, cx.(inParallel := true), s);
    WalkCounts(WalkAll(gas, callbacks, rq, s).0);
    WalkAllLength(gas, callbacks, rq, s);
  }

  /**
   * A group that does not hold the target is not stopped by its unfinished callbacks: it returns to the code
   * after it, with the outputs of the finished callbacks only. That is one output per callback if and only
   * if no callback waits for a step.
   */
  lemma {:induction false} GroupWithoutTarget(gas: nat, callbacks: seq<Prog>, mode: ParallelMode,
                                              gk: GroupResult -> Prog,
                                              rq: Request, cx: Context, s: St, walks: seq<Walk>, s1: St)
    requires rq.target.Some? && !cx.inStep
    requires WalkAll(gas, callbacks, rq, s) == (walks, s1) && NoneFails(walks) && TargetElsewhere(walks, rq)
    ensures ExecGroup(gas, callbacks, mode, gk, rq, cx, s) == Exec(gas, gk(Outputs(Finished(walks))), rq, cx, s1)
    ensures |Finished(walks)| == |callbacks| <==> Waiting(walks) == []
  {
    WalksAreExec(gas, callbacks, rq, cx.(inParallel := true), s);
    WalkCounts(walks);
    WalkAllLength(gas, callbacks, rq, s);
  }

  lemma {:induction false} StoppedBy(gas: nat, before: seq<Prog>, culprit: Prog, after: seq<Prog>, rq: Request,
                                     cx: Context, s: St)
    requires cx.inParallel && !cx.inStep
    requires var (walks, s1) := WalkAll(gas, before, rq, s);
             NoneFails(walks) && TargetElsewhere(walks, rq) && WalkMemos(gas, culprit, rq, s1).0.Fails?
    ensures var (walk, s2) := WalkMemos(gas, culprit, rq, WalkAll(gas, before, rq, s).1);
            ExecAll(gas, before + [culprit] + after, rq, cx, s) == (Stopped(Threw(walk.e)), s2)
    decreases |before|
  {
    hide Exec, WalkMemos, WaitOutcome, Prepend;
    var all := before + [culprit] + after;
    if before == [] {
      assert all[0] == culprit;
      WalkIsExec(gas, culprit, rq, cx, s);
    } else {
      var (first, mid) := WalkMemos(gas, before[0], rq, s);
      var rest, walks := WalkAll(gas, before[1..], rq, mid).0, WalkAll(gas, before, rq, s).0;
      assert walks == [first] + rest && walks[0] == first;
      assert forall i :: 0 <= i < |rest| ==> walks[i + 1] == rest[i];
      assert all[0] == before[0] && all[1..] == before[1..] + [culprit] + after;
      WalkIsExec(gas, before[0], rq, cx, s);
      StoppedBy(gas, before[1..], culprit, after, rq, cx, mid);
      PrependStopped(first, rq, Exec(gas, before[0], rq, cx, s).0, ExecAll(gas, all[1..], rq, cx, mid).0);
    }
  }

  lemma PrependStopped(walk: Walk, rq: Request, o: Outcome, g: Gathered)
    requires WalkEnds(walk, rq, o) && g.Stopped?
    ensures !o.Threw? && !o.NestedStep? && !o.Exhausted? && Prepend(o, g) == g
  {
  }

  /**
   * A callback that raises fails its group as soon as its own steps have memos, whatever the other callbacks
   * still wait for. A target among them is then never reached: if the code after the group comes to a step
   * without a memo, the invocation answers that this step is unexpected.
   */
  lemma {:induction false} FailedGroupLosesTarget(gas: nat, before: seq<Prog>, culprit: Prog, after: seq<Prog>,
                                                  mode: ParallelMode,
                                                  gk: GroupResult -> Prog, rq: Request, cx: Context, s: St)
    requires rq.target.Some? && !cx.inStep
    requires var (walks, s1) := WalkAll(gas, before, rq, s);
             NoneFails(walks) && TargetElsewhere(walks, rq) && WalkMemos(gas, culprit, rq, s1).0.Fails?
    ensures var (walk, s2) := WalkMemos(gas, culprit, rq, WalkAll(gas, before, rq, s).1);
            var (next, s3) := WalkMemos(gas, gk(GroupFailed(walk.e)), rq, s2);
            var r := ExecGroup(gas, before + [culprit] + after, mode, gk, rq, cx, s);
            && r == Exec(gas, gk(GroupFailed(walk.e)), rq, cx, s2)
            && (next.Complete? ==> r == (Returned(next.v), s3))
            && (next.Stuck? && rq.target != Some(next.info.id) ==>
                  r == (Skip(next.info.displayName), s3)
                  && ToCallResult(r.0) == Errored(UnexpectedStep(next.info.displayName)))
  {
    StoppedBy(gas, before, culprit, after, rq, cx.(inParallel := true), s);
    hide ExecAll, WalkMemos, Exec;
    var (walk, s2) := WalkMemos(gas, culprit, rq, WalkAll(gas, before, rq, s).1);
    WalkIsExec(gas, gk(GroupFailed(walk.e)), rq, cx, s2);
  }

  lemma {:induction false} WalkCounts(walks: seq<Walk>)
    requires NoneFails(walks)
    ensures |Waiting(walks)| + |Finished(walks)| == |walks|
  {
    if walks != [] {
      assert forall i :: 0 <= i < |walks| - 1 ==> walks[1..][i] == walks[i + 1];
      WalkCounts(walks[1..]);
    }
  }

  lemma {:induction false} WalkAllLength(gas: nat, callbacks: seq<Prog>, rq: Request, s: St)
    ensures |WalkAll(gas, callbacks, rq, s).0| == |callbacks|
  {
    if callbacks != [] { WalkAllLength(gas, callbacks[1..], rq, WalkMemos(gas, callbacks[0], rq, s).1); }
  }

  // ----- When the hooks fire -----

  /** What running flat code adds to the log: the hooks if they have not fired, then at most one handler. */
  ghost predicate HookThenHandler(beforeDone: bool, log: seq<Event>, log': seq<Event>) {
    var fired := if beforeDone then log else log + [BeforeExecution];
    log' == fired || exists t, ok :: log' == fired + [HandlerStart(t), HandlerEnd(t, ok)]
  }

  /** The memos are exactly those of the first `n` steps. */
  ghost predicate FirstMemos(es: seq<Entry>, n: nat, memos: MemoMap, su: Setup) {
    && n <= |es|
    && memos.Keys == Ids(es[..n])
    && forall i :: 0 <= i < n ==> memos[es[i].id] == Decode(su.parse, es[i].value)
  }

  /** The environment did not make code between the steps raise. */
  predicate Undisturbed(o: Outcome) {
    o.Threw? ==> !o.e.Transient?
  }

  predicate MayRun(id: HashedId, rq: Request) {
    if rq.target.Some? then rq.target.value == id else !rq.disableImmediateExecution
  }

  /** The handlers that this request may run are those of the plan, so they contain no steps. */
  ghost predicate PlainRuns(es: seq<Entry>, rq: Request) {
    forall i :: 0 <= i < |es| && es[i].op.StepRun? && MayRun(es[i].id, rq) ==> es[i].runs
  }

  lemma {:induction false} FlatLog(gas: nat, p: Prog, c: Counts, su: Setup, rq: Request, cx: Context, s: St, n: nat)
    requires PlanOf(gas, p, c, su).Some? && Flat(PlanOf(gas, p, c, su).value.segs) && !cx.inStep
    requires Undisturbed(Exec(gas, p, rq, cx, s).0)
    requires var es := Entries(PlanOf(gas, p, c, su).value.segs);
             && DistinctIds(es) && CountsAgree(Raws(es), s.counts, c)
             && FirstMemos(es, n, s.memos, su) && PlainRuns(es, rq)
    requires n > 0 || s.beforeDone
    ensures HookThenHandler(s.beforeDone, s.log, Exec(gas, p, rq, cx, s).1.log)
    decreases gas, 0
  {
    match p
    case Return(_) =>
    case Raise(_) =>
    case Flaky(site, next) =>
      assert rq.fault(site).None?;
      FlatLog(gas - 1, next, c, su, rq, cx, s, n);
    case Parallel(_, _, _) => assert false;
    case Step(id, op, handler, k) =>
      FlatLogStep(gas - 1, id, op, handler, k, PlanOf(gas, p, c, su).value, c, su, rq, cx, s, n);
  }

  lemma FirstIsMemoized(e: Entry, es: seq<Entry>, n: nat, memos: MemoMap, su: Setup)
    requires es != [] && es[0] == e && FirstMemos(es, n, memos, su)
    ensures if n == 0 then memos == map[] else e.id in memos && memos[e.id] == Decode(su.parse, e.value)
  {
    if n == 0 {
      assert es[..0] == [];
    } else {
      assert es[..n][0] == e;
    }
  }

  lemma {:induction false} FlatLogStep(gas: nat, id: string, op: Opcode, handler: Prog, k: StepResult -> Prog, pl: Plan,
                                       c: Counts, su: Setup, rq: Request, cx: Context, s: St, n: nat)
    requires PlanOf(gas + 1, Step(id, op, handler, k), c, su) == Some(pl) && Flat(pl.segs) && !cx.inStep
    requires Undisturbed(ExecStep(gas, id, op, handler, k, rq, cx, s).0)
    requires var es := Entries(pl.segs);
             && DistinctIds(es) && CountsAgree(Raws(es), s.counts, c)
             && FirstMemos(es, n, s.memos, su) && PlainRuns(es, rq)
    requires n > 0 || s.beforeDone
    ensures HookThenHandler(s.beforeDone, s.log, ExecStep(gas, id, op, handler, k, rq, cx, s).1.log)
    decreases gas, 1
  {
    hide PlanOf, PlanStep, Entries, Exec, ExecStep, PopMemo, DistinctIds, CountsAgree, FirstMemos, HookThenHandler,
         Flat, Decode;
    var e, next, rest := UnfoldStep(gas, id, op, handler, k, pl, c, su);
    FlatTail(e, rest, pl, c, rq, s);
    FirstIsMemoized(e, Entries(pl.segs), n, s.memos, su);
    if n > 0 {
      var s2 := PopMemo(e.id, CountStep(id, s));
      FirstMemosTail(e, Entries(rest.segs), n, s, su);
      PopFramed(e, s);
      MemoizedStep(gas, id, op, handler, k, rq, cx, s);
      FlatLog(gas, next, Bump(c, id), su, rq, cx, s2, n - 1);
      LaterHook(s.beforeDone, n == 1, s.log, s2.log, Exec(gas, next, rq, cx, s2).1.log);
    } else {
      FirstStepLog(gas, e, next, rest, id, op, handler, k, c, su, rq, cx, s);
    }
  }

  lemma LaterHook(beforeDone: bool, now: bool, log: seq<Event>, log1: seq<Event>, log2: seq<Event>)
    requires log1 == if now && !beforeDone then log + [BeforeExecution] else log
    requires HookThenHandler(beforeDone || now, log1, log2)
    ensures HookThenHandler(beforeDone, log, log2)
  {
  }

  lemma TailOfIds(e: Entry, es: seq<Entry>, n: nat)
    requires DistinctIds([e] + es) && 0 < n <= |es| + 1
    ensures Ids(([e] + es)[..n]) - {e.id} == Ids(es[..n - 1])
  {
    var some := es[..n - 1];
    assert ([e] + es)[..n] == [e] + some;
    ConcatIds([e], some);
    assert forall x :: x in [e] ==> x == e;
    assert e in [e] && Ids([e]) == {e.id};
    ConcatDistinct([e], es);
    forall x | x in some ensures x in es && x.id != e.id {
      assert x.id in Ids(es);
    }
  }

  lemma TailOfMemos(e: Entry, es: seq<Entry>, n: nat, memos: MemoMap, su: Setup)
    requires DistinctIds([e] + es) && n > 0 && FirstMemos([e] + es, n, memos, su)
    ensures FirstMemos(es, n - 1, memos - {e.id}, su)
  {
    TailOfIds(e, es, n);
    hide DistinctIds;
    var some := es[..n - 1];
    assert (memos - {e.id}).Keys == Ids(some);
    forall i | 0 <= i < n - 1
      ensures es[i].id in memos - {e.id} && (memos - {e.id})[es[i].id] == Decode(su.parse, es[i].value)
    {
      assert some[i] == es[i] && es[i].id in Ids(some);
      assert ([e] + es)[i + 1] == es[i];
    }
  }

  lemma FirstMemosTail(e: Entry, es: seq<Entry>, n: nat, s: St, su: Setup)
    requires DistinctIds([e] + es) && n > 0 && FirstMemos([e] + es, n, s.memos, su)
    ensures var s2 := PopMemo(e.id, CountStep(e.raw, s));
            && FirstMemos(es, n - 1, s2.memos, su)
            && (n == 1 ==> s2.beforeDone)
            && s2.log == (if n == 1 && !s.beforeDone then s.log + [BeforeExecution] else s.log)
            && (n > 1 ==> s2.beforeDone == s.beforeDone)
  {
    TailOfMemos(e, es, n, s.memos, su);
    var popped := s.memos - {e.id};
    assert popped.Keys == Ids(es[..n - 1]);
    if n == 1 {
      assert es[..0] == [];
      assert popped == map[];
    } else {
      assert es[..n - 1][0].id in popped.Keys;
      assert |popped| > 0;
    }
  }

  lemma FlatTail(e: Entry, rest: Plan, pl: Plan, c: Counts, rq: Request, s: St)
    requires StartsWith(pl, e, rest)
    requires var es := Entries(pl.segs); DistinctIds(es) && CountsAgree(Raws(es), s.counts, c) && PlainRuns(es, rq)
    ensures Entries(pl.segs) == [e] + Entries(rest.segs) && Flat(pl.segs) == Flat(rest.segs)
    ensures Entries(pl.segs)[0] == e && Count(s.counts, e.raw) == Count(c, e.raw)
    ensures var es := Entries(rest.segs);
            DistinctIds(es) && PlainRuns(es, rq) && CountsAgree(Raws(es), Bump(s.counts, e.raw), Bump(c, e.raw))
  {
    StartsWithFacts(pl, e, rest, {});
    hide Entries, Flat, Ids, Raws, Frontier, Barred, PlainRuns, Bump, StartsWith;
    ConcatDistinct([e], Entries(rest.segs));
    PlainTail(e, Entries(rest.segs), rq);
    AgreeTail(e.raw, Raws(Entries(rest.segs)), s.counts, c);
  }

  lemma PlainTail(e: Entry, es: seq<Entry>, rq: Request)
    requires PlainRuns([e] + es, rq)
    ensures PlainRuns(es, rq)
  {
    assert forall i :: 0 <= i < |es| ==> ([e] + es)[i + 1] == es[i];
  }

  lemma AgreeTail(raw: string, raws: set<string>, c: Counts, d: Counts)
    requires CountsAgree({raw} + raws, c, d)
    ensures Count(c, raw) == Count(d, raw) && CountsAgree(raws, Bump(c, raw), Bump(d, raw))
  {
    assert raw in {raw} + raws;
  }

  /** With no memos the first step runs, is skipped or is reported; no hook fires any more. */
  lemma FirstStepLog(gas: nat, e: Entry, next: Prog, rest: Plan, id: string, op: Opcode, handler: Prog,
                     k: StepResult -> Prog, c: Counts, su: Setup, rq: Request, cx: Context, s: St)
    requires PlannedStep(gas, e, next, rest, id, op, handler, k, c, su)
    requires !cx.inStep && s.memos == map[] && s.beforeDone
    requires Count(s.counts, id) == Count(c, id) && (e.op.StepRun? && MayRun(e.id, rq) ==> e.runs)
    ensures HookThenHandler(true, s.log, ExecStep(gas, id, op, handler, k, rq, cx, s).1.log)
  {
    hide Exec, ExecStep, RunHandler, PlanOf, PopMemo;
    assert InfoOf(id, op, s) == StepInfo(e.raw, e.id, e.op, false);
    assert PopMemo(e.id, CountStep(id, s)).log == s.log by { PopLog(e.id, CountStep(id, s)); }
    var report := ReportStep(InfoOf(id, op, s), rq, cx, CountStep(id, s));
    if report.Fresh? {
      var o := HandlerRan(gas, handler, e, su, rq, cx, s);
      FreshStep(gas, id, op, handler, k, rq, cx, s);
      var t := e.id;
      var r := RunHandler(gas, handler, InfoOf(id, op, s), rq, cx, PopMemo(e.id, CountStep(id, s)));
      assert !r.0.Threw?;
      assert s.log + [HandlerStart(t)] + [HandlerEnd(t, o.Returned?)] == s.log + [HandlerStart(t), HandlerEnd(t, o.Returned?)];
    } else {
      RaisingStep(gas, id, op, handler, k, rq, cx, s, report.o);
    }
  }

  lemma PopLog(id: HashedId, s: St)
    requires s.beforeDone
    ensures PopMemo(id, s).log == s.log
  {
  }

  lemma RaisingStep(gas: nat, id: string, op: Opcode, handler: Prog, k: StepResult -> Prog, rq: Request, cx: Context,
                    s: St, o: Outcome)
    requires ReportStep(InfoOf(id, op, s), rq, cx, CountStep(id, s)) == Raised(o)
    ensures ExecStep(gas, id, op, handler, k, rq, cx, s) == (o, PopMemo(InfoOf(id, op, s).id, CountStep(id, s)))
  {
    hide PopMemo;
  }

  /** The state after the first `k` steps were counted and their memos popped. */
  function AfterPops(es: seq<Entry>, k: nat, s: St): St
    requires k <= |es|
  {
    if k == 0 then s else AfterPops(es[1..], k - 1, PopMemo(es[0].id, CountStep(es[0].raw, s)))
  }

  /** Popping the memos one by one fires the hooks with the last one. */
  lemma {:induction false} LastPopFires(es: seq<Entry>, n: nat, k: nat, s: St, su: Setup)
    requires DistinctIds(es) && FirstMemos(es, n, s.memos, su) && k <= n <= |es|
    ensures AfterPops(es, k, s).log == if 0 < k == n && !s.beforeDone then s.log + [BeforeExecution] else s.log
  {
    hide FirstMemos, PopMemo, DistinctIds, AfterPops;
    if k == 0 {
      NoPops(es, s);
    } else {
      SomeMemo(es, n, s.memos, su);
      var rest := es[1..];
      assert es == [es[0]] + rest;
      FirstMemosTail(es[0], rest, n, s, su);
      ConcatDistinct([es[0]], rest);
      LastPopFires(rest, n - 1, k - 1, PopMemo(es[0].id, CountStep(es[0].raw, s)), su);
      AfterPopsCons(es[0], rest, k, s);
    }
  }

  lemma NoPops(es: seq<Entry>, s: St)
    ensures AfterPops(es, 0, s) == s
  {
  }

  lemma SomeMemo(es: seq<Entry>, n: nat, memos: MemoMap, su: Setup)
    requires FirstMemos(es, n, memos, su) && n > 0
    ensures es != [] && n <= |es|
  {
  }

  lemma AfterPopsCons(e: Entry, es: seq<Entry>, k: nat, s: St)
    requires 0 < k <= |es| + 1
    ensures AfterPops([e] + es, k, s) == AfterPops(es, k - 1, PopMemo(e.id, CountStep(e.raw, s)))
  {
    hide PopMemo;
    assert ([e] + es)[1..] == es;
  }

  /** An undisturbed run of flat code goes through the states in which the first memos have been popped. */
  lemma {:induction false} PassesPops(gas: nat, p: Prog, c: Counts, su: Setup, rq: Request, cx: Context, s: St,
                                      n: nat, k: nat)
    returns (gas': nat, p': Prog)
    requires PlanOf(gas, p, c, su).Some? && Flat(PlanOf(gas, p, c, su).value.segs) && !cx.inStep
    requires Undisturbed(Exec(gas, p, rq, cx, s).0)
    requires var es := Entries(PlanOf(gas, p, c, su).value.segs);
             && DistinctIds(es) && CountsAgree(Raws(es), s.counts, c)
             && FirstMemos(es, n, s.memos, su) && PlainRuns(es, rq) && k <= n
    ensures Exec(gas, p, rq, cx, s) == Exec(gas', p', rq, cx, AfterPops(Entries(PlanOf(gas, p, c, su).value.segs), k, s))
    decreases gas, 0
  {
    if k == 0 { return gas, p; }
    match p
    case Return(_) => assert false;
    case Raise(_) => assert false;
    case Flaky(site, next) =>
      assert rq.fault(site).None?;
      gas', p' := PassesPops(gas - 1, next, c, su, rq, cx, s, n, k);
    case Parallel(_, _, _) => assert false;
    case Step(id, op, handler, kk) =>
      gas', p' := PassesStep(gas - 1, id, op, handler, kk, PlanOf(gas, p, c, su).value, c, su, rq, cx, s, n, k);
  }

  lemma {:induction false} PassesStep(gas: nat, id: string, op: Opcode, handler: Prog, kk: StepResult -> Prog, pl: Plan,
                                      c: Counts, su: Setup, rq: Request, cx: Context, s: St, n: nat, k: nat)
    returns (gas': nat, p': Prog)
    requires PlanOf(gas + 1, Step(id, op, handler, kk), c, su) == Some(pl) && Flat(pl.segs) && !cx.inStep
    requires Undisturbed(ExecStep(gas, id, op, handler, kk, rq, cx, s).0)
    requires var es := Entries(pl.segs);
             && DistinctIds(es) && CountsAgree(Raws(es), s.counts, c)
             && FirstMemos(es, n, s.memos, su) && PlainRuns(es, rq) && 0 < k <= n
    ensures ExecStep(gas, id, op, handler, kk, rq, cx, s) == Exec(gas', p', rq, cx, AfterPops(Entries(pl.segs), k, s))
    decreases gas, 1
  {
    hide PlanOf, Entries, Exec, ExecStep, PopMemo, DistinctIds, CountsAgree, Flat, PlainRuns, AfterPops, FirstMemos;
    SomeMemo(Entries(pl.segs), n, s.memos, su);
    var e, next, rest := MemoizedFlat(gas, id, op, handler, kk, pl, c, su, rq, cx, s, n);
    gas', p' := PassesPops(gas, next, Bump(c, id), su, rq, cx, PopMemo(e.id, CountStep(e.raw, s)), n - 1, k - 1);
    AfterPopsCons(e, Entries(rest.segs), k, s);
  }

  /** A first step that has a memo: the run goes on with the code after it, in the same situation. */
  lemma MemoizedFlat(gas: nat, id: string, op: Opcode, handler: Prog, kk: StepResult -> Prog, pl: Plan,
                     c: Counts, su: Setup, rq: Request, cx: Context, s: St, n: nat)
    returns (e: Entry, next: Prog, rest: Plan)
    requires PlanOf(gas + 1, Step(id, op, handler, kk), c, su) == Some(pl) && Flat(pl.segs) && !cx.inStep
    requires var es := Entries(pl.segs);
             && DistinctIds(es) && CountsAgree(Raws(es), s.counts, c)
             && FirstMemos(es, n, s.memos, su) && PlainRuns(es, rq) && n > 0
    ensures PlanOf(gas, next, Bump(c, id), su) == Some(rest) && Flat(rest.segs) && e.raw == id
    ensures Entries(pl.segs) == [e] + Entries(rest.segs)
    ensures var s2, es := PopMemo(e.id, CountStep(e.raw, s)), Entries(rest.segs);
            && ExecStep(gas, id, op, handler, kk, rq, cx, s) == Exec(gas, next, rq, cx, s2)
            && DistinctIds(es) && CountsAgree(Raws(es), s2.counts, Bump(c, id))
            && FirstMemos(es, n - 1, s2.memos, su) && PlainRuns(es, rq)
  {
    hide PlanOf, PlanStep, Entries, Exec, ExecStep, PopMemo, DistinctIds, CountsAgree, Flat, Decode, PlainRuns,
         FirstMemos;
    e, next, rest := UnfoldStep(gas, id, op, handler, kk, pl, c, su);
    FlatTail(e, rest, pl, c, rq, s);
    FirstIsMemoized(e, Entries(pl.segs), n, s.memos, su);
    FirstMemosTail(e, Entries(rest.segs), n, s, su);
    PopFramed(e, s);
    MemoizedStep(gas, id, op, handler, kk, rq, cx, s);
  }

  /**
   * When the hooks fire on a sequential function whose memos are those of its first `n` steps: the invocation
   * goes through the states after `k` pops, for each `k` up to `n`, and the hooks have fired there if and only
   * if `k` is `n`. So they fire before the function starts if there are no memos, and else at the last pop.
   */
  lemma {:induction false} HooksFireAtLastPop(gas: nat, p: Prog, su: Setup, rq: Request, memos: MemoMap, n: nat, k: nat)
    returns (gas': nat, p': Prog)
    requires PlanOf(gas, p, map[], su).Some? && Flat(PlanOf(gas, p, map[], su).value.segs)
    requires Undisturbed(Exec(gas, p, rq, TOP_LEVEL, Initial(memos)).0)
    requires var es := Entries(PlanOf(gas, p, map[], su).value.segs);
             DistinctIds(es) && FirstMemos(es, n, memos, su) && PlainRuns(es, rq) && k <= n
    ensures var popped := AfterPops(Entries(PlanOf(gas, p, map[], su).value.segs), k, Initial(memos));
            && Exec(gas, p, rq, TOP_LEVEL, Initial(memos)) == Exec(gas', p', rq, TOP_LEVEL, popped)
            && popped.log == if k == n then [BeforeExecution] else []
  {
    hide Exec, PlanOf, Entries, Flat, DistinctIds, PlainRuns, Ids, AfterPops;
    var es := Entries(PlanOf(gas, p, map[], su).value.segs);
    InitialLog(es, n, memos, su);
    gas', p' := PassesPops(gas, p, map[], su, rq, TOP_LEVEL, Initial(memos), n, k);
    hide FirstMemos;
    LastPopFires(es, n, k, Initial(memos), su);
    assert [] + [BeforeExecution] == [BeforeExecution];
  }

  /**
   * Such a function fires `before_execution` exactly once, before the one handler that the invocation may
   * start, unless the environment makes code between the steps raise; a disturbed handler does not matter.
   */
  lemma {:induction false} HooksFireFirst(gas: nat, p: Prog, su: Setup, rq: Request, memos: MemoMap, n: nat)
    requires PlanOf(gas, p, map[], su).Some? && Flat(PlanOf(gas, p, map[], su).value.segs)
    requires Undisturbed(Exec(gas, p, rq, TOP_LEVEL, Initial(memos)).0)
    requires var es := Entries(PlanOf(gas, p, map[], su).value.segs);
             DistinctIds(es) && FirstMemos(es, n, memos, su) && PlainRuns(es, rq)
    ensures var log := RunFunction(gas, p, rq, memos).1.log;
            log == [BeforeExecution] || exists t, ok :: log == [BeforeExecution, HandlerStart(t), HandlerEnd(t, ok)]
  {
    hide Exec, PlanOf, Entries, Flat, DistinctIds, PlainRuns, Ids;
    var s := Initial(memos);
    var es := Entries(PlanOf(gas, p, map[], su).value.segs);
    InitialLog(es, n, memos, su);
    FlatLog(gas, p, map[], su, rq, TOP_LEVEL, s, n);
    BracketHooks(s.beforeDone, s.log, Exec(gas, p, rq, TOP_LEVEL, s).1.log);
  }

  lemma InitialLog(es: seq<Entry>, n: nat, memos: MemoMap, su: Setup)
    requires FirstMemos(es, n, memos, su)
    ensures var s := Initial(memos);
            && s.memos == memos && s.counts == map[] && (n == 0 <==> s.beforeDone)
            && s.log == if s.beforeDone then [BeforeExecution] else []
  {
    if n == 0 {
      assert es[..0] == [];
      assert memos == map[];
    } else {
      assert es[..n][0].id in memos;
      assert |memos| > 0;
    }
  }

  lemma BracketHooks(beforeDone: bool, log: seq<Event>, log': seq<Event>)
    requires log == (if beforeDone then [BeforeExecution] else []) && HookThenHandler(beforeDone, log, log')
    ensures log' == [BeforeExecution] || exists t, ok :: log' == [BeforeExecution, HandlerStart(t), HandlerEnd(t, ok)]
  {
    var fired := [BeforeExecution];
    assert (if beforeDone then log else log + [BeforeExecution]) == fired;
    if log' != fired {
      var t, ok :| log' == fired + [HandlerStart(t), HandlerEnd(t, ok)];
      assert log' == [BeforeExecution, HandlerStart(t), HandlerEnd(t, ok)];
    }
  }
}
