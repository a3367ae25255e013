/** Laws of one invocation that hold for every program, well-behaved or not. */
module EngineLaws {
  import opened Values
  import opened StepIds
  import opened Memos
  import opened Programs
  import opened Engine

  // ----- Handlers never nest; hooks fire at most once -----

  /**
   * Reads a log as brackets. `Some(b)` says that no handler started inside another one, and that `b` tells
   * whether one is running at the end; `None` says that the log breaks the rule.
   */
  function Active(log: seq<Event>): Option<bool> {
    if log == [] then Some(false)
    else
      var before := Active(log[..|log| - 1]);
      match log[|log| - 1]
      case BeforeExecution => before
      case HandlerStart(_) => if before == Some(false) then Some(true) else None
      case HandlerEnd(_, _) => if before == Some(true) then Some(false) else None
  }

  function Fires(log: seq<Event>): nat {
    multiset(log)[BeforeExecution]
  }

  /** The log is well bracketed with the context variable, and the hook flag tells whether hooks ran. */
  ghost predicate Disciplined(inStep: bool, s: St) {
    && Active(s.log) == Some(inStep)
    && Fires(s.log) == (if s.beforeDone then 1 else 0)
  }

  lemma ActiveSnoc(log: seq<Event>, e: Event)
    ensures Active(log + [e]) ==
            match e {
              case BeforeExecution => Active(log)
              case HandlerStart(_) => if Active(log) == Some(false) then Some(true) else None
              case HandlerEnd(_, _) => if Active(log) == Some(true) then Some(false) else None
            }
  {
    assert (log + [e])[..|log|] == log;
  }

  lemma PopMemoDisciplined(inStep: bool, id: HashedId, s: St)
    requires Disciplined(inStep, s)
    ensures Disciplined(inStep, PopMemo(id, s))
  {
    ActiveSnoc(s.log, BeforeExecution);
  }

  /** `_in_step` is true exactly while a handler runs, through any program and any way of ending. */
  lemma {:induction false} ExecDisciplined(gas: nat, p: Prog, rq: Request, cx: Context, s: St)
    requires Disciplined(cx.inStep, s)
    ensures Disciplined(cx.inStep, Exec(gas, p, rq, cx, s).1)
    decreases gas, 0
  {
    if gas == 0 { return; }
    match p
    case Return(_) =>
    case Raise(_) =>
    case Flaky(site, next) =>
      if rq.fault(site).None? { ExecDisciplined(gas - 1, next, rq, cx, s); }
    case Step(id, op, handler, k) => ExecStepDisciplined(gas - 1, id, op, handler, k, rq, cx, s);
    case Parallel(callbacks, mode, gk) => ExecGroupDisciplined(gas - 1, callbacks, mode, gk, rq, cx, s);
  }

  lemma {:induction false} ExecStepDisciplined(gas: nat, id: string, op: Opcode, handler: Prog, k: StepResult -> Prog,
                                         rq: Request, cx: Context, s: St)
    requires Disciplined(cx.inStep, s)
    ensures Disciplined(cx.inStep, ExecStep(gas, id, op, handler, k, rq, cx, s).1)
    decreases gas, 2
  {
    var info, s1 := InfoOf(id, op, s), CountStep(id, s);
    var s2 := PopMemo(info.id, s1);
    PopMemoDisciplined(cx.inStep, info.id, s1);
    var report := ReportStep(info, rq, cx, s1);
    if report.Memoized? && !cx.inStep {
      ExecDisciplined(gas, k(report.result), rq, cx, s2);
    } else if report.Fresh? && !cx.inStep {
      RunHandlerDisciplined(gas, handler, info, rq, cx, s2);
      var (o, s3) := RunHandler(gas, handler, info, rq, cx, s2);
      if o.Threw? { ExecDisciplined(gas, k(Failed(o.e)), rq, cx, s3); }
    }
  }

  lemma {:induction false} ExecGroupDisciplined(gas: nat, callbacks: seq<Prog>, mode: ParallelMode,
                                                gk: GroupResult -> Prog,
                                          rq: Request, cx: Context, s: St)
    requires Disciplined(cx.inStep, s)
    ensures Disciplined(cx.inStep, ExecGroup(gas, callbacks, mode, gk, rq, cx, s).1)
    decreases gas, |callbacks| + 1
  {
    var inner := cx.(inParallel := true);
    ExecAllDisciplined(gas, callbacks, rq, inner, s);
    var (g, s1) := ExecAll(gas, callbacks, rq, inner, s);
    if g.Stopped? && g.o.Threw? {
      ExecDisciplined(gas, gk(GroupFailed(g.o.e)), rq, cx, s1);
    } else if g.Collected? && |g.responses| == 0 {
      ExecDisciplined(gas, gk(Outputs(g.outputs)), rq, cx, s1);
    }
  }

  lemma {:induction false} RunHandlerDisciplined(gas: nat, handler: Prog, info: StepInfo, rq: Request, cx: Context,
                                                 s: St)
    requires !cx.inStep && Disciplined(false, s)
    ensures Disciplined(false, RunHandler(gas, handler, info, rq, cx, s).1)
    decreases gas, 1
  {
    var started := s.(log := s.log + [HandlerStart(info.id)]);
    ActiveSnoc(s.log, HandlerStart(info.id));
    ExecDisciplined(gas, handler, rq, cx.(inStep := true), started);
    var (o, s1) := Exec(gas, handler, rq, cx.(inStep := true), started);
    ActiveSnoc(s1.log, HandlerEnd(info.id, o.Returned?));
  }

  lemma {:induction false} ExecAllDisciplined(gas: nat, callbacks: seq<Prog>, rq: Request, cx: Context, s: St)
    requires Disciplined(cx.inStep, s)
    ensures Disciplined(cx.inStep, ExecAll(gas, callbacks, rq, cx, s).1)
    decreases gas, |callbacks|
  {
    if callbacks != [] {
      ExecDisciplined(gas, callbacks[0], rq, cx, s);
      var (o, s1) := Exec(gas, callbacks[0], rq, cx, s);
      ExecAllDisciplined(gas, callbacks[1..], rq, cx, s1);
    }
  }

  lemma InitialDisciplined(memos: MemoMap)
    ensures Disciplined(false, Initial(memos))
  {
    ActiveSnoc([], BeforeExecution);
    assert [] + [BeforeExecution] == [BeforeExecution];
  }

  /** In every invocation handlers run one at a time, and `before_execution` fires at most once. */
  lemma {:induction false} InvocationDiscipline(gas: nat, p: Prog, rq: Request, memos: MemoMap)
    ensures var log := RunFunction(gas, p, rq, memos).1.log;
            Active(log) == Some(false) && Fires(log) <= 1
  {
    InitialDisciplined(memos);
    ExecDisciplined(gas, p, rq, TOP_LEVEL, Initial(memos));
  }

  // ----- Targeted invocations -----

  ghost predicate OnlyRuns(t: HashedId, log: seq<Event>) {
    forall e :: e in log && e.HandlerStart? ==> e.id == t
  }

  ghost predicate AllFor(t: HashedId, responses: seq<StepResponse>) {
    forall i :: 0 <= i < |responses| ==> responses[i].step.id == t
  }

  /** How often `t` was reported. */
  function Uses(t: HashedId, reported: seq<HashedId>): nat {
    multiset(reported)[t]
  }

  lemma UsesSnoc(t: HashedId, reported: seq<HashedId>, id: HashedId)
    ensures Uses(t, reported + [id]) == Uses(t, reported) + (if id == t then 1 else 0)
  {
  }

  function ResponseCount(o: Outcome): nat {
    if o.Interrupt? then |o.responses| else 0
  }

  /** What a piece of targeted execution from `s` to `s'` may do: every response is paid for by a report. */
  ghost predicate Focused(t: HashedId, s: St, o: Outcome, s': St) {
    && OnlyRuns(t, s'.log)
    && Uses(t, s.reported) + ResponseCount(o) <= Uses(t, s'.reported)
    && (o.Interrupt? ==> |o.responses| > 0 && AllFor(t, o.responses))
  }

  lemma {:induction false} ExecFocused(gas: nat, p: Prog, rq: Request, cx: Context, s: St)
    requires rq.target.Some? && OnlyRuns(rq.target.value, s.log)
    ensures var (o, s') := Exec(gas, p, rq, cx, s); Focused(rq.target.value, s, o, s')
    decreases gas, 0
  {
    hide OnlyRuns, Uses, AllFor, ExecStep, ExecGroup;
    if gas == 0 { return; }
    match p
    case Return(_) =>
    case Raise(_) =>
    case Flaky(site, next) =>
      if rq.fault(site).None? { ExecFocused(gas - 1, next, rq, cx, s); }
    case Step(id, op, handler, k) => ExecStepFocused(gas - 1, id, op, handler, k, rq, cx, s);
    case Parallel(callbacks, mode, gk) => ExecGroupFocused(gas - 1, callbacks, mode, gk, rq, cx, s);
  }

  lemma {:induction false} ExecStepFocused(gas: nat, id: string, op: Opcode, handler: Prog, k: StepResult -> Prog,
                                         rq: Request, cx: Context, s: St)
    requires rq.target.Some? && OnlyRuns(rq.target.value, s.log)
    ensures var (o, s') := ExecStep(gas, id, op, handler, k, rq, cx, s);
            Focused(rq.target.value, s, o, s')
    decreases gas, 2
  {
    var info, s1 := InfoOf(id, op, s), CountStep(id, s);
    var s2 := PopMemo(info.id, s1);
    UsesSnoc(rq.target.value, s.reported, info.id);
    assert s2.reported == s.reported + [info.id] && OnlyRuns(rq.target.value, s2.log);
    hide PopMemo, Uses, OnlyRuns, Exec, RunHandler;
    var report := ReportStep(info, rq, cx, s1);
    if report.Memoized? && !cx.inStep {
      ExecFocused(gas, k(report.result), rq, cx, s2);
    } else if report.Fresh? && !cx.inStep {
      RunHandlerFocused(gas, handler, info, rq, cx, s2);
      var (o, s3) := RunHandler(gas, handler, info, rq, cx, s2);
      if o.Threw? { ExecFocused(gas, k(Failed(o.e)), rq, cx, s3); }
    }
  }

  lemma {:induction false} ExecGroupFocused(gas: nat, callbacks: seq<Prog>, mode: ParallelMode, gk: GroupResult -> Prog,
                                          rq: Request, cx: Context, s: St)
    requires rq.target.Some? && OnlyRuns(rq.target.value, s.log)
    ensures var (o, s') := ExecGroup(gas, callbacks, mode, gk, rq, cx, s);
            Focused(rq.target.value, s, o, s')
    decreases gas, |callbacks| + 1
  {
    var inner := cx.(inParallel := true);
    ExecAllFocused(gas, callbacks, rq, inner, s);
    var (g, s1) := ExecAll(gas, callbacks, rq, inner, s);
    if g.Stopped? && g.o.Threw? {
      ExecFocused(gas, gk(GroupFailed(g.o.e)), rq, cx, s1);
    } else if g.Collected? && |g.responses| == 0 {
      ExecFocused(gas, gk(Outputs(g.outputs)), rq, cx, s1);
    }
  }

  lemma {:induction false} RunHandlerFocused(gas: nat, handler: Prog, info: StepInfo, rq: Request, cx: Context, s: St)
    requires rq.target.Some? && OnlyRuns(rq.target.value, s.log)
    requires info.id == rq.target.value
    ensures var (o, s') := RunHandler(gas, handler, info, rq, cx, s);
            && OnlyRuns(rq.target.value, s'.log)
            && Uses(info.id, s.reported) + ResponseCount(o) <= Uses(info.id, s'.reported) + 1
            && Uses(info.id, s.reported) <= Uses(info.id, s'.reported)
            && (o.Interrupt? ==> |o.responses| > 0 && AllFor(info.id, o.responses))
    decreases gas, 1
  {
    ExecFocused(gas, handler, rq, cx.(inStep := true), s.(log := s.log + [HandlerStart(info.id)]));
  }

  lemma {:induction false} ExecAllFocused(gas: nat, callbacks: seq<Prog>, rq: Request, cx: Context, s: St)
    requires rq.target.Some? && OnlyRuns(rq.target.value, s.log)
    ensures var (g, s') := ExecAll(gas, callbacks, rq, cx, s);
            && OnlyRuns(rq.target.value, s'.log)
            && Uses(rq.target.value, s.reported) <= Uses(rq.target.value, s'.reported)
            && (g.Stopped? ==> !g.o.Interrupt?)
            && (g.Collected? ==>
                  && AllFor(rq.target.value, g.responses)
                  && Uses(rq.target.value, s.reported) + |g.responses| <= Uses(rq.target.value, s'.reported))
    decreases gas, |callbacks|
  {
    if callbacks != [] {
      ExecFocused(gas, callbacks[0], rq, cx, s);
      var (o, s1) := Exec(gas, callbacks[0], rq, cx, s);
      ExecAllFocused(gas, callbacks[1..], rq, cx, s1);
    }
  }

  lemma {:induction false} DistinctMeansOnce(t: HashedId, reported: seq<HashedId>)
    requires NoDuplicates(reported)
    ensures Uses(t, reported) <= 1
  {
    if reported != [] {
      var front, last := reported[..|reported| - 1], reported[|reported| - 1];
      assert reported == front + [last];
      if last == t {
        assert t !in front;
      } else {
        DistinctMeansOnce(t, front);
      }
    }
  }

  /**
   * With a target, no other handler runs; and when responses come back there is exactly one, for the
   * target, whatever the nesting of groups - as long as the invocation reported no hashed ID twice.
   */
  lemma {:induction false} TargetedInvocation(gas: nat, p: Prog, rq: Request, memos: MemoMap)
    requires rq.target.Some?
    ensures var (res, s) := RunFunction(gas, p, rq, memos);
            && OnlyRuns(rq.target.value, s.log)
            && (res.Multi? && NoDuplicates(s.reported) ==>
                  |res.results| == 1 && res.results[0].step.id == rq.target.value)
  {
    var t := rq.target.value;
    ExecFocused(gas, p, rq, TOP_LEVEL, Initial(memos));
    var (o, s) := Exec(gas, p, rq, TOP_LEVEL, Initial(memos));
    if o.Interrupt? && NoDuplicates(s.reported) {
      DistinctMeansOnce(t, s.reported);
    }
  }

  // ----- Untargeted invocations -----

  ghost predicate NoStarts(log: seq<Event>) {
    forall e :: e in log ==> !e.HandlerStart?
  }

  /** With immediate execution disabled and no target, nothing runs: steps are only looked up and planned. */
  lemma {:induction false} ExecIdle(gas: nat, p: Prog, rq: Request, cx: Context, s: St)
    requires rq.target.None? && rq.disableImmediateExecution && NoStarts(s.log)
    ensures var (_, s') := Exec(gas, p, rq, cx, s); NoStarts(s'.log)
    decreases gas, 0
  {
    hide NoStarts, ExecStep, ExecGroup;
    if gas == 0 { return; }
    match p
    case Return(_) =>
    case Raise(_) =>
    case Flaky(site, next) =>
      if rq.fault(site).None? { ExecIdle(gas - 1, next, rq, cx, s); }
    case Step(id, op, handler, k) => ExecStepIdle(gas - 1, id, op, handler, k, rq, cx, s);
    case Parallel(callbacks, mode, gk) => ExecGroupIdle(gas - 1, callbacks, mode, gk, rq, cx, s);
  }

  lemma {:induction false} ExecStepIdle(gas: nat, id: string, op: Opcode, handler: Prog, k: StepResult -> Prog,
                                        rq: Request, cx: Context, s: St)
    requires rq.target.None? && rq.disableImmediateExecution && NoStarts(s.log)
    ensures var (_, s') := ExecStep(gas, id, op, handler, k, rq, cx, s); NoStarts(s'.log)
    decreases gas, 2
  {
    var info, s1 := InfoOf(id, op, s), CountStep(id, s);
    var report := ReportStep(info, rq, cx, s1);
    assert !report.Fresh?;
    if report.Memoized? && !cx.inStep {
      ExecIdle(gas, k(report.result), rq, cx, PopMemo(info.id, s1));
    }
  }

  lemma {:induction false} ExecGroupIdle(gas: nat, callbacks: seq<Prog>, mode: ParallelMode, gk: GroupResult -> Prog,
                                         rq: Request, cx: Context, s: St)
    requires rq.target.None? && rq.disableImmediateExecution && NoStarts(s.log)
    ensures var (_, s') := ExecGroup(gas, callbacks, mode, gk, rq, cx, s); NoStarts(s'.log)
    decreases gas, |callbacks| + 1
  {
    var inner := cx.(inParallel := true);
    ExecAllIdle(gas, callbacks, rq, inner, s);
    var (g, s1) := ExecAll(gas, callbacks, rq, inner, s);
    if g.Stopped? && g.o.Threw? {
      ExecIdle(gas, gk(GroupFailed(g.o.e)), rq, cx, s1);
    } else if g.Collected? && |g.responses| == 0 {
      ExecIdle(gas, gk(Outputs(g.outputs)), rq, cx, s1);
    }
  }

  lemma {:induction false} ExecAllIdle(gas: nat, callbacks: seq<Prog>, rq: Request, cx: Context, s: St)
    requires rq.target.None? && rq.disableImmediateExecution && NoStarts(s.log)
    ensures var (_, s') := ExecAll(gas, callbacks, rq, cx, s); NoStarts(s'.log)
    decreases gas, |callbacks|
  {
    if callbacks != [] {
      ExecIdle(gas, callbacks[0], rq, cx, s);
      ExecAllIdle(gas, callbacks[1..], rq, cx, Exec(gas, callbacks[0], rq, cx, s).1);
    }
  }

  lemma {:induction false} UntargetedInvocation(gas: nat, p: Prog, rq: Request, memos: MemoMap)
    requires rq.target.None? && rq.disableImmediateExecution
    ensures NoStarts(RunFunction(gas, p, rq, memos).1.log)
  {
    ExecIdle(gas, p, rq, TOP_LEVEL, Initial(memos));
  }
}
