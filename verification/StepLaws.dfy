/**
 * What a step call answers: to a handler that returns or raises, to a step that may not run in this invocation,
 * and to a group in race mode. The answers are written out, opcode by opcode and error by error.
 */
module StepLaws {
  import opened Values
  import opened StepIds
  import opened Memos
  import opened Programs
  import opened Engine

  /** The hashed ID of the next use of `id`. */
  function Hashed(id: string, s: St): HashedId {
    PreHash(id, Count(s.counts, id))
  }

  /** The state once the step is counted, reported and out of the memos; the hooks fire if no memo is left. */
  ghost predicate Reported(id: string, s: St, s': St) {
    var h := Hashed(id, s);
    && s'.memos == s.memos - {h}
    && s'.counts == s.counts[id := Count(s.counts, id) + 1]
    && s'.reported == s.reported + [h]
    && s'.beforeDone == (s.beforeDone || |s.memos - {h}| == 0)
    && s'.log == if s'.beforeDone && !s.beforeDone then s.log + [BeforeExecution] else s.log
  }

  /** The request lets the handler of this step run: it is the target, or steps may run at once. */
  predicate MayRun(h: HashedId, rq: Request, cx: Context) {
    if rq.target.Some? then rq.target.value == h else !cx.inParallel && !rq.disableImmediateExecution
  }

  /** The step as it is answered, with this opcode. */
  function Info(id: string, h: HashedId, op: Opcode): StepInfo {
    StepInfo(id, h, op, false)
  }

  lemma StepReports(gas: nat, id: string, op: Opcode, handler: Prog, k: StepResult -> Prog, rq: Request, cx: Context,
                    s: St)
    returns (s1: St)
    ensures Reported(id, s, s1) && s1 == PopMemo(Hashed(id, s), CountStep(id, s))
    ensures InfoOf(id, op, s) == Info(id, Hashed(id, s), op)
    ensures Exec(gas + 1, Step(id, op, handler, k), rq, cx, s) == ExecStep(gas, id, op, handler, k, rq, cx, s)
  {
    hide ExecStep;
    s1 := PopMemo(Hashed(id, s), CountStep(id, s));
  }

  // ----- A handler runs -----

  /** The run of the handler of `id`, from the state in which it starts, and the state after it. */
  ghost predicate HandlerRan(gas: nat, id: string, handler: Prog, rq: Request, cx: Context, s: St, o: Outcome, s': St) {
    exists s1, s2 ::
      && Reported(id, s, s1)
      && Exec(gas, handler, rq, Context(cx.inParallel, true), s1.(log := s1.log + [HandlerStart(Hashed(id, s))])) == (o, s2)
      && s' == s2.(log := s2.log + [HandlerEnd(Hashed(id, s), o.Returned?)])
  }

  /** A `step.run` without a memo whose handler may run. */
  ghost predicate Runs(id: string, rq: Request, cx: Context, s: St) {
    Hashed(id, s) !in s.memos && !cx.inStep && MayRun(Hashed(id, s), rq, cx)
  }

  /** What the step call makes of the way its handler ended. */
  ghost predicate Answered(gas: nat, id: string, k: StepResult -> Prog, rq: Request, cx: Context, h: HashedId,
                           o: Outcome, s': St,
                           r: (Outcome, St)) {
    match o
    case Returned(v) => r == (Interrupt([StepResponse(Info(id, h, StepRun), v, None)]), s')
    case Threw(NonRetriable(m)) => r == Exec(gas, k(Failed(NonRetriable(m))), rq, cx, s')
    case Threw(RetryAfter(m)) => r == Exec(gas, k(Failed(RetryAfter(m))), rq, cx, s')
    case Threw(e) =>
      var last := rq.maxAttempts.Some? && rq.attempt + 1 >= rq.maxAttempts.value;
      r == (Interrupt([StepResponse(Info(id, h, if last then StepFailed else StepError), Null, Some(e))]), s')
    case NestedStep => r == (Interrupt([StepResponse(Info(id, h, StepError), Null, Some(NestedSteps))]), s')
    case _ => r == (o, s')
  }

  /**
   * The answer of a step whose handler runs, for every way in which the handler can end: its output; an error
   * that is handed on to the function; any other error, as a failed step exactly in the last attempt; or the
   * error about nested steps.
   */
  lemma {:induction false} HandlerAnswers(gas: nat, id: string, handler: Prog, k: StepResult -> Prog, rq: Request,
                                          cx: Context, s: St)
    returns (o: Outcome, s': St)
    requires Runs(id, rq, cx, s)
    ensures HandlerRan(gas, id, handler, rq, cx, s, o, s')
    ensures Answered(gas, id, k, rq, cx, Hashed(id, s), o, s', Exec(gas + 1, Step(id, StepRun, handler, k), rq, cx, s))
  {
    var s1 := StepReports(gas, id, StepRun, handler, k, rq, cx, s);
    hide Exec, PopMemo, Reported;
    var h := Hashed(id, s);
    var started := s1.(log := s1.log + [HandlerStart(h)]);
    assert cx.(inStep := true) == Context(cx.inParallel, true);
    var s2: St;
    o, s2 := Exec(gas, handler, rq, Context(cx.inParallel, true), started).0, Exec(gas, handler, rq, Context(cx.inParallel, true), started).1;
    s' := s2.(log := s2.log + [HandlerEnd(h, o.Returned?)]);
    assert HandlerRan(gas, id, handler, rq, cx, s, o, s');
    assert ReportStep(InfoOf(id, StepRun, s), rq, cx, CountStep(id, s)).Fresh?;
    assert RunHandler(gas, handler, InfoOf(id, StepRun, s), rq, cx, s1) == (HandlerOutcome(o, InfoOf(id, StepRun, s), rq), s');
  }

  lemma RaiseAnswers(gas: nat, id: string, k: StepResult -> Prog, rq: Request, cx: Context, s: St,
                     e: Err) returns (s': St)
    requires gas > 0 && Runs(id, rq, cx, s)
    ensures s'.memos == s.memos - {Hashed(id, s)}
    ensures Answered(gas, id, k, rq, cx, Hashed(id, s), Threw(e), s', Exec(gas + 1, Step(id, StepRun, Raise(e), k), rq, cx, s))
  {
    hide Runs, Exec, Answered, HandlerRan, Hashed;
    var o;
    o, s' := HandlerAnswers(gas, id, Raise(e), k, rq, cx, s);
    RaiseRan(gas, id, e, rq, cx, s, o, s');
  }

  lemma RaiseRan(gas: nat, id: string, e: Err, rq: Request, cx: Context, s: St, o: Outcome, s': St)
    requires gas > 0 && HandlerRan(gas, id, Raise(e), rq, cx, s, o, s')
    ensures o == Threw(e) && s'.memos == s.memos - {Hashed(id, s)}
  {
  }

  lemma FirstUse(id: string, memos: MemoMap)
    ensures Initial(memos).memos == memos && Hashed(id, Initial(memos)) == id
  {
  }

  /**
   * A handler that raises a `NonRetriableError` or a `RetryAfterError` raises it out of `step.run`: the code
   * after the step can catch it, and if it does not, the error is the answer of the function.
   */
  lemma {:induction false} BubblingErrorIsRaised(gas: nat, id: string, k: StepResult -> Prog, rq: Request,
                                                 memos: MemoMap, e: Err)
    returns (s': St)
    requires gas >= 2 && id !in memos && MayRun(id, rq, TOP_LEVEL) && (e.NonRetriable? || e.RetryAfter?)
    ensures s'.memos == memos
    ensures var (o, s2) := Exec(gas - 1, k(Failed(e)), rq, TOP_LEVEL, s');
            RunFunction(gas, Step(id, StepRun, Raise(e), k), rq, memos) == (ToCallResult(o), s2)
    ensures k(Failed(e)) == Raise(e) ==> RunFunction(gas, Step(id, StepRun, Raise(e), k), rq, memos).0 == Errored(e)
  {
    hide Exec, Initial, Hashed;
    FirstUse(id, memos);
    s' := RaiseAnswers(gas - 1, id, k, rq, TOP_LEVEL, Initial(memos), e);
    assert memos - {id} == memos;
    if k(Failed(e)) == Raise(e) { RaisesItself(gas - 1, e, rq, s'); }
  }

  lemma RaisesItself(gas: nat, e: Err, rq: Request, s: St)
    requires gas > 0
    ensures Exec(gas, Raise(e), rq, TOP_LEVEL, s) == (Threw(e), s)
  {
  }

  /** Any other error of a handler is answered as one response for this step, and the code after it does not run. */
  lemma {:induction false} OtherErrorIsAnswered(gas: nat, id: string, k: StepResult -> Prog, rq: Request,
                                                memos: MemoMap, e: Err)
    requires gas >= 2 && id !in memos && MayRun(id, rq, TOP_LEVEL) && !e.NonRetriable? && !e.RetryAfter?
    ensures var res := RunFunction(gas, Step(id, StepRun, Raise(e), k), rq, memos).0;
            && res.Multi? && |res.results| == 1
            && res.results[0].step.displayName == id && res.results[0].step.id == id && !res.results[0].step.race
            && res.results[0].output == Null && res.results[0].error == Some(e)
            && (res.results[0].step.op == StepFailed <==> rq.maxAttempts.Some? && rq.attempt + 1 >= rq.maxAttempts.value)
            && (res.results[0].step.op == StepError <==> rq.maxAttempts.None? || rq.attempt + 1 < rq.maxAttempts.value)
  {
    hide Exec, Initial, Hashed;
    FirstUse(id, memos);
    var s' := RaiseAnswers(gas - 1, id, k, rq, TOP_LEVEL, Initial(memos), e);
  }

  // ----- A handler does not run -----

  /**
   * A step without a memo whose handler may not run: another target skips it, a group plans or reports it,
   * a single run is planned where nothing may run at once, and any other step is reported as it is.
   */
  lemma {:induction false} UnrunAnswers(gas: nat, id: string, op: Opcode, handler: Prog, k: StepResult -> Prog,
                                        rq: Request,
                                        cx: Context, s: St) returns (s1: St)
    requires Hashed(id, s) !in s.memos && (op.StepRun? ==> !MayRun(Hashed(id, s), rq, cx))
    ensures Reported(id, s, s1)
    ensures var h, r := Hashed(id, s), Exec(gas + 1, Step(id, op, handler, k), rq, cx, s);
            && r.1 == s1
            && (rq.target.Some? && rq.target.value != h ==> r.0 == Skip(id))
            && (rq.target.None? && op.StepRun? ==> r.0 == Interrupt([StepResponse(Info(id, h, Planned), Null, None)]))
            && ((rq.target.None? || rq.target.value == h) && !op.StepRun? ==>
                  r.0 == Interrupt([StepResponse(Info(id, h, op), Null, None)]))
  {
    s1 := StepReports(gas, id, op, handler, k, rq, cx, s);
    hide Exec, PopMemo, Reported;
  }

  /** Inside of a handler a step that would give a value or run ends the handler as a nested step. */
  lemma {:induction false} InnerStepIsNested(gas: nat, id: string, op: Opcode, handler: Prog, k: StepResult -> Prog,
                                             rq: Request,
                                             cx: Context, s: St) returns (s1: St)
    requires cx.inStep && (Hashed(id, s) in s.memos || (op.StepRun? && MayRun(Hashed(id, s), rq, cx)))
    ensures Reported(id, s, s1) && Exec(gas + 1, Step(id, op, handler, k), rq, cx, s) == (NestedStep, s1)
  {
    s1 := StepReports(gas, id, op, handler, k, rq, cx, s);
    hide Exec, PopMemo, Reported;
  }

  /** Outside of handlers nothing ends as a nested step, in any program: no invocation crashes that way. */
  lemma {:induction false} NoNestedOutside(gas: nat, p: Prog, rq: Request, cx: Context, s: St)
    requires !cx.inStep
    ensures !Exec(gas, p, rq, cx, s).0.NestedStep?
    decreases gas, 0
  {
    if gas == 0 { return; }
    match p
    case Return(_) =>
    case Raise(_) =>
    case Flaky(site, next) => if rq.fault(site).None? { NoNestedOutside(gas - 1, next, rq, cx, s); }
    case Step(id, op, handler, k) => StepNotNested(gas - 1, id, op, handler, k, rq, cx, s);
    case Parallel(callbacks, mode, gk) =>
      var inner := cx.(inParallel := true);
      CallbacksNotNested(gas - 1, callbacks, rq, inner, s);
      var (g, s1) := ExecAll(gas - 1, callbacks, rq, inner, s);
      if g.Stopped? {
        if g.o.Threw? { NoNestedOutside(gas - 1, gk(GroupFailed(g.o.e)), rq, cx, s1); }
      } else {
        NoNestedOutside(gas - 1, gk(Outputs(g.outputs)), rq, cx, s1);
      }
  }

  lemma {:induction false} StepNotNested(gas: nat, id: string, op: Opcode, handler: Prog, k: StepResult -> Prog,
                                         rq: Request,
                                         cx: Context, s: St)
    requires !cx.inStep
    ensures !ExecStep(gas, id, op, handler, k, rq, cx, s).0.NestedStep?
    decreases gas, 1
  {
    hide PopMemo, Exec;
    var info, s1 := InfoOf(id, op, s), CountStep(id, s);
    var s2 := PopMemo(info.id, s1);
    match ReportStep(info, rq, cx, s1)
    case Raised(_) =>
    case Memoized(result) => NoNestedOutside(gas, k(result), rq, cx, s2);
    case Fresh =>
      var (o, s3) := RunHandler(gas, handler, info, rq, cx, s2);
      if o.Threw? { NoNestedOutside(gas, k(Failed(o.e)), rq, cx, s3); }
  }

  lemma {:induction false} CallbacksNotNested(gas: nat, callbacks: seq<Prog>, rq: Request, cx: Context, s: St)
    requires !cx.inStep
    ensures var g := ExecAll(gas, callbacks, rq, cx, s).0; g.Stopped? ==> !g.o.NestedStep?
    decreases gas, |callbacks|
  {
    if callbacks != [] {
      NoNestedOutside(gas, callbacks[0], rq, cx, s);
      CallbacksNotNested(gas, callbacks[1..], rq, cx, Exec(gas, callbacks[0], rq, cx, s).1);
    }
  }

  // ----- Race mode -----

  /**
   * A group that has responses answers all of them, in order; race mode marks each of them, wait mode changes
   * none.
   */
  lemma {:induction false} RaceMarksAll(gas: nat, callbacks: seq<Prog>, mode: ParallelMode, gk: GroupResult -> Prog,
                                        rq: Request,
                                        cx: Context, s: St)
    requires ExecAll(gas, callbacks, rq, cx.(inParallel := true), s).0.Collected?
    requires ExecAll(gas, callbacks, rq, cx.(inParallel := true), s).0.responses != []
    ensures var found := ExecAll(gas, callbacks, rq, cx.(inParallel := true), s).0.responses;
            var o := Exec(gas + 1, Parallel(callbacks, mode, gk), rq, cx, s).0;
            && o.Interrupt? && |o.responses| == |found|
            && (mode == Wait ==> o.responses == found)
            && forall i :: 0 <= i < |found| ==>
                 && o.responses[i].step.race == (mode == Race || found[i].step.race)
                 && o.responses[i] == found[i].(step := found[i].step.(race := o.responses[i].step.race))
  {
    hide ExecAll;
    GroupIs(gas, callbacks, mode, gk, rq, cx, s);
  }

  lemma GroupIs(gas: nat, callbacks: seq<Prog>, mode: ParallelMode, gk: GroupResult -> Prog, rq: Request, cx: Context,
                s: St)
    ensures Exec(gas + 1, Parallel(callbacks, mode, gk), rq, cx, s) == ExecGroup(gas, callbacks, mode, gk, rq, cx, s)
  {
  }
}
