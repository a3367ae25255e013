/**
 * One invocation and the executor loop in the form the SDK has them: objects that pop memos, count step IDs,
 * set and reset context variables and accumulate responses, proved against the specification in `Engine`
 * and `Trigger`.
 */
module Machine {
  import opened Values
  import opened StepIds
  import opened Memos
  import opened Programs
  import opened Engine
  import opened Plans
  import opened Middleware
  import T = Trigger
  import L = TriggerLaws

  /** What a group has gathered before the callbacks that are still to come. */
  function Push(outputs: seq<Value>, responses: seq<StepResponse>, rest: Gathered): Gathered {
    if rest.Stopped? then rest else Collected(outputs + rest.outputs, responses + rest.responses)
  }

  lemma PushPrepend(outputs: seq<Value>, responses: seq<StepResponse>, o: Outcome, rest: Gathered)
    requires !o.Threw? && !o.NestedStep? && !o.Exhausted?
    ensures Push(outputs, responses, Prepend(o, rest)) ==
            Push(if o.Returned? then outputs + [o.v] else outputs,
                 if o.Interrupt? then responses + o.responses else responses, rest)
  {
    if rest.Collected? && o.Returned? {
      assert outputs + ([o.v] + rest.outputs) == outputs + [o.v] + rest.outputs;
    } else if rest.Collected? && o.Interrupt? {
      assert responses + (o.responses + rest.responses) == responses + o.responses + rest.responses;
    }
  }

  lemma PushNothing(rest: Gathered)
    ensures Push([], [], rest) == rest
  {
    if rest.Collected? {
      assert [] + rest.outputs == rest.outputs && [] + rest.responses == rest.responses;
    }
  }

  class Execution {
    const rq: Request
    const memos: StepMemos
    const counter: StepIDCounter
    const middleware: MiddlewareManager<()>

    // The context variables `_in_step` and `in_parallel`.
    var inStep: bool
    var inParallel: bool

    ghost var reported: seq<HashedId>
    ghost var log: seq<Event>

    constructor (rq: Request, memos: StepMemos, counter: StepIDCounter, middleware: MiddlewareManager<()>)
      requires counter.Valid() && middleware.Valid()
      ensures this.rq == rq && this.memos == memos && this.counter == counter && this.middleware == middleware
      ensures Valid() && Cx() == TOP_LEVEL
      ensures State() == St(memos.memos, counter.counts, BEFORE_EXECUTION in middleware.disabledHooks, [], [])
    {
      this.rq, this.memos, this.counter, this.middleware := rq, memos, counter, middleware;
      inStep, inParallel := false, false;
      reported, log := [], [];
    }

    ghost predicate Valid()
      reads this, counter, middleware
    {
      counter.Valid() && middleware.Valid()
    }

    ghost function State(): St
      reads this, memos, counter, middleware
    {
      St(memos.memos, counter.counts, BEFORE_EXECUTION in middleware.disabledHooks, reported, log)
    }

    function Cx(): Context
      reads this
    {
      Context(inParallel, inStep)
    }

    /** No `before_execution` hook is asynchronous or raises. */
    ghost predicate HooksPass()
      reads middleware`layers, middleware`world
    {
      forall l :: 0 <= l < |middleware.layers| ==> !middleware.layers[l].isAsync && !middleware.layers[l].beforeRaises(middleware.world)
    }

    /** Starts the hooks unless they were started before in this invocation. */
    method BeforeExecution() returns (err: Option<HookError>)
      requires Valid()
      modifies this`log, middleware`disabledHooks, middleware`beforeRuns
      ensures Valid() && State() == FireBefore(old(State()))
      ensures err.None? <==> old(State().beforeDone) || HooksPass()
    {
      var first := BEFORE_EXECUTION !in middleware.disabledHooks;
      err := middleware.BeforeExecutionSync();
      if first {
        log := log + [Event.BeforeExecution];
      }
    }

    /** Pops the memo of a step and decides what becomes of the step. An error of the hooks is dropped here. */
    method Report(info: StepInfo) returns (r: Report)
      requires Valid()
      modifies this`log, this`reported, memos, middleware`disabledHooks, middleware`beforeRuns
      ensures Valid()
      ensures r == ReportStep(info, rq, old(Cx()), old(State()))
      ensures State() == PopMemo(info.id, old(State()))
    {
      var memo := memos.Pop(info.id);
      reported := reported + [info.id];
      if memos.Size() == 0 {
        var _ := BeforeExecution();
      }
      if memo.Some? {
        return Memoized(MemoResult(memo.value));
      }
      var isTargetingEnabled := rq.target.Some?;
      if isTargetingEnabled && rq.target.value != info.id {
        return Raised(Skip(info.displayName));
      }
      if inParallel && !isTargetingEnabled {
        return Raised(Respond(PlanInfo(info)));
      }
      if info.op.StepRun? && rq.disableImmediateExecution && !isTargetingEnabled {
        return Raised(Respond(PlanInfo(info)));
      }
      if info.op.StepRun? {
        return Fresh;
      }
      return Raised(Respond(info));
    }

    /** Runs user code. The context variables are what they were, however the code ends. */
    method RunCode(gas: nat, p: Prog) returns (o: Outcome)
      requires Valid()
      modifies this, memos, counter, middleware`disabledHooks, middleware`beforeRuns
      ensures Valid() && Cx() == old(Cx())
      ensures (o, State()) == Exec(gas, p, rq, old(Cx()), old(State()))
      decreases gas, 0
    {
      hide ExecStep, ExecGroup;
      if gas == 0 {
        return Exhausted;
      }
      match p
      case Return(v) => return Returned(v);
      case Raise(e) => return Threw(e);
      case Flaky(site, next) =>
        var fault := rq.fault(site);
        if fault.Some? {
          return Threw(Transient(fault.value));
        }
        o := RunCode(gas - 1, next);
      case Step(id, op, handler, k) => o := CallStep(gas - 1, id, op, handler, k);
      case Parallel(callbacks, mode, gk) => o := CallParallel(gas - 1, callbacks, mode, gk);
    }

    /** A step call: `with report_step(...)` enters and leaves `_in_step` around the handler. */
    method CallStep(gas: nat, id: string, op: Opcode, handler: Prog, k: StepResult -> Prog) returns (o: Outcome)
      requires Valid()
      modifies this, memos, counter, middleware`disabledHooks, middleware`beforeRuns
      ensures Valid() && Cx() == old(Cx())
      ensures (o, State()) == ExecStep(gas, id, op, handler, k, rq, old(Cx()), old(State()))
      decreases gas, 2
    {
      var parsed := counter.ParseStepID(id);
      var info := StepInfo(parsed.userFacing, parsed.hashed, op, false);
      var report := Report(info);
      if report.Raised? {
        return report.o;
      }
      if inStep {
        return NestedStep;
      }
      if report.Memoized? {
        o := RunCode(gas, k(report.result));
        return;
      }
      o := CallHandler(gas, handler, info);
      if o.Threw? {
        o := RunCode(gas, k(Failed(o.e)));
      }
    }

    /** The handler, with `_in_step` set around it, and what `step.run` makes of the way it ends. */
    method CallHandler(gas: nat, handler: Prog, info: StepInfo) returns (o: Outcome)
      requires Valid() && !inStep
      modifies this, memos, counter, middleware`disabledHooks, middleware`beforeRuns
      ensures Valid() && Cx() == old(Cx())
      ensures (o, State()) == RunHandler(gas, handler, info, rq, old(Cx()), old(State()))
      decreases gas, 1
    {
      var token := inStep;
      inStep := true;
      log := log + [HandlerStart(info.id)];
      o := RunCode(gas, handler);
      log := log + [HandlerEnd(info.id, o.Returned?)];
      inStep := token;
      if o.Returned? {
        o := Interrupt([StepResponse(info, o.v, None)]);
      } else if o.Threw? && (o.e.NonRetriable? || o.e.RetryAfter?) {
        return;
      } else if o.Threw? {
        var lastAttempt := rq.maxAttempts.Some? && rq.attempt + 1 >= rq.maxAttempts.value;
        o := Interrupt([StepResponse(info.(op := if lastAttempt then StepFailed else StepError), Null, Some(o.e))]);
      } else if o.NestedStep? {
        o := Interrupt([StepResponse(info.(op := StepError), Null, Some(NestedSteps))]);
      }
    }

    /** A group call: `in_parallel` is set while the callbacks are discovered, and reset on every way out. */
    method CallParallel(gas: nat, callbacks: seq<Prog>, mode: ParallelMode,
                        gk: GroupResult -> Prog) returns (o: Outcome)
      requires Valid()
      modifies this, memos, counter, middleware`disabledHooks, middleware`beforeRuns
      ensures Valid() && Cx() == old(Cx())
      ensures (o, State()) == ExecGroup(gas, callbacks, mode, gk, rq, old(Cx()), old(State()))
      decreases gas, |callbacks| + 1
    {
      var token := inParallel;
      inParallel := true;
      ghost var cx, s0 := Cx(), State();
      var outputs: seq<Value>, responses: seq<StepResponse> := [], [];
      var raised: Option<Outcome> := None;
      var i := 0;
      assert callbacks[0..] == callbacks;
      PushNothing(ExecAll(gas, callbacks, rq, cx, s0).0);
      while i < |callbacks| && raised.None?
        invariant 0 <= i <= |callbacks|
        invariant Valid() && Cx() == cx
        invariant raised.Some? ==> ExecAll(gas, callbacks, rq, cx, s0) == (Stopped(raised.value), State())
        invariant raised.None? ==>
                    var (rest, s1) := ExecAll(gas, callbacks[i..], rq, cx, State());
                    ExecAll(gas, callbacks, rq, cx, s0) == (Push(outputs, responses, rest), s1)
        decreases |callbacks| - i, raised.None?
      {
        ghost var before := State();
        var result := RunCode(gas, callbacks[i]);
        assert callbacks[i..][1..] == callbacks[i + 1..];
        assert (result, State()) == Exec(gas, callbacks[i], rq, cx, before);
        ghost var rest := ExecAll(gas, callbacks[i + 1..], rq, cx, State()).0;
        if result.Threw? || result.NestedStep? || result.Exhausted? {
          raised := Some(result);
        } else {
          PushPrepend(outputs, responses, result, rest);
          if result.Returned? {
            outputs := outputs + [result.v];
          } else if result.Interrupt? {
            responses := responses + result.responses;
          }
        }
        i := i + 1;
      }
      assert raised.None? ==> callbacks[i..] == [] && outputs + [] == outputs && responses + [] == responses;
      inParallel := token;
      if raised.Some? {
        o := raised.value;
        if o.Threw? {
          o := RunCode(gas, gk(GroupFailed(o.e)));
        }
      } else if |responses| > 0 {
        o := Interrupt(WithMode(responses, mode));
      } else {
        o := RunCode(gas, gk(Outputs(outputs)));
      }
    }

    /** `run`: hooks first if there are no memos, then the function. Only here an error of the hooks counts. */
    method Run(gas: nat, p: Prog) returns (res: CallResult)
      requires Valid() && Cx() == TOP_LEVEL
      requires State() == St(memos.memos, map[], false, [], [])
      modifies this, memos, counter, middleware`disabledHooks, middleware`beforeRuns
      ensures HooksPass() || |old(memos.memos)| > 0 ==> (res, State()) == RunFunction(gas, p, rq, old(memos.memos))
      ensures !HooksPass() && |old(memos.memos)| == 0 ==> res.Errored? && State() == Initial(old(memos.memos))
    {
      if memos.Size() == 0 {
        var err := BeforeExecution();
        if err.Some? {
          return Errored(Ordinary("before_execution"));
        }
      }
      var o := RunCode(gas, p);
      res := ToCallResult(o);
    }
  }

  // ----- The executor loop -----

  /** The loop over the results of one invocation, updating `steps`, `stack`, `planned` and `attempt`. */
  method ApplyResponses(rs: seq<StepResponse>, cfg: T.Config, steps: map<HashedId, Value>, stack: seq<HashedId>,
                        planned: set<HashedId>, attempt: nat, ghost st: T.TState)
    returns (steps': map<HashedId, Value>, stack': seq<HashedId>, planned': set<HashedId>, attempt': nat, stop: Option<T.Result>)
    requires st.steps == steps && st.stack == stack && st.planned == planned && st.attempt == attempt
    ensures var st' := st.(steps := steps', stack := stack', planned := planned', attempt := attempt');
            T.ApplyAll(rs, cfg, st) == if stop.None? then T.Again(st') else T.Stop(stop.value, st')
  {
    steps', stack', planned', attempt' := steps, stack, planned, attempt;
    for i := 0 to |rs|
      invariant var st' := st.(steps := steps', stack := stack', planned := planned', attempt := attempt');
                T.ApplyAll(rs, cfg, st) == T.ApplyAll(rs[i..], cfg, st')
    {
      var r := rs[i];
      assert rs[i..][0] == r && rs[i..][1..] == rs[i + 1..];
      if r.error.Some? {
        if attempt' >= cfg.MaxAttempt() {
          stop := Some(T.Failure(r.error.value));
          return;
        }
        attempt' := attempt' + 1;
      } else if r.step.displayName in cfg.setup.stubs {
        steps' := steps'[r.step.id := StubValue(cfg.setup.stubs[r.step.displayName])];
        stack' := stack' + [r.step.id];
      } else if r.step.op.Planned? {
        planned' := planned' + {r.step.id};
      } else if r.step.op.Sleep? {
        steps' := steps'[r.step.id := Null];
        stack' := stack' + [r.step.id];
      } else if r.step.op.StepRun? {
        steps' := steps'[r.step.id := r.output];
        stack' := stack' + [r.step.id];
      } else {
        stop := Some(T.Unstubbed(r.step.displayName));
        return;
      }
    }
    stop := None;
  }

  /** What the loop body does with the result of an invocation; `done` means that the loop is left. */
  method HandleResult(res: CallResult, cfg: T.Config, steps: map<HashedId, Value>, stack: seq<HashedId>,
                      planned: set<HashedId>, attempt: nat, ghost st: T.TState)
    returns (steps': map<HashedId, Value>, stack': seq<HashedId>, planned': set<HashedId>, attempt': nat,
             done: bool, r: Option<T.Result>)
    requires st.steps == steps && st.stack == stack && st.planned == planned && st.attempt == attempt
    ensures var st' := st.(steps := steps', stack := stack', planned := planned', attempt := attempt');
            T.Settle(res, cfg, st) == if !done then T.Again(st') else if r.None? then T.Hangs else T.Stop(r.value, st')
  {
    steps', stack', planned', attempt' := steps, stack, planned, attempt;
    done, r := false, None;
    match res {
      case Finished(v) => done, r := true, Some(T.Completed(v));
      case Crashed => done, r := true, Some(T.Aborted);
      case Hung => done := true;
      case Errored(e) =>
        if attempt >= cfg.MaxAttempt() {
          done, r := true, Some(T.Failure(e));
        } else {
          attempt' := attempt + 1;
        }
      case Multi(rs) =>
        steps', stack', planned', attempt', r := ApplyResponses(rs, cfg, steps, stack, planned, attempt, st);
        done := r.Some?;
    }
  }

  /** One invocation on new objects, as each pass through the loop makes them. */
  method Invoke(rq: Request, parse: JsonParser, steps: map<HashedId, Value>, gas: nat, p: Prog)
    returns (res: CallResult, ghost s: St)
    ensures res == RunFunction(gas, p, rq, FromRaw(parse, steps)).0
    ensures s == RunFunction(gas, p, rq, FromRaw(parse, steps)).1
  {
    var memos := new StepMemos(FromRaw(parse, steps));
    var counter := new StepIDCounter();
    var middleware := new MiddlewareManager<()>([], ());
    var exe := new Execution(rq, memos, counter, middleware);
    res := exe.Run(gas, p);
    s := exe.State();
  }

  lemma TurnOf(w: T.World, cfg: T.Config, gas: nat, p: Prog, st: T.TState, res: CallResult, s: St)
    requires (res, s) == RunFunction(gas, p, T.RequestOf(w, st), FromRaw(cfg.setup.parse, st.steps))
    ensures T.TakeTurn(w, cfg, gas, p, st) == T.Settle(res, cfg, T.Invoked(w, st, res, s.log))
  {
  }

  /**
   * The mock executor. `budget` bounds the number of invocations and `gas` the calls each one makes; `None`
   * means that the loop has not ended by then.
   */
  method Trigger(w: T.World, cfg: T.Config, gas: nat, p: Prog, budget: nat)
    returns (r: Option<T.Result>, steps: map<HashedId, Value>, stack: seq<HashedId>)
    ensures match T.RunTrigger(w, cfg, gas, p, T.START, budget)
            case None => r.None?
            case Some((result, st)) => r == Some(result) && steps == st.steps && stack == st.stack
  {
    hide T.TakeTurn, T.RunTrigger, RunFunction;
    steps, stack := map[], [];
    var planned: set<HashedId>, attempt, n := {}, 0, 0;
    ghost var st := T.START;
    while n < budget
      invariant 0 <= n <= budget
      invariant st.steps == steps && st.stack == stack && st.planned == planned && st.attempt == attempt && st.n == n
      invariant T.RunTrigger(w, cfg, gas, p, T.START, budget) == T.RunTrigger(w, cfg, gas, p, st, budget - n)
      decreases budget - n
    {
      var target: Option<HashedId> := None;
      if planned != {} {
        target := Some(w.pick(n, planned));
        planned := planned - {target.value};
      }
      var rq := Request(target, true, attempt, None, w.fault(n));
      assert rq == T.RequestOf(w, st);
      ghost var s;
      var res;
      res, s := Invoke(rq, cfg.setup.parse, steps, gas, p);
      ghost var invoked := T.Invoked(w, st, res, s.log);
      TurnOf(w, cfg, gas, p, st, res, s);
      L.RunUnfolds(gas, p, w, cfg, st, budget - n);
      ghost var turn := T.TakeTurn(w, cfg, gas, p, st);
      var done;
      steps, stack, planned, attempt, done, r := HandleResult(res, cfg, steps, stack, planned, attempt, invoked);
      if done {
        return;
      }
      st := turn.st;
      n := n + 1;
    }
    L.RunUnfoldsToNothing(gas, p, w, cfg, st);
    r := None;
  }
}
