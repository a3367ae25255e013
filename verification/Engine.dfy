/** One invocation of a function: report, memoize, plan, skip and interrupt, as a specification. */
module Engine {
  import opened Values
  import opened StepIds
  import opened Memos
  import opened Programs

  datatype StepInfo = StepInfo(displayName: string, id: HashedId, op: Opcode, race: bool) {
    /** Race mode is opt-in, and `Wait` does not take it back. */
    function SetParallelMode(mode: ParallelMode): StepInfo {
      if mode.Race? then this.(race := true) else this
    }
  }

  datatype StepResponse = StepResponse(step: StepInfo, output: Value, error: Option<Err>)

  /** The parts of a request that steer an invocation. `fault` is the environment of this invocation. */
  datatype Request = Request(
    target: Option<HashedId>,
    disableImmediateExecution: bool,
    attempt: nat,
    maxAttempts: Option<nat>,
    fault: string -> Option<string>)

  /** The two context variables. */
  datatype Context = Context(inParallel: bool, inStep: bool)

  datatype Event = BeforeExecution | HandlerStart(id: HashedId) | HandlerEnd(id: HashedId, ok: bool)

  /** Everything an invocation changes, with what it did so far: step IDs reported, hooks and handlers run. */
  datatype St = St(memos: MemoMap, counts: Counts, beforeDone: bool, reported: seq<HashedId>, log: seq<Event>)

  /** How running a piece of user code ends. The last four are not caught by `except Exception`. */
  datatype Outcome =
    | Returned(v: Value)
    | Threw(e: Err)
    | Interrupt(responses: seq<StepResponse>)
    | Skip(step: string)
    | NestedStep
    | Exhausted

  /** `before_execution_sync`: runs the hooks the first time only. */
  function FireBefore(s: St): St {
    if s.beforeDone then s else s.(beforeDone := true, log := s.log + [BeforeExecution])
  }

  function PopMemo(id: HashedId, s: St): St {
    var s1 := s.(memos := s.memos - {id}, reported := s.reported + [id]);
    if |s1.memos| == 0 then FireBefore(s1) else s1
  }

  datatype Report = Memoized(result: StepResult) | Fresh | Raised(o: Outcome)

  function MemoResult(memo: Output): StepResult {
    if memo.error.Some? then Failed(MemoError(memo.error.value)) else Ok(memo.data)
  }

  function PlanInfo(info: StepInfo): StepInfo {
    if info.op.StepRun? then info.(op := Planned) else info
  }

  function Respond(info: StepInfo): Outcome {
    Interrupt([StepResponse(info, Null, None)])
  }

  /** `report_step`: memo, skip, plan, report or run, in that order. `s` is the state before the pop. */
  function ReportStep(info: StepInfo, rq: Request, cx: Context, s: St): Report {
    if info.id in s.memos then Memoized(MemoResult(s.memos[info.id]))
    else if rq.target.Some? && rq.target.value != info.id then Raised(Skip(info.displayName))
    else if cx.inParallel && rq.target.None? then Raised(Respond(PlanInfo(info)))
    else if info.op.StepRun? && rq.disableImmediateExecution && rq.target.None? then
      Raised(Respond(PlanInfo(info)))
    else if info.op.StepRun? then Fresh
    else Raised(Respond(info))
  }

  function ErrorOp(rq: Request): Opcode {
    if rq.maxAttempts.Some? && rq.attempt + 1 >= rq.maxAttempts.value then StepFailed else StepError
  }

  function InfoOf(id: string, op: Opcode, s: St): StepInfo {
    StepInfo(id, PreHash(id, Count(s.counts, id)), op, false)
  }

  function CountStep(id: string, s: St): St {
    s.(counts := Bump(s.counts, id))
  }

  /** How a handler's outcome leaves `step.run`; errors that bubble are left to the code around the call. */
  function HandlerOutcome(o: Outcome, info: StepInfo, rq: Request): Outcome {
    match o
    case Returned(v) => Interrupt([StepResponse(info, v, None)])
    case Threw(e) =>
      if e.Bubbles() then o
      else Interrupt([StepResponse(info.(op := ErrorOp(rq)), Null, Some(e))])
    case NestedStep => Interrupt([StepResponse(info.(op := StepError), Null, Some(NestedSteps))])
    case Interrupt(_) => o
    case Skip(_) => o
    case Exhausted => o
  }

  /** Runs user code for at most `gas` calls. */
  function Exec(gas: nat, p: Prog, rq: Request, cx: Context, s: St): (Outcome, St)
    decreases gas, 0
  {
    if gas == 0 then (Exhausted, s)
    else
      match p
      case Return(v) => (Returned(v), s)
      case Raise(e) => (Threw(e), s)
      case Flaky(site, next) =>
        var fault := rq.fault(site);
        if fault.Some? then (Threw(Transient(fault.value)), s) else Exec(gas - 1, next, rq, cx, s)
      case Step(id, op, handler, k) => ExecStep(gas - 1, id, op, handler, k, rq, cx, s)
      case Parallel(callbacks, mode, gk) => ExecGroup(gas - 1, callbacks, mode, gk, rq, cx, s)
  }

  /** A step call and the code after it. */
  function ExecStep(gas: nat, id: string, op: Opcode, handler: Prog, k: StepResult -> Prog,
                    rq: Request, cx: Context, s: St): (Outcome, St)
    decreases gas, 2
  {
    var info := InfoOf(id, op, s);
    var s1 := CountStep(id, s);
    var s2 := PopMemo(info.id, s1);
    match ReportStep(info, rq, cx, s1)
    case Raised(o) => (o, s2)
    case Memoized(result) =>
      if cx.inStep then (NestedStep, s2) else Exec(gas, k(result), rq, cx, s2)
    case Fresh =>
      if cx.inStep then (NestedStep, s2)
      else
        var (o, s3) := RunHandler(gas, handler, info, rq, cx, s2);
        if o.Threw? then Exec(gas, k(Failed(o.e)), rq, cx, s3) else (o, s3)
  }

  function RunHandler(gas: nat, handler: Prog, info: StepInfo, rq: Request, cx: Context, s: St): (Outcome, St)
    decreases gas, 1
  {
    var (o, s1) := Exec(gas, handler, rq, cx.(inStep := true), s.(log := s.log + [HandlerStart(info.id)]));
    (HandlerOutcome(o, info, rq), s1.(log := s1.log + [HandlerEnd(info.id, o.Returned?)]))
  }

  /** A group call and the code after it. */
  function ExecGroup(gas: nat, callbacks: seq<Prog>, mode: ParallelMode, gk: GroupResult -> Prog,
                     rq: Request, cx: Context, s: St): (Outcome, St)
    decreases gas, |callbacks| + 1
  {
    var (g, s1) := ExecAll(gas, callbacks, rq, cx.(inParallel := true), s);
    match g
    case Stopped(o) =>
      if o.Threw? then Exec(gas, gk(GroupFailed(o.e)), rq, cx, s1) else (o, s1)
    case Collected(outputs, responses) =>
      if |responses| > 0 then (Interrupt(WithMode(responses, mode)), s1)
      else Exec(gas, gk(Outputs(outputs)), rq, cx, s1)
  }

  /** What the discovery loop of a group ends with: an exception that stops it, or all outputs and responses. */
  datatype Gathered = Stopped(o: Outcome) | Collected(outputs: seq<Value>, responses: seq<StepResponse>)

  function WithMode(responses: seq<StepResponse>, mode: ParallelMode): seq<StepResponse> {
    seq(|responses|, i requires 0 <= i < |responses| => responses[i].(step := responses[i].step.SetParallelMode(mode)))
  }

  /** Adds one callback's outcome in front of what the later callbacks gave. */
  function Prepend(o: Outcome, rest: Gathered): Gathered
    requires !o.Threw? && !o.NestedStep? && !o.Exhausted?
  {
    if rest.Stopped? then rest
    else
      match o
      case Returned(v) => Collected([v] + rest.outputs, rest.responses)
      case Interrupt(rs) => Collected(rest.outputs, rs + rest.responses)
      case Skip(_) => rest
  }

  function ExecAll(gas: nat, callbacks: seq<Prog>, rq: Request, cx: Context, s: St): (Gathered, St)
    decreases gas, |callbacks|
  {
    if callbacks == [] then (Collected([], []), s)
    else
      var (o, s1) := Exec(gas, callbacks[0], rq, cx, s);
      if o.Threw? || o.NestedStep? || o.Exhausted? then (Stopped(o), s1)
      else
        var (rest, s2) := ExecAll(gas, callbacks[1..], rq, cx, s1);
        (Prepend(o, rest), s2)
  }

  /** What an invocation answers. `Crashed` and `Hung` never reach the executor. */
  datatype CallResult =
    | Finished(output: Value)
    | Errored(error: Err)
    | Multi(results: seq<StepResponse>)
    | Crashed
    | Hung

  function ToCallResult(o: Outcome): CallResult {
    match o
    case Returned(v) => Finished(v)
    case Threw(e) => Errored(e)
    case Interrupt(rs) => Multi(rs)
    case Skip(step) => Errored(UnexpectedStep(step))
    case NestedStep => Crashed
    case Exhausted => Hung
  }

  function Initial(memos: MemoMap): St {
    var s := St(memos, map[], false, [], []);
    if |memos| == 0 then FireBefore(s) else s
  }

  const TOP_LEVEL := Context(false, false)

  /** `ExecutionV0Sync.run`, for hooks that do not raise and middleware that leaves the data alone. */
  function RunFunction(gas: nat, p: Prog, rq: Request, memos: MemoMap): (CallResult, St) {
    var (o, s) := Exec(gas, p, rq, TOP_LEVEL, Initial(memos));
    (ToCallResult(o), s)
  }

  // ----- Counting what a log tells -----

  /** The IDs whose handler returned, with multiplicity. */
  function Successes(log: seq<Event>): multiset<HashedId> {
    if log == [] then multiset{}
    else
      var e := log[|log| - 1];
      Successes(log[..|log| - 1]) + (if e.HandlerEnd? && e.ok then multiset{e.id} else multiset{})
  }

  lemma SuccessesSnoc(log: seq<Event>, e: Event)
    ensures Successes(log + [e]) == Successes(log) + (if e.HandlerEnd? && e.ok then multiset{e.id} else multiset{})
  {
    assert (log + [e])[..|log|] == log;
  }
}
