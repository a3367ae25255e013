/** User functions as trees of step and group calls, and what a run without memoization computes. */
module Programs {
  import opened Values
  import opened Memos

  datatype Opcode =
    | StepRun | Planned | Sleep | StepError | StepFailed | Invoke | WaitForEvent | AIGateway

  datatype ParallelMode = Wait | Race

  /**
   * Exceptions that Python code may catch with `except Exception`. `Transient` stands for any ordinary
   * exception that the environment causes in one invocation and not in another.
   */
  datatype Err =
    | Ordinary(msg: string)
    | NonRetriable(msg: string)
    | RetryAfter(msg: string)
    | MemoError(error: MemoizedError)
    | NestedSteps
    | UnexpectedStep(step: string)
    | Transient(msg: string)
  {
    /** Errors that `step.run` hands on to the function instead of reporting them. */
    predicate Bubbles() { NonRetriable? || RetryAfter? }
  }

  /** What a step call gives back to the code around it. */
  datatype StepResult = Ok(v: Value) | Failed(e: Err)

  /** What a group call gives back to the code around it. */
  datatype GroupResult = Outputs(vs: seq<Value>) | GroupFailed(e: Err)

  /**
   * A user function, as a tree of the calls it makes. `k` is the code after a call, as a function of what
   * the call gave back, so user code may branch on results and catch exceptions. `Flaky` is a point
   * where the environment may raise. `Step` with opcode `StepRun` is `step.run`; its handler is itself
   * code, which may (wrongly) contain steps.
   */
  datatype Prog =
    | Return(v: Value)
    | Raise(e: Err)
    | Flaky(site: string, next: Prog)
    | Step(id: string, op: Opcode, handler: Prog, k: StepResult -> Prog)
    | Parallel(callbacks: seq<Prog>, mode: ParallelMode, gk: GroupResult -> Prog)

  /** A static step stub of the mock executor. */
  datatype Stub = Timeout | Stub(v: Value)

  type Stubs = map<string, Stub>

  function StubValue(stub: Stub): Value {
    match stub
    case Timeout => Null
    case Stub(v) => v
  }

  /**
   * The reference meaning of a function: run it once, straight through, with no memo, no interrupt and no
   * replay. A stubbed step gives its stub, a sleep gives null, `step.run` gives what its handler returns.
   * The callbacks of a group run one after the other; the first one that raises fails the group. `None` when
   * the run does not finish within `gas` calls, reaches an unstubbed step that only the server can resolve,
   * or has a handler that raises.
   */
  function DirectEval(gas: nat, p: Prog, stubs: Stubs): Option<StepResult>
    decreases gas, 0
  {
    if gas == 0 then None
    else
      match p
      case Return(v) => Some(Ok(v))
      case Raise(e) => Some(Failed(e))
      case Flaky(_, next) => DirectEval(gas - 1, next, stubs)
      case Step(id, op, handler, k) =>
        var given := DirectStep(gas - 1, id, op, handler, stubs);
        if given.None? then None else DirectEval(gas - 1, k(Ok(given.value)), stubs)
      case Parallel(callbacks, _, gk) =>
        var result := DirectGroup(gas - 1, callbacks, stubs);
        if result.None? then None else DirectEval(gas - 1, gk(result.value), stubs)
  }

  function DirectStep(gas: nat, id: string, op: Opcode, handler: Prog, stubs: Stubs): Option<Value>
    decreases gas, 1
  {
    if id in stubs then Some(StubValue(stubs[id]))
    else if op.Sleep? then Some(Null)
    else if op.StepRun? then
      var result := DirectEval(gas, handler, stubs);
      if result.Some? && result.value.Ok? then Some(result.value.v) else None
    else None
  }

  function DirectGroup(gas: nat, callbacks: seq<Prog>, stubs: Stubs): Option<GroupResult>
    decreases gas, |callbacks|
  {
    if callbacks == [] then Some(Outputs([]))
    else
      match DirectEval(gas, callbacks[0], stubs)
      case None => None
      case Some(Failed(e)) => Some(GroupFailed(e))
      case Some(Ok(v)) =>
        match DirectGroup(gas, callbacks[1..], stubs)
        case Some(Outputs(vs)) => Some(Outputs([v] + vs))
        case other => other
  }
}
