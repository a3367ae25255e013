/** The executor loop of the mock `trigger`: feed memos back until the function returns. */
module Trigger {
  import opened Values
  import opened StepIds
  import opened Memos
  import opened Programs
  import opened Engine
  import opened Plans

  /** `retries` is the function's own setting; by default five attempts are made. */
  datatype Config = Config(setup: Setup, retries: Option<nat>) {
    function MaxAttempt(): nat {
      if retries.Some? then retries.value else 4
    }
  }

  /**
   * What the loop does not control: where invocation `n` makes user code raise, and which planned step
   * `set.pop()` takes.
   */
  datatype World = World(fault: nat -> (string -> Option<string>), pick: (nat, set<HashedId>) -> HashedId)

  ghost predicate ValidPick(w: World) {
    forall n, planned :: planned != {} ==> w.pick(n, planned) in planned
  }

  /**
   * The loop's variables, the number of invocations made so far, how many of them answered an error, and what
   * those invocations did: their logs, and the handler results that were lost because something else was answered.
   */
  datatype TState = TState(
    steps: map<HashedId, Value>,
    stack: seq<HashedId>,
    planned: set<HashedId>,
    attempt: nat,
    n: nat,
    errors: nat,
    log: seq<Event>,
    lost: multiset<HashedId>)
  {
    function Memoize(id: HashedId, v: Value): TState {
      this.(steps := steps[id := v], stack := stack + [id])
    }
  }

  const START := TState(map[], [], {}, 0, 0, 0, [], multiset{})

  datatype Result = Completed(output: Value) | Failure(error: Err) | Unstubbed(step: string) | Aborted

  /** One pass through the loop body. `Hangs` is an invocation that never returns. */
  datatype Turn = Again(st: TState) | Stop(result: Result, st: TState) | Hangs

  function CountError(e: Err, cfg: Config, st: TState): Turn {
    if st.attempt >= cfg.MaxAttempt() then Stop(Failure(e), st) else Again(st.(attempt := st.attempt + 1))
  }

  function ApplyOne(r: StepResponse, cfg: Config, st: TState): Turn {
    if r.error.Some? then CountError(r.error.value, cfg, st)
    else if r.step.displayName in cfg.setup.stubs then
      Again(st.Memoize(r.step.id, StubValue(cfg.setup.stubs[r.step.displayName])))
    else
      match r.step.op {
        case Planned => Again(st.(planned := st.planned + {r.step.id}))
        case Sleep => Again(st.Memoize(r.step.id, Null))
        case StepRun => Again(st.Memoize(r.step.id, r.output))
        case _ => Stop(Unstubbed(r.step.displayName), st)
      }
  }

  function ApplyAll(rs: seq<StepResponse>, cfg: Config, st: TState): Turn {
    if rs == [] then Again(st)
    else
      var turn := ApplyOne(rs[0], cfg, st);
      if turn.Again? then ApplyAll(rs[1..], cfg, turn.st) else turn
  }

  function TargetOf(w: World, st: TState): Option<HashedId> {
    if st.planned == {} then None else Some(w.pick(st.n, st.planned))
  }

  function RequestOf(w: World, st: TState): Request {
    Request(TargetOf(w, st), true, st.attempt, None, w.fault(st.n))
  }

  /** The answer is an error of the function or of a step. */
  predicate AnswersError(res: CallResult) {
    res.Errored? || (res.Multi? && exists i :: 0 <= i < |res.results| && res.results[i].error.Some?)
  }

  /** The answer consists of responses without an error: no handler result is lost. */
  predicate Delivered(res: CallResult) {
    res.Multi? && !AnswersError(res)
  }

  /** The state once the target is taken out of `planned` and the invocation is over. */
  function Invoked(w: World, st: TState, res: CallResult, log: seq<Event>): TState {
    var t := TargetOf(w, st);
    st.(planned := if t.Some? then st.planned - {t.value} else st.planned,
        n := st.n + 1,
        errors := st.errors + (if AnswersError(res) then 1 else 0),
        log := st.log + log,
        lost := st.lost + (if Delivered(res) then multiset{} else Successes(log)))
  }

  function Settle(res: CallResult, cfg: Config, st: TState): Turn {
    match res
    case Finished(v) => Stop(Completed(v), st)
    case Errored(e) => CountError(e, cfg, st)
    case Multi(rs) => ApplyAll(rs, cfg, st)
    case Crashed => Stop(Aborted, st)
    case Hung => Hangs
  }

  function TakeTurn(w: World, cfg: Config, gas: nat, p: Prog, st: TState): Turn {
    var (res, s) := RunFunction(gas, p, RequestOf(w, st), FromRaw(cfg.setup.parse, st.steps));
    Settle(res, cfg, Invoked(w, st, res, s.log))
  }

  /** The loop, for at most `budget` invocations. */
  function RunTrigger(w: World, cfg: Config, gas: nat, p: Prog, st: TState, budget: nat): Option<(Result, TState)>
    decreases budget
  {
    if budget == 0 then None
    else
      match TakeTurn(w, cfg, gas, p, st)
      case Again(st1) => RunTrigger(w, cfg, gas, p, st1, budget - 1)
      case Stop(result, st1) => Some((result, st1))
      case Hangs => None
  }

  /** The loop state after `k` invocations, unless the loop has ended before. */
  function StateAfter(w: World, cfg: Config, gas: nat, p: Prog, k: nat): Option<TState> {
    if k == 0 then Some(START)
    else
      var before := StateAfter(w, cfg, gas, p, k - 1);
      if before.None? then None
      else
        var turn := TakeTurn(w, cfg, gas, p, before.value);
        if turn.Again? then Some(turn.st) else None
  }
}
