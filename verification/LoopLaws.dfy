/** How the executor loop treats single answers: what it asks for, retries, stubs, sleeps and unstubbed steps. */
module LoopLaws {
  import opened Values
  import opened StepIds
  import opened Memos
  import opened Programs
  import opened Engine
  import opened Plans
  import opened Trigger
  import opened TriggerLaws
  import opened StepLaws
  import opened MemoLaws

  // ----- What an invocation is asked for -----

  /**
   * Every request names a planned step exactly if there is one, forbids steps to run at once, and carries the
   * number of the attempt; it does not say how many attempts there are.
   */
  lemma RequestIs(w: World, st: TState)
    requires ValidPick(w)
    ensures var rq := RequestOf(w, st);
            && (rq.target.None? <==> st.planned == {})
            && (rq.target.Some? ==> rq.target.value in st.planned)
            && rq.disableImmediateExecution && rq.attempt == st.attempt && rq.maxAttempts.None?
            && rq.fault == w.fault(st.n)
  {
  }

  /** What is taken out of the plans is the target, and nothing else. */
  lemma InvokedTakesTarget(w: World, st: TState, res: CallResult, log: seq<Event>)
    requires ValidPick(w)
    ensures var st1 := Invoked(w, st, res, log);
            && st1.n == st.n + 1 && st1.steps == st.steps && st1.stack == st.stack && st1.attempt == st.attempt
            && (forall h :: h in st1.planned <==> h in st.planned && RequestOf(w, st).target != Some(h))
  {
    hide AnswersError, Delivered, Successes;
  }

  // ----- Retries -----

  /** How often a function may be called in all: five times by default. */
  function Calls(cfg: Config): nat {
    match cfg.retries
    case None => 5
    case Some(n) => n + 1
  }

  lemma FailsEachTime(w: World, cfg: Config, gas: nat, e: Err, st: TState)
    requires gas > 0
    ensures var turn := TakeTurn(w, cfg, gas, Raise(e), st);
            if st.attempt + 1 >= Calls(cfg) then turn.Stop? && turn.result == Failure(e) && turn.st.n == st.n + 1
            else turn.Again? && turn.st.attempt == st.attempt + 1 && turn.st.n == st.n + 1
  {
    hide Successes;
    TurnSettles(gas, Raise(e), w, cfg, st);
  }

  lemma {:induction false} KeepsFailing(w: World, cfg: Config, gas: nat, e: Err, st: TState, budget: nat)
    requires gas > 0 && st.attempt == st.n < Calls(cfg)
    ensures var r := RunTrigger(w, cfg, gas, Raise(e), st, budget);
            if budget < Calls(cfg) - st.n then r.None?
            else r.Some? && r.value.0 == Failure(e) && r.value.1.n == Calls(cfg)
    decreases budget
  {
    hide TakeTurn;
    if budget > 0 {
      FailsEachTime(w, cfg, gas, e, st);
      var turn := TakeTurn(w, cfg, gas, Raise(e), st);
      if turn.Again? { KeepsFailing(w, cfg, gas, e, turn.st, budget - 1); }
    }
  }

  /** A function that always raises is called five times, or as often as its retries allow, and fails with its error. */
  lemma {:induction false} RaisingIsRetried(w: World, cfg: Config, gas: nat, e: Err, budget: nat)
    requires gas > 0
    ensures var r := RunTrigger(w, cfg, gas, Raise(e), START, budget);
            if budget < Calls(cfg) then r.None?
            else r.Some? && r.value.0 == Failure(e) && r.value.1.n == Calls(cfg)
  {
    KeepsFailing(w, cfg, gas, e, START, budget);
  }

  // ----- A first step that the executor resolves itself, or cannot -----

  /** The code after a step that hands its value on and raises its error. */
  function HandOn(r: StepResult): Prog {
    if r.Ok? then Return(r.v) else Raise(r.e)
  }

  lemma FirstAsk(w: World, cfg: Config, gas: nat, id: string, op: Opcode, handler: Prog, k: StepResult -> Prog)
    requires gas >= 1
    ensures var op' := if op.StepRun? then Planned else op;
            RunFunction(gas, Step(id, op, handler, k), RequestOf(w, START), map[]).0 ==
              Multi([StepResponse(StepInfo(id, id, op', false), Null, None)])
  {
    var s := Initial(map[]);
    assert Hashed(id, s) == id;
    hide Initial;
    var s1 := UnrunAnswers(gas - 1, id, op, handler, k, RequestOf(w, START), TOP_LEVEL, s);
    hide Exec;
  }

  /** The answer to a first step without a memo. */
  function FirstResponse(id: string, op: Opcode): StepResponse {
    StepResponse(StepInfo(id, id, if op.StepRun? then Planned else op, false), Null, None)
  }

  lemma FirstTurn(w: World, cfg: Config, gas: nat, id: string, op: Opcode, handler: Prog,
                  k: StepResult -> Prog) returns (st: TState)
    requires gas >= 1
    ensures TakeTurn(w, cfg, gas, Step(id, op, handler, k), START) == ApplyOne(FirstResponse(id, op), cfg, st)
    ensures st.steps == map[] && st.n == 1
  {
    FirstAsk(w, cfg, gas, id, op, handler, k);
    var r := FirstResponse(id, op);
    assert FromRaw(cfg.setup.parse, START.steps) == map[];
    var s := RunFunction(gas, Step(id, op, handler, k), RequestOf(w, START), map[]).1;
    hide RunFunction, ApplyAll, ApplyOne, FirstResponse, RequestOf, FromRaw, AnswersError, Delivered;
    st := Invoked(w, START, Multi([r]), s.log);
    ApplySingle(r, cfg, st);
  }

  /** An unstubbed step that only the server could resolve stops the loop, with the ID that user code gave it. */
  lemma {:induction false} UnstubbedStops(w: World, cfg: Config, gas: nat, id: string, op: Opcode, handler: Prog,
                                          k: StepResult -> Prog, budget: nat)
    requires gas >= 1 && budget >= 1 && id !in cfg.setup.stubs && !op.StepRun? && !op.Planned? && !op.Sleep?
    ensures var r := RunTrigger(w, cfg, gas, Step(id, op, handler, k), START, budget);
            r.Some? && r.value.0 == Unstubbed(id) && r.value.1.n == 1 && r.value.1.steps == map[]
  {
    hide TakeTurn, RunTrigger;
    var st := FirstTurn(w, cfg, gas, id, op, handler, k);
    RunUnfolds(gas, Step(id, op, handler, k), w, cfg, START, budget);
  }

  /** The memo nests `v`, itself or as text, or it is `v` and nests nothing. */
  ghost predicate Gives(parse: JsonParser, memo: Value, v: Value) {
    || (v == memo && forall o :: !Nests(parse, memo, o))
    || exists u :: Carries(parse, memo, u) && NestsData(u, v)
  }

  lemma SecondRuns(rq: Request, gas: nat, id: string, op: Opcode, handler: Prog, parse: JsonParser, memo: Value,
                   v: Value, s: St)
    requires gas >= 2 && Gives(parse, memo, v) && PreHash(id, Count(s.counts, id)) == id && Holds(parse, map[id := memo], s)
    ensures Exec(gas, Step(id, op, handler, HandOn), rq, TOP_LEVEL, s).0 == Returned(v)
  {
    var raw := map[id := memo];
    hide NestsData, Carries, Nests, Exec, FromRaw, Holds, Count, PreHash, Popped, HandOn;
    assert HandOn(Ok(v)) == Return(v) by { HandsOn(v); }
    var s': St;
    if u :| Carries(parse, memo, u) && NestsData(u, v) {
      s' := StoredDataReachesCode(gas - 1, id, op, handler, HandOn, rq, TOP_LEVEL, s, parse, raw, u, v);
    } else {
      s' := BareMemoReachesCode(gas - 1, id, op, handler, HandOn, rq, TOP_LEVEL, s, parse, raw);
    }
    ReturnsNow(gas - 1, v, rq, s');
  }

  lemma HandsOn(v: Value)
    ensures HandOn(Ok(v)) == Return(v)
  {
  }

  lemma SecondAnswer(rq: Request, gas: nat, id: string, op: Opcode, handler: Prog, parse: JsonParser, memo: Value,
                     v: Value)
    requires gas >= 2 && Gives(parse, memo, v)
    ensures RunFunction(gas, Step(id, op, handler, HandOn), rq, FromRaw(parse, map[id := memo])).0 == Finished(v)
  {
    var s := Initial(FromRaw(parse, map[id := memo]));
    assert Count(s.counts, id) == 0 && PreHash(id, 0) == id && Holds(parse, map[id := memo], s);
    hide Gives, Exec, FromRaw, Holds, Initial;
    SecondRuns(rq, gas, id, op, handler, parse, memo, v, s);
  }

  lemma SecondTurn(w: World, cfg: Config, gas: nat, id: string, op: Opcode, handler: Prog, st: TState, memo: Value,
                   v: Value)
    requires gas >= 2 && st.steps == map[id := memo] && Gives(cfg.setup.parse, memo, v)
    ensures var turn := TakeTurn(w, cfg, gas, Step(id, op, handler, HandOn), st);
            turn.Stop? && turn.result == Completed(v) && turn.st.n == st.n + 1
  {
    SecondAnswer(RequestOf(w, st), gas, id, op, handler, cfg.setup.parse, memo, v);
    hide RunFunction, RequestOf, FromRaw, AnswersError, Delivered, ApplyAll, Gives, HandOn;
  }

  /** A first step that is resolved at once with this memo: the second invocation completes. */
  lemma ResolvedCompletes(w: World, cfg: Config, gas: nat, id: string, op: Opcode, handler: Prog, memo: Value,
                          v: Value, st1: TState,
                          budget: nat)
    requires gas >= 2 && budget >= 2
    requires TakeTurn(w, cfg, gas, Step(id, op, handler, HandOn), START) == Again(st1) && st1.steps == map[id := memo] && st1.n == 1
    requires Gives(cfg.setup.parse, memo, v)
    ensures var r := RunTrigger(w, cfg, gas, Step(id, op, handler, HandOn), START, budget);
            r.Some? && r.value.0 == Completed(v) && r.value.1.n == 2
  {
    hide TakeTurn, RunTrigger, Gives, HandOn;
    SecondTurn(w, cfg, gas, id, op, handler, st1, memo, v);
    RunUnfolds(gas, Step(id, op, handler, HandOn), w, cfg, START, budget);
    RunUnfolds(gas, Step(id, op, handler, HandOn), w, cfg, st1, budget - 1);
  }

  lemma MemoizedFirst(w: World, cfg: Config, gas: nat, id: string, op: Opcode, handler: Prog) returns (st1: TState)
    requires gas >= 1 && (id in cfg.setup.stubs || op.Sleep?)
    ensures TakeTurn(w, cfg, gas, Step(id, op, handler, HandOn), START) == Again(st1) && st1.n == 1
    ensures id in cfg.setup.stubs ==>
              st1.steps == map[id := match cfg.setup.stubs[id] case Timeout => Null case Stub(v) => v]
    ensures id !in cfg.setup.stubs ==> st1.steps == map[id := Null]
  {
    hide TakeTurn;
    var st := FirstTurn(w, cfg, gas, id, op, handler, HandOn);
    st1 := TakeTurn(w, cfg, gas, Step(id, op, handler, HandOn), START).st;
  }

  /** Null nests nothing. */
  lemma NullIsBare(parse: JsonParser)
    ensures Gives(parse, Null, Null)
  {
    forall o ensures !Nests(parse, Null, o) {}
  }

  /** A step that is stubbed with a timeout gives null, whatever kind of step it is; its handler never runs. */
  lemma {:induction false} TimeoutGivesNull(w: World, cfg: Config, gas: nat, id: string, op: Opcode, handler: Prog,
                                            budget: nat)
    requires gas >= 2 && budget >= 2 && id in cfg.setup.stubs && cfg.setup.stubs[id].Timeout?
    ensures var r := RunTrigger(w, cfg, gas, Step(id, op, handler, HandOn), START, budget);
            r.Some? && r.value.0 == Completed(Null) && r.value.1.n == 2
  {
    hide RunTrigger;
    var st1 := MemoizedFirst(w, cfg, gas, id, op, handler);
    NullIsBare(cfg.setup.parse);
    ResolvedCompletes(w, cfg, gas, id, op, handler, Null, Null, st1, budget);
  }

  /**
   * A step with any other stub gives the stub's value; one that nests data, itself or as text, gives the data.
   */
  lemma {:induction false} StubGivesValue(w: World, cfg: Config, gas: nat, id: string, op: Opcode, handler: Prog,
                                          v: Value, budget: nat)
    requires gas >= 2 && budget >= 2 && id in cfg.setup.stubs && cfg.setup.stubs[id].Stub?
    requires Gives(cfg.setup.parse, cfg.setup.stubs[id].v, v)
    ensures var r := RunTrigger(w, cfg, gas, Step(id, op, handler, HandOn), START, budget);
            r.Some? && r.value.0 == Completed(v) && r.value.1.n == 2
  {
    hide RunTrigger;
    var st1 := MemoizedFirst(w, cfg, gas, id, op, handler);
    ResolvedCompletes(w, cfg, gas, id, op, handler, cfg.setup.stubs[id].v, v, st1, budget);
  }

  /** A sleep is over at once and gives null. */
  lemma {:induction false} SleepGivesNull(w: World, cfg: Config, gas: nat, id: string, handler: Prog, budget: nat)
    requires gas >= 2 && budget >= 2 && id !in cfg.setup.stubs
    ensures var r := RunTrigger(w, cfg, gas, Step(id, Sleep, handler, HandOn), START, budget);
            r.Some? && r.value.0 == Completed(Null) && r.value.1.n == 2
  {
    hide RunTrigger;
    var st1 := MemoizedFirst(w, cfg, gas, id, Sleep, handler);
    NullIsBare(cfg.setup.parse);
    ResolvedCompletes(w, cfg, gas, id, Sleep, handler, Null, Null, st1, budget);
  }
}
