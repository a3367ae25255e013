/**
 * Replay and user code that catches the error of a group: where the value of the executor loop depends on the
 * order of the planned steps or on the environment, although the direct run always gives the same.
 */
module CaughtErrors {
  import opened Values
  import opened StepIds
  import opened Memos
  import opened Programs
  import opened Engine
  import opened Plans
  import opened Trigger
  import opened Replay
  import opened TriggerLaws
  import opened Counterexamples

  // ----- A callback that raises after a step, beside another one with a step, before code with a step -----

  const OOPS := Ordinary("oops")

  function Doomed(): Prog { Constant("a", 1, _ => Raise(OOPS)) }

  function ThenC(g: GroupResult): Prog {
    match g
    case Outputs(vs) => Return(List(vs))
    case GroupFailed(_) => Constant("c", 3, Echo)
  }

  /** The first callback always raises after its step; the code around the group catches that and calls `c`. */
  function Rescue(): Prog { Parallel([Doomed(), Constant("b", 2, Echo)], Wait, ThenC) }

  lemma RescueTexts()
    ensures PreHash("a", 0) == "a" && PreHash("b", 0) == "b" && PreHash("c", 0) == "c"
  {
  }

  lemma DoomedOutcome(gas: nat, rq: Request, s: St)
    requires gas >= 3 && rq.disableImmediateExecution && s.counts == map[]
    ensures var (o, s') := Exec(gas, Doomed(), rq, GROUPED, s);
            && o == (if "a" in s.memos then Threw(OOPS) else Waits("a", "a", 1, rq.target))
            && s'.memos == s.memos - {"a"} && Count(s'.counts, "b") == 0 && Count(s'.counts, "c") == 0
  {
    hide Exec, PreHash, PopMemo, ConstantResponse, CountStep, Count, Bump;
    RescueTexts();
    NothingCounted("a");
    NothingCounted("b");
    NothingCounted("c");
    BumpCounts(s.counts, "a", "b");
    BumpCounts(s.counts, "a", "c");
    PopShape("a", "a", s);
    DoomedIsConstant();
    CallConstant(gas, "a", 1, _ => Raise(OOPS), rq, GROUPED, s);
    if "a" in s.memos { Raises(gas - 1, OOPS, rq, GROUPED, PopMemo("a", CountStep("a", s))); }
  }

  lemma DoomedIsConstant()
    ensures Doomed() == Constant("a", 1, _ => Raise(OOPS))
  {
  }

  function RescueEnds(memos: MemoMap, target: Option<HashedId>): Outcome {
    if "a" !in memos then
      Together(Waits("a", "a", 1, target), if "b" in memos then Returned(memos["b"].data) else Waits("b", "b", 2, target))
    else if "c" in memos then Returned(memos["c"].data)
    else Waits("c", "c", 3, target)
  }

  lemma RescueOutcome(gas: nat, rq: Request, memos: MemoMap)
    requires gas >= 4 && rq.disableImmediateExecution && NoErrors(memos)
    ensures Exec(gas, Rescue(), rq, TOP_LEVEL, Initial(memos)).0 == RescueEnds(memos, rq.target)
  {
    hide Exec, PreHash, PopMemo, ConstantResponse, CountStep, Count, Doomed, Together;
    RescueTexts();
    var s, b := Initial(memos), Constant("b", 2, Echo);
    DoomedOutcome(gas - 1, rq, s);
    var (o1, s1) := Exec(gas - 1, Doomed(), rq, GROUPED, s);
    if "a" in memos {
      FailingPair(gas, Doomed(), b, ThenC, OOPS, rq, s);
      CallConstant(gas - 1, "c", 3, Echo, rq, TOP_LEVEL, s1);
      if "c" in memos { Returns(gas - 2, memos["c"].data, rq, TOP_LEVEL, PopMemo("c", CountStep("c", s1))); }
    } else {
      CallConstant(gas - 1, "b", 2, Echo, rq, GROUPED, s1);
      if "b" in memos { Returns(gas - 2, memos["b"].data, rq, GROUPED, PopMemo("b", CountStep("b", s1))); }
      PairOutcome(gas, Doomed(), b, ThenC, rq, s);
      var (o2, s2) := Exec(gas - 1, b, rq, GROUPED, s1);
      GroupTogether(gas, o1, o2, rq, s2);
    }
  }

  lemma GroupTogether(gas: nat, o1: Outcome, o2: Outcome, rq: Request, s: St)
    requires gas >= 2 && (o1.Returned? || o1.Interrupt? || o1.Skip?) && (o2.Returned? || o2.Interrupt? || o2.Skip?)
    ensures var g := Prepend(o1, Prepend(o2, Collected([], [])));
            Together(o1, o2) == if |g.responses| > 0 then Interrupt(WithMode(g.responses, Wait))
                                else Exec(gas - 1, ThenC(Outputs(g.outputs)), rq, TOP_LEVEL, s).0
  {
    var g := Prepend(o1, Prepend(o2, Collected([], [])));
    WaitModeKeeps(g.responses);
    Returns(gas - 1, List(g.outputs), rq, TOP_LEVEL, s);
  }

  /** What the memos and the target can be in the runs below. */
  ghost predicate InRescueRun(steps: map<HashedId, Value>, target: Option<HashedId>) {
    && (forall h :: h in steps ==> steps[h].Num?)
    && var done := steps.Keys;
       || (target.None? && (done == {} || "a" in done))
       || (target == Some("a") && (done == {} || done == {"b"}))
       || (target == Some("b") && (done == {} || done == {"a"}))
       || (target == Some("c") && (done == {"a"} || done == {"a", "b"}))
  }

  function RescueReply(steps: map<HashedId, Value>, t: Option<HashedId>): Outcome {
    if t == Some("a") then Interrupt([ConstantResponse("a", "a", 1, t)])
    else if t == Some("b") then if "a" in steps then Skip("c") else Interrupt([ConstantResponse("b", "b", 2, t)])
    else if "a" !in steps then Interrupt([ConstantResponse("a", "a", 1, t), ConstantResponse("b", "b", 2, t)])
    else if "c" !in steps then Interrupt([ConstantResponse("c", "c", 3, t)])
    else Returned(steps["c"])
  }

  lemma RescueReplies(gas: nat, rq: Request, parse: JsonParser, steps: map<HashedId, Value>)
    requires gas >= 4 && rq.disableImmediateExecution && InRescueRun(steps, rq.target)
    ensures Exec(gas, Rescue(), rq, TOP_LEVEL, Initial(FromRaw(parse, steps))).0 == RescueReply(steps, rq.target)
  {
    hide Exec, Rescue;
    NumbersDecode(parse, steps);
    var memos := FromRaw(parse, steps);
    RescueOutcome(gas, rq, memos);
    hide Together, ConstantResponse;
    if "a" !in memos {
      var b := if "b" in memos then Returned(memos["b"].data) else Waits("b", "b", 2, rq.target);
      TogetherIs(Waits("a", "a", 1, rq.target), b);
    }
  }

  /** The loop takes in the answer; `st` is the state without the target, after the invocation. */
  ghost predicate RescueStep(cfg: Config, st: TState, t: Option<HashedId>, turn: Turn) {
    var done := st.steps.Keys;
    if t == Some("b") && "a" in done then
      if cfg.MaxAttempt() <= st.attempt then turn.Stop? && turn.result == Failure(UnexpectedStep("c"))
      else turn.Again? && turn.st == st.(attempt := st.attempt + 1)
    else if t.None? && "a" in done && "c" in done then turn.Stop? && turn.result == Completed(st.steps["c"])
    else if t.None? then
      turn.Again? && turn.st == st.(planned := st.planned + if "a" in done then {"c"} else {"a", "b"})
    else
      && turn.Again?
      && turn.st == st.Memoize(t.value, Num(if t == Some("a") then 1 else if t == Some("b") then 2 else 3))
  }

  lemma RescueSettles(cfg: Config, st: TState, t: Option<HashedId>)
    requires cfg.setup.stubs == map[] && InRescueRun(st.steps, t)
    ensures RescueStep(cfg, st, t, Settle(ToCallResult(RescueReply(st.steps, t)), cfg, st))
  {
    hide ApplyAll;
    var o := RescueReply(st.steps, t);
    if o.Interrupt? {
      ApplySingle(o.responses[0], cfg, st);
      if |o.responses| == 2 {
        ApplyPair(o.responses, cfg, st);
        assert st.planned + {"a"} + {"b"} == st.planned + {"a", "b"};
      } else {
        assert o.responses == [o.responses[0]];
      }
    }
  }

  lemma RescueTurn(w: World, cfg: Config, gas: nat, st: TState)
    requires cfg.setup.stubs == map[] && gas >= 4 && InRescueRun(st.steps, TargetOf(w, st))
    ensures exists st0 ::
              && RescueStep(cfg, st0, TargetOf(w, st), TakeTurn(w, cfg, gas, Rescue(), st))
              && st0.steps == st.steps && st0.attempt == st.attempt && st0.n == st.n + 1
              && st0.planned == if TargetOf(w, st).Some? then st.planned - {TargetOf(w, st).value} else st.planned
  {
    hide Exec, Rescue, RescueReply, RescueStep, InRescueRun, Initial;
    RescueReplies(gas, RequestOf(w, st), cfg.setup.parse, st.steps);
    Settled(w, cfg, gas, Rescue(), st);
    hide TakeTurn;
    var (o, s) := Exec(gas, Rescue(), RequestOf(w, st), TOP_LEVEL, Initial(FromRaw(cfg.setup.parse, st.steps)));
    var st0 := Invoked(w, st, ToCallResult(o), s.log);
    RescueSettles(cfg, st0, TargetOf(w, st));
    assert RescueStep(cfg, st0, TargetOf(w, st), TakeTurn(w, cfg, gas, Rescue(), st));
  }

  ghost predicate Numeric(st: TState) {
    forall h :: h in st.steps ==> st.steps[h].Num?
  }

  /** Once `a` is memoized and nothing is planned, `c` is planned, runs, and gives the value. */
  lemma RescueFinishes(w: World, cfg: Config, gas: nat, st: TState, budget: nat)
    requires cfg.setup.stubs == map[] && ValidPick(w) && gas >= 4 && budget >= 3
    requires (st.steps.Keys == {"a"} || st.steps.Keys == {"a", "b"}) && st.planned == {} && Numeric(st)
    ensures var r := RunTrigger(w, cfg, gas, Rescue(), st, budget); r.Some? && r.value.0 == Completed(Num(3))
  {
    hide TakeTurn, RunTrigger, Rescue;
    RescueTurn(w, cfg, gas, st);
    RunUnfolds(gas, Rescue(), w, cfg, st, budget);
    var st1 := TakeTurn(w, cfg, gas, Rescue(), st).st;
    assert st1.planned == {"c"};
    RescueTurn(w, cfg, gas, st1);
    RunUnfolds(gas, Rescue(), w, cfg, st1, budget - 1);
    var st2 := TakeTurn(w, cfg, gas, Rescue(), st1).st;
    RescueTurn(w, cfg, gas, st2);
    RunUnfolds(gas, Rescue(), w, cfg, st2, budget - 2);
  }

  lemma RescueStarts(w: World, cfg: Config, gas: nat, budget: nat) returns (st: TState)
    requires cfg.setup.stubs == map[] && ValidPick(w) && gas >= 4 && budget >= 2
    ensures var first := w.pick(1, {"a", "b"});
            && st.steps == map[first := Num(if first == "a" then 1 else 2)]
            && st.planned == {if first == "a" then "b" else "a"} && st.attempt == 0
    ensures RunTrigger(w, cfg, gas, Rescue(), START, budget) == RunTrigger(w, cfg, gas, Rescue(), st, budget - 2)
  {
    hide TakeTurn, RunTrigger, Rescue;
    RescueTurn(w, cfg, gas, START);
    RunUnfolds(gas, Rescue(), w, cfg, START, budget);
    var st1 := TakeTurn(w, cfg, gas, Rescue(), START).st;
    assert st1.planned == {"a", "b"};
    RescueTurn(w, cfg, gas, st1);
    RunUnfolds(gas, Rescue(), w, cfg, st1, budget - 1);
    st := TakeTurn(w, cfg, gas, Rescue(), st1).st;
  }

  /**
   * A callback that raises after a step: when the executor happens to take that step first, the step of the
   * other callback is left over as a target that the function no longer reaches, and the invocation for it
   * answers an error. So without retries the loop completes if and only if `planned.pop()` takes the step of
   * the other callback first, and with retries it always does.
   */
  lemma {:induction false} RaisingDependsOnPick(w: World, cfg: Config, gas: nat, budget: nat)
    requires cfg.setup.stubs == map[] && ValidPick(w) && gas >= 4 && budget >= 6
    ensures DirectEval(gas, Rescue(), cfg.setup.stubs) == Some(Ok(Num(3)))
    ensures var r := RunTrigger(w, cfg, gas, Rescue(), START, budget);
            r.Some? && r.value.0 == if w.pick(1, {"a", "b"}) == "a" && cfg.MaxAttempt() == 0 then Failure(UnexpectedStep("c"))
                                    else Completed(Num(3))
  {
    hide TakeTurn, RunTrigger, Rescue, DirectEval;
    RescueDirect(gas);
    var st := RescueStarts(w, cfg, gas, budget);
    RescueTurn(w, cfg, gas, st);
    RunUnfolds(gas, Rescue(), w, cfg, st, budget - 2);
    var turn := TakeTurn(w, cfg, gas, Rescue(), st);
    if turn.Again? { RescueFinishes(w, cfg, gas, turn.st, budget - 3); }
  }

  lemma RescueDirect(gas: nat)
    requires gas >= 4
    ensures DirectEval(gas, Rescue(), map[]) == Some(Ok(Num(3)))
  {
    var b := Constant("b", 2, Echo);
    DirectConstant(gas - 1, "a", 1, _ => Raise(OOPS));
    assert DirectEval(gas - 2, Raise(OOPS), map[]) == Some(Failed(OOPS));
    DoomedIsConstant();
    DirectGroupCons(gas - 1, Doomed(), [b]);
    assert [Doomed()] + [b] == [Doomed(), b];
    DirectConstant(gas - 1, "c", 3, Echo);
    assert DirectEval(gas - 2, Return(Num(3)), map[]) == Some(Ok(Num(3)));
  }

  // ----- Two callbacks that raise -----

  const EARLY := Ordinary("early")

  function Which(g: GroupResult): Prog {
    match g
    case Outputs(vs) => Return(List(vs))
    case GroupFailed(e) => Return(Num(if e == OOPS then 1 else 2))
  }

  /** The first callback raises after its step, the second one at once. */
  function Rivals(): Prog { Parallel([Doomed(), Raise(EARLY)], Wait, Which) }

  /**
   * With two callbacks that raise, the group can fail with the error of the later one: here in the first
   * invocation, before the step of the first callback has run; the direct run gives the error of the first.
   */
  lemma {:induction false} LaterErrorWins(w: World, cfg: Config, gas: nat, budget: nat)
    requires cfg.setup.stubs == map[] && gas >= 4 && budget >= 1
    ensures DirectEval(gas, Rivals(), cfg.setup.stubs) == Some(Ok(Num(1)))
    ensures var r := RunTrigger(w, cfg, gas, Rivals(), START, budget);
            r.Some? && r.value.0 == Completed(Num(2)) && r.value.1.errors == 0
  {
    hide TakeTurn, RunTrigger, DirectEval;
    RivalsDirect(gas);
    RivalsOutcome(gas, RequestOf(w, START));
    hide Rivals, Exec;
    assert FromRaw(cfg.setup.parse, START.steps) == map[];
    Settled(w, cfg, gas, Rivals(), START);
    RunUnfolds(gas, Rivals(), w, cfg, START, budget);
  }

  lemma RivalsOutcome(gas: nat, rq: Request)
    requires gas >= 4 && rq.disableImmediateExecution && rq.target.None?
    ensures Exec(gas, Rivals(), rq, TOP_LEVEL, Initial(map[])).0 == Returned(Num(2))
  {
    hide Exec, PopMemo, ConstantResponse, CountStep, Doomed;
    var s := Initial(map[]);
    DoomedOutcome(gas - 1, rq, s);
    var s1 := Exec(gas - 1, Doomed(), rq, GROUPED, s).1;
    Raises(gas - 1, EARLY, rq, GROUPED, s1);
    FailingSecond(gas, Doomed(), Raise(EARLY), Which, EARLY, rq, s);
    Returns(gas - 1, Num(2), rq, TOP_LEVEL, s1);
  }

  lemma RivalsDirect(gas: nat)
    requires gas >= 4
    ensures DirectEval(gas, Rivals(), map[]) == Some(Ok(Num(1)))
  {
    DirectConstant(gas - 1, "a", 1, _ => Raise(OOPS));
    assert DirectEval(gas - 2, Raise(OOPS), map[]) == Some(Failed(OOPS));
    DoomedIsConstant();
    DirectGroupCons(gas - 1, Doomed(), [Raise(EARLY)]);
    assert [Doomed()] + [Raise(EARLY)] == [Doomed(), Raise(EARLY)];
    assert DirectEval(gas - 1, Return(Num(1)), map[]) == Some(Ok(Num(1)));
  }

  // ----- A caught error of the environment -----

  function OrNine(g: GroupResult): Prog {
    match g
    case Outputs(vs) => Return(List(vs))
    case GroupFailed(_) => Return(Num(9))
  }

  /** The environment can make the second callback raise; the code around the group gives 9 then. */
  function Sheltered(): Prog { Parallel([Constant("a", 1, Echo), Flaky("net", Return(Num(0)))], Wait, OrNine) }

  /** One fault, in the first invocation, and the loop completes with another value, without an error. */
  lemma {:induction false} CaughtFaultIsKept(w: World, cfg: Config, gas: nat, budget: nat)
    requires cfg.setup.stubs == map[] && gas >= 4 && budget >= 1 && w.fault(0)("net").Some?
    ensures DirectEval(gas, Sheltered(), cfg.setup.stubs) == Some(Ok(List([Num(1), Num(0)])))
    ensures var r := RunTrigger(w, cfg, gas, Sheltered(), START, budget);
            r.Some? && r.value.0 == Completed(Num(9)) && r.value.1.errors == 0
  {
    hide TakeTurn, RunTrigger, DirectEval;
    ShelteredDirect(gas);
    ShelteredOutcome(gas, RequestOf(w, START));
    hide Sheltered, Exec;
    assert FromRaw(cfg.setup.parse, START.steps) == map[];
    Settled(w, cfg, gas, Sheltered(), START);
    RunUnfolds(gas, Sheltered(), w, cfg, START, budget);
  }

  lemma ShelteredOutcome(gas: nat, rq: Request)
    requires gas >= 4 && rq.disableImmediateExecution && rq.target.None? && rq.fault("net").Some?
    ensures Exec(gas, Sheltered(), rq, TOP_LEVEL, Initial(map[])).0 == Returned(Num(9))
  {
    hide Exec, PreHash, PopMemo, ConstantResponse, CountStep;
    var s, a, b := Initial(map[]), Constant("a", 1, Echo), Flaky("net", Return(Num(0)));
    assert PreHash("a", 0) == "a" by { RescueTexts(); }
    CallConstant(gas - 1, "a", 1, Echo, rq, GROUPED, s);
    var s1 := Exec(gas - 1, a, rq, GROUPED, s).1;
    FlakyOutcome(gas - 1, rq, s1);
    FailingSecond(gas, a, b, OrNine, Transient(rq.fault("net").value), rq, s);
    Returns(gas - 1, Num(9), rq, TOP_LEVEL, Exec(gas - 1, b, rq, GROUPED, s1).1);
  }

  lemma ShelteredDirect(gas: nat)
    requires gas >= 4
    ensures DirectEval(gas, Sheltered(), map[]) == Some(Ok(List([Num(1), Num(0)])))
  {
    var a, b := Constant("a", 1, Echo), Flaky("net", Return(Num(0)));
    DirectConstant(gas - 1, "a", 1, Echo);
    assert DirectEval(gas - 2, Return(Num(1)), map[]) == Some(Ok(Num(1)));
    assert DirectEval(gas - 2, Return(Num(0)), map[]) == Some(Ok(Num(0)));
    assert DirectEval(gas - 1, b, map[]) == Some(Ok(Num(0)));
    assert DirectGroup(gas - 1, [], map[]) == Some(Outputs([]));
    DirectGroupCons(gas - 1, b, []);
    DirectGroupCons(gas - 1, a, [b]);
    assert [b] + [] == [b] && [a] + [b] == [a, b] && [Num(0)] + [] == [Num(0)] && [Num(1)] + [Num(0)] == [Num(1), Num(0)];
    assert DirectEval(gas - 1, Return(List([Num(1), Num(0)])), map[]) == Some(Ok(List([Num(1), Num(0)])));
  }
}
