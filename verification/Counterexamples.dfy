/**
 * Where replay parts from the direct run. Each program below finishes directly; the executor loop does
 * something else with it, and each breaks exactly one condition of the replay theorem.
 */
module Counterexamples {
  import opened Values
  import opened StepIds
  import opened Memos
  import opened Programs
  import opened Engine
  import opened Plans
  import opened Trigger
  import opened TriggerLaws
  import opened Replay

  function Echo(r: StepResult): Prog {
    match r
    case Ok(v) => Return(v)
    case Failed(e) => Raise(e)
  }

  function Bundle(g: GroupResult): Prog {
    match g
    case Outputs(vs) => Return(List(vs))
    case GroupFailed(e) => Raise(e)
  }

  /** `step.run` with a handler that only returns `n`. */
  function Constant(id: string, n: int, k: StepResult -> Prog): Prog {
    Step(id, StepRun, Return(Num(n)), k)
  }

  function ConstantResponse(id: string, hashed: HashedId, n: int, target: Option<HashedId>): StepResponse {
    if target.None? then StepResponse(StepInfo(id, hashed, Planned, false), Null, None)
    else StepResponse(StepInfo(id, hashed, StepRun, false), Num(n), None)
  }

  /** One call of such a step, by what is memoized and targeted. */
  lemma CallConstant(gas: nat, id: string, n: int, k: StepResult -> Prog, rq: Request, cx: Context, s: St)
    requires gas >= 2 && !cx.inStep && rq.disableImmediateExecution
    ensures var h := PreHash(id, Count(s.counts, id));
            var (o, s') := Exec(gas, Constant(id, n, k), rq, cx, s);
            var s2 := PopMemo(h, CountStep(id, s));
            if h in s.memos then (o, s') == Exec(gas - 1, k(MemoResult(s.memos[h])), rq, cx, s2)
            else
              && s'.memos == s2.memos && s'.counts == s2.counts && s'.beforeDone == s2.beforeDone
              && (rq.target.None? ==> s'.log == s2.log && o == Interrupt([ConstantResponse(id, h, n, None)]))
              && (rq.target == Some(h) ==>
                    && o == Interrupt([ConstantResponse(id, h, n, rq.target)])
                    && s'.log == s2.log + [HandlerStart(h)] + [HandlerEnd(h, true)])
              && (rq.target.Some? && rq.target != Some(h) ==> s'.log == s2.log && o == Skip(id))
  {
    hide PopMemo, PreHash;
    var info, s2 := InfoOf(id, StepRun, s), PopMemo(InfoOf(id, StepRun, s).id, CountStep(id, s));
    var started := s2.(log := s2.log + [HandlerStart(info.id)]);
    assert Exec(gas - 1, Return(Num(n)), rq, cx.(inStep := true), started) == (Returned(Num(n)), started);
    assert Exec(gas, Constant(id, n, k), rq, cx, s) == ExecStep(gas - 1, id, StepRun, Return(Num(n)), k, rq, cx, s);
    if info.id !in s.memos && rq.target == Some(info.id) {
      var ran := s2.(log := s2.log + [HandlerStart(info.id)] + [HandlerEnd(info.id, true)]);
      var o := Interrupt([StepResponse(info, Num(n), None)]);
      assert RunHandler(gas - 1, Return(Num(n)), info, rq, cx, s2) == (o, ran);
      assert ExecStep(gas - 1, id, StepRun, Return(Num(n)), k, rq, cx, s) == (o, ran);
    }
  }

  lemma NumbersDecode(parse: JsonParser, steps: map<HashedId, Value>)
    requires forall h :: h in steps ==> steps[h].Num?
    ensures FromRaw(parse, steps).Keys == steps.Keys
    ensures forall h :: h in steps ==> MemoResult(FromRaw(parse, steps)[h]) == Ok(steps[h])
  {
  }

  lemma Settled(w: World, cfg: Config, gas: nat, p: Prog, st: TState)
    ensures var memos := FromRaw(cfg.setup.parse, st.steps);
            var (o, s) := Exec(gas, p, RequestOf(w, st), TOP_LEVEL, Initial(memos));
            TakeTurn(w, cfg, gas, p, st) == Settle(ToCallResult(o), cfg, Invoked(w, st, ToCallResult(o), s.log))
  {
  }

  // ----- Clashing IDs: the loop never ends -----

  /** The second use of `foo` is hashed like the first use of `foo:1`. */
  function Clashing(): Prog {
    Constant("foo", 1, _ => Constant("foo", 2, _ => Constant("foo:1", 3, Echo)))
  }

  function NextRaw(done: set<HashedId>): string {
    if done == {"foo", "foo:1"} then "foo:1" else "foo"
  }

  function NextId(done: set<HashedId>): HashedId {
    if done == {} then "foo" else "foo:1"
  }

  function NextValue(done: set<HashedId>): int {
    if done == {} then 1 else if done == {"foo"} then 2 else 3
  }

  lemma ClashingTexts()
    ensures PreHash("foo", 0) == "foo" && PreHash("foo", 1) == "foo:1" && PreHash("foo:1", 0) == "foo:1"
  {
    assert Decimal(1) == "1";
  }

  /** Whatever is memoized, the last step finds no memo: the one with its hash went to the step before it. */
  lemma ClashingOutcome(gas: nat, rq: Request, memos: MemoMap)
    requires gas >= 4 && rq.disableImmediateExecution
    requires memos.Keys == {} || memos.Keys == {"foo"} || memos.Keys == {"foo", "foo:1"}
    requires rq.target.Some? ==> rq.target.value == NextId(memos.Keys)
    ensures Exec(gas, Clashing(), rq, TOP_LEVEL, Initial(memos)).0 ==
            Interrupt([ConstantResponse(NextRaw(memos.Keys), NextId(memos.Keys), NextValue(memos.Keys), rq.target)])
  {
    hide Exec, PreHash;
    ClashingTexts();
    var s := Initial(memos);
    CallConstant(gas, "foo", 1, _ => Constant("foo", 2, _ => Constant("foo:1", 3, Echo)), rq, TOP_LEVEL, s);
    if memos.Keys != {} {
      assert "foo" in memos;
      var s1 := PopMemo("foo", CountStep("foo", s));
      CallConstant(gas - 1, "foo", 2, _ => Constant("foo:1", 3, Echo), rq, TOP_LEVEL, s1);
      if "foo:1" in memos {
        CallConstant(gas - 2, "foo:1", 3, Echo, rq, TOP_LEVEL, PopMemo("foo:1", CountStep("foo", s1)));
      }
    }
  }

  ghost predicate Chasing(st: TState) {
    && (st.steps.Keys == {} || st.steps.Keys == {"foo"} || st.steps.Keys == {"foo", "foo:1"})
    && st.planned <= {NextId(st.steps.Keys)}
    && forall h :: h in st.steps ==> st.steps[h].Num?
  }

  /** The loop takes in the answer: what was planned is memoized, what was not is planned. */
  lemma ChasingSettles(cfg: Config, st: TState, st1: TState, t: Option<HashedId>)
    requires cfg.setup.stubs == map[] && Chasing(st) && st1.steps == st.steps
    requires t == (if st.planned == {} then None else Some(NextId(st.steps.Keys))) && st1.planned == {}
    ensures var done := st.steps.Keys;
            var o := Interrupt([ConstantResponse(NextRaw(done), NextId(done), NextValue(done), t)]);
            var turn := Settle(ToCallResult(o), cfg, st1);
            turn.Again? && Chasing(turn.st)
  {
    hide ApplyAll;
    var done := st.steps.Keys;
    ApplySingle(ConstantResponse(NextRaw(done), NextId(done), NextValue(done), t), cfg, st1);
  }

  lemma ChasingTurn(w: World, cfg: Config, gas: nat, st: TState)
    requires cfg.setup.stubs == map[] && ValidPick(w) && gas >= 4 && Chasing(st)
    ensures var turn := TakeTurn(w, cfg, gas, Clashing(), st); turn.Again? && Chasing(turn.st)
  {
    hide Exec, Clashing, ConstantResponse, NextRaw, NextValue, TakeTurn;
    var memos, rq := FromRaw(cfg.setup.parse, st.steps), RequestOf(w, st);
    NumbersDecode(cfg.setup.parse, st.steps);
    ClashingOutcome(gas, rq, memos);
    Settled(w, cfg, gas, Clashing(), st);
    var (o, s) := Exec(gas, Clashing(), rq, TOP_LEVEL, Initial(memos));
    ChasingSettles(cfg, st, Invoked(w, st, ToCallResult(o), s.log), rq.target);
  }

  lemma {:induction false} ChasingForever(w: World, cfg: Config, gas: nat, st: TState, budget: nat)
    requires cfg.setup.stubs == map[] && ValidPick(w) && gas >= 4 && Chasing(st)
    ensures RunTrigger(w, cfg, gas, Clashing(), st, budget) == None
    decreases budget
  {
    hide TakeTurn, Chasing, Clashing;
    if budget > 0 {
      ChasingTurn(w, cfg, gas, st);
      ChasingForever(w, cfg, gas, TakeTurn(w, cfg, gas, Clashing(), st).st, budget - 1);
    }
  }

  /** With the IDs `foo`, `foo`, `foo:1` the direct run ends and the loop does not, however long it goes on. */
  lemma {:induction false} ClashingNeverEnds(w: World, cfg: Config, gas: nat, budget: nat)
    requires cfg.setup.stubs == map[] && ValidPick(w) && gas >= 4
    ensures DirectEval(gas, Clashing(), cfg.setup.stubs) == Some(Ok(Num(3)))
    ensures RunTrigger(w, cfg, gas, Clashing(), START, budget) == None
  {
    hide Clashing, DirectEval, RunTrigger;
    ClashingDirect(gas);
    ChasingForever(w, cfg, gas, START, budget);
  }

  lemma ClashingDirect(gas: nat)
    requires gas >= 4
    ensures DirectEval(gas, Clashing(), map[]) == Some(Ok(Num(3)))
  {
    DirectConstant(gas, "foo", 1, _ => Constant("foo", 2, _ => Constant("foo:1", 3, Echo)));
    DirectConstant(gas - 1, "foo", 2, _ => Constant("foo:1", 3, Echo));
    DirectConstant(gas - 2, "foo:1", 3, Echo);
    assert DirectEval(gas - 3, Return(Num(3)), map[]) == Some(Ok(Num(3)));
  }

  lemma DirectConstant(gas: nat, id: string, n: int, k: StepResult -> Prog)
    requires gas >= 2
    ensures DirectEval(gas, Constant(id, n, k), map[]) == DirectEval(gas - 1, k(Ok(Num(n))), map[])
  {
    assert DirectEval(gas - 1, Return(Num(n)), map[]) == Some(Ok(Num(n)));
    assert DirectStep(gas - 1, id, StepRun, Return(Num(n)), map[]) == Some(Num(n));
  }

  // ----- One ID in two callbacks: the result depends on which step is picked -----

  function First(): Prog { Constant("x", 0, _ => Constant("a", 1, Echo)) }

  function Second(): Prog { Constant("a", 2, Echo) }

  /** Both callbacks use the ID `a`, the first one only after its step `x`. */
  function Sharing(): Prog { Parallel([First(), Second()], Wait, Bundle) }

  /** How a constant step ends that has no memo. */
  function Waits(id: string, h: HashedId, n: int, target: Option<HashedId>): Outcome {
    if target.None? || target.value == h then Interrupt([ConstantResponse(id, h, n, target)]) else Skip(id)
  }

  ghost predicate NoErrors(memos: MemoMap) {
    forall h :: h in memos ==> memos[h].error.None?
  }

  function FirstEnds(memos: MemoMap, target: Option<HashedId>): Outcome {
    if "x" !in memos then Waits("x", "x", 0, target)
    else if "a" !in memos then Waits("a", "a", 1, target)
    else Returned(memos["a"].data)
  }

  /** The hashed ID of the second callback's step: it depends on how far the first callback got. */
  function SecondId(memos: MemoMap): HashedId {
    if "x" in memos then "a:1" else "a"
  }

  function SecondEnds(memos: MemoMap, target: Option<HashedId>): Outcome {
    var h := SecondId(memos);
    if h in memos then Returned(memos[h].data) else Waits("a", h, 2, target)
  }

  lemma SharingTexts()
    ensures PreHash("x", 0) == "x" && PreHash("a", 0) == "a" && PreHash("a", 1) == "a:1"
  {
    assert Decimal(1) == "1";
  }

  lemma BumpCounts(c: Counts, id: string, other: string)
    ensures Count(Bump(c, id), other) == Count(c, other) + (if other == id then 1 else 0)
  {
  }

  lemma FirstOutcome(gas: nat, rq: Request, cx: Context, s: St)
    requires gas >= 3 && !cx.inStep && rq.disableImmediateExecution && s.counts == map[] && NoErrors(s.memos)
    ensures var (o, s') := Exec(gas, First(), rq, cx, s);
            && o == FirstEnds(s.memos, rq.target)
            && s'.memos == (if "x" in s.memos then s.memos - {"x", "a"} else s.memos - {"x"})
            && Count(s'.counts, "a") == (if "x" in s.memos then 1 else 0)
  {
    hide Exec, PreHash, PopMemo, Bump, CountStep, Constant, Count, ConstantResponse;
    SharingTexts();
    assert Count(s.counts, "x") == 0 && Count(s.counts, "a") == 0 by { NothingCounted("x"); NothingCounted("a"); }
    FirstIsConstant();
    CallConstant(gas, "x", 0, _ => Constant("a", 1, Echo), rq, cx, s);
    PopShape("x", "x", s);
    BumpCounts(s.counts, "x", "a");
    if "x" in s.memos {
      var s1 := PopMemo("x", CountStep("x", s));
      PopShape("a", "a", s1);
      BumpCounts(s1.counts, "a", "a");
      CallConstant(gas - 1, "a", 1, Echo, rq, cx, s1);
      assert s1.memos - {"a"} == s.memos - {"x", "a"};
      if "a" in s.memos {
        Returns(gas - 2, s.memos["a"].data, rq, cx, PopMemo("a", CountStep("a", s1)));
      }
    }
  }

  lemma NothingCounted(id: string)
    ensures Count(map[], id) == 0
  {
  }

  lemma FirstIsConstant()
    ensures First() == Constant("x", 0, _ => Constant("a", 1, Echo))
  {
  }

  lemma Returns(gas: nat, v: Value, rq: Request, cx: Context, s: St)
    requires gas > 0
    ensures Exec(gas, Return(v), rq, cx, s) == (Returned(v), s)
  {
  }

  lemma SecondOutcome(gas: nat, rq: Request, cx: Context, s: St, memos: MemoMap)
    requires gas >= 3 && !cx.inStep && rq.disableImmediateExecution && NoErrors(memos)
    requires s.memos == (if "x" in memos then memos - {"x", "a"} else memos - {"x"})
    requires Count(s.counts, "a") == (if "x" in memos then 1 else 0)
    ensures Exec(gas, Second(), rq, cx, s).0 == SecondEnds(memos, rq.target)
  {
    hide Exec, PreHash, PopMemo, Constant, CountStep, Count, ConstantResponse;
    SharingTexts();
    assert Second() == Constant("a", 2, Echo);
    var h := SecondId(memos);
    assert h in s.memos <==> h in memos;
    CallConstant(gas, "a", 2, Echo, rq, cx, s);
    if h in memos {
      Returns(gas - 1, memos[h].data, rq, cx, PopMemo(h, CountStep("a", s)));
    }
  }

  lemma PairOutcome(gas: nat, p: Prog, q: Prog, gk: GroupResult -> Prog, rq: Request, s: St)
    requires gas > 0
    requires var inner := TOP_LEVEL.(inParallel := true);
             var (o1, s1) := Exec(gas - 1, p, rq, inner, s);
             var o2 := Exec(gas - 1, q, rq, inner, s1).0;
             !o1.Threw? && !o1.NestedStep? && !o1.Exhausted? && !o2.Threw? && !o2.NestedStep? && !o2.Exhausted?
    ensures var inner := TOP_LEVEL.(inParallel := true);
            var (o1, s1) := Exec(gas - 1, p, rq, inner, s);
            var (o2, s2) := Exec(gas - 1, q, rq, inner, s1);
            var g := Prepend(o1, Prepend(o2, Collected([], [])));
            Exec(gas, Parallel([p, q], Wait, gk), rq, TOP_LEVEL, s) ==
              if |g.responses| > 0 then (Interrupt(WithMode(g.responses, Wait)), s2)
              else Exec(gas - 1, gk(Outputs(g.outputs)), rq, TOP_LEVEL, s2)
  {
    var inner := TOP_LEVEL.(inParallel := true);
    var s1 := Exec(gas - 1, p, rq, inner, s).1;
    var s2 := Exec(gas - 1, q, rq, inner, s1).1;
    assert [p, q][1..] == [q] && [q][1..] == [];
    assert Exec(gas, Parallel([p, q], Wait, gk), rq, TOP_LEVEL, s) == ExecGroup(gas - 1, [p, q], Wait, gk, rq, TOP_LEVEL, s);
    assert ExecAll(gas - 1, [], rq, inner, s2) == (Collected([], []), s2);
    assert ExecAll(gas - 1, [q], rq, inner, s1).0 == Prepend(Exec(gas - 1, q, rq, inner, s1).0, Collected([], []));
  }

  function Together(o1: Outcome, o2: Outcome): Outcome
    requires (o1.Returned? || o1.Interrupt? || o1.Skip?) && (o2.Returned? || o2.Interrupt? || o2.Skip?)
  {
    var g := Prepend(o1, Prepend(o2, Collected([], [])));
    if |g.responses| > 0 then Interrupt(g.responses) else Returned(List(g.outputs))
  }

  lemma TogetherIs(o1: Outcome, o2: Outcome)
    requires (o1.Returned? || o1.Interrupt? || o1.Skip?) && (o2.Returned? || o2.Interrupt? || o2.Skip?)
    requires (o1.Interrupt? ==> o1.responses != []) && (o2.Interrupt? ==> o2.responses != [])
    ensures o1.Interrupt? && o2.Interrupt? ==> Together(o1, o2) == Interrupt(o1.responses + o2.responses)
    ensures o1.Interrupt? && !o2.Interrupt? ==> Together(o1, o2) == o1
    ensures !o1.Interrupt? && o2.Interrupt? ==> Together(o1, o2) == o2
    ensures o1.Returned? && o2.Returned? ==> Together(o1, o2) == Returned(List([o1.v, o2.v]))
  {
    var nothing: seq<StepResponse> := [];
    if o1.Interrupt? { assert o1.responses + nothing == o1.responses; }
    if o2.Interrupt? { assert o2.responses + nothing == o2.responses; }
    if o1.Returned? && o2.Returned? { assert [o1.v] + ([o2.v] + []) == [o1.v, o2.v]; }
  }

  lemma WaitModeKeeps(rs: seq<StepResponse>)
    ensures WithMode(rs, Wait) == rs
  {
  }

  lemma SharingOutcome(gas: nat, rq: Request, memos: MemoMap)
    requires gas >= 4 && rq.disableImmediateExecution && NoErrors(memos)
    ensures Exec(gas, Sharing(), rq, TOP_LEVEL, Initial(memos)).0 ==
            Together(FirstEnds(memos, rq.target), SecondEnds(memos, rq.target))
  {
    hide Exec;
    var s, inner := Initial(memos), TOP_LEVEL.(inParallel := true);
    FirstOutcome(gas - 1, rq, inner, s);
    var (o1, s1) := Exec(gas - 1, First(), rq, inner, s);
    SecondOutcome(gas - 1, rq, inner, s1, memos);
    PairOutcome(gas, First(), Second(), Bundle, rq, s);
    var (o2, s2) := Exec(gas - 1, Second(), rq, inner, s1);
    var g := Prepend(o1, Prepend(o2, Collected([], [])));
    WaitModeKeeps(g.responses);
    Returns(gas - 1, List(g.outputs), rq, TOP_LEVEL, s2);
  }

  /** What the group answers to the invocations of the two runs below. */
  function SharingAnswer(steps: map<HashedId, Value>, target: Option<HashedId>): Outcome {
    if target == Some("x") then Interrupt([ConstantResponse("x", "x", 0, target)])
    else if target == Some("a") then Interrupt([ConstantResponse("a", "a", if "x" in steps then 1 else 2, target)])
    else if target == Some("a:1") then Interrupt([ConstantResponse("a", "a:1", 2, target)])
    else if "x" !in steps then Interrupt([ConstantResponse("x", "x", 0, target), ConstantResponse("a", "a", 2, target)])
    else if "a:1" !in steps then Interrupt([ConstantResponse("a", "a:1", 2, target)])
    else Returned(List([if "a" in steps then steps["a"] else Null, steps["a:1"]]))
  }

  ghost predicate InSharingRun(steps: map<HashedId, Value>, target: Option<HashedId>) {
    && (forall h :: h in steps ==> steps[h].Num?)
    && var done := steps.Keys;
       || (target.None? && (done == {} || done == {"x", "a"} || done == {"x", "a", "a:1"}))
       || (target == Some("x") && (done == {} || done == {"a"}))
       || (target == Some("a") && (done == {} || done == {"x"}))
       || (target == Some("a:1") && done == {"x", "a"})
  }

  lemma SharingAnswers(gas: nat, rq: Request, parse: JsonParser, steps: map<HashedId, Value>)
    requires gas >= 4 && rq.disableImmediateExecution && InSharingRun(steps, rq.target)
    ensures Exec(gas, Sharing(), rq, TOP_LEVEL, Initial(FromRaw(parse, steps))).0 == SharingAnswer(steps, rq.target)
  {
    hide Exec, Sharing;
    NumbersDecode(parse, steps);
    var memos := FromRaw(parse, steps);
    SharingOutcome(gas, rq, memos);
    hide Together, ConstantResponse;
    var o1, o2 := FirstEnds(memos, rq.target), SecondEnds(memos, rq.target);
    TogetherIs(o1, o2);
  }

  /** The loop takes in the answer. */
  ghost predicate SharingStep(steps: map<HashedId, Value>, planned: set<HashedId>, n: nat, t: Option<HashedId>,
                              turn: Turn) {
    var done := steps.Keys;
    if t.None? && done == {"x", "a", "a:1"} then
      turn.Stop? && turn.result == Completed(List([steps["a"], steps["a:1"]]))
    else
      && turn.Again? && turn.st.n == n
      && turn.st.steps == (if t.None? then steps
                           else steps[t.value := Num(if t.value == "x" then 0 else if t.value == "a" && done == {"x"} then 1 else 2)])
      && turn.st.planned == planned + (if t.Some? then {} else if done == {} then {"x", "a"} else {"a:1"})
  }

  lemma SharingSettles(cfg: Config, st: TState, t: Option<HashedId>)
    requires cfg.setup.stubs == map[] && InSharingRun(st.steps, t)
    ensures SharingStep(st.steps, st.planned, st.n, t, Settle(ToCallResult(SharingAnswer(st.steps, t)), cfg, st))
  {
    hide ApplyAll;
    var o := SharingAnswer(st.steps, t);
    if o.Interrupt? {
      ApplySingle(o.responses[0], cfg, st);
      var turn := ApplyOne(o.responses[0], cfg, st);
      if |o.responses| == 2 {
        ApplyPair(o.responses, cfg, st);
        assert turn.st.planned + {"a"} == st.planned + {"x", "a"};
      } else {
        assert o.responses == [o.responses[0]];
      }
    }
  }

  lemma ApplyPair(rs: seq<StepResponse>, cfg: Config, st: TState)
    requires |rs| == 2 && ApplyOne(rs[0], cfg, st).Again?
    ensures ApplyAll(rs, cfg, st) == ApplyOne(rs[1], cfg, ApplyOne(rs[0], cfg, st).st)
  {
    assert rs[1..] == [rs[1]];
    ApplySingle(rs[1], cfg, ApplyOne(rs[0], cfg, st).st);
  }

  /** One pass of the loop on this program. */
  lemma SharingTurn(w: World, cfg: Config, gas: nat, st: TState)
    requires cfg.setup.stubs == map[] && gas >= 4 && InSharingRun(st.steps, TargetOf(w, st))
    ensures var t := TargetOf(w, st);
            SharingStep(st.steps, if t.Some? then st.planned - {t.value} else st.planned, st.n + 1, t,
                        TakeTurn(w, cfg, gas, Sharing(), st))
  {
    hide Exec, Sharing, SharingAnswer, SharingStep, InSharingRun, Initial;
    var rq := RequestOf(w, st);
    SharingAnswers(gas, rq, cfg.setup.parse, st.steps);
    Settled(w, cfg, gas, Sharing(), st);
    hide TakeTurn;
    var (o, s) := Exec(gas, Sharing(), rq, TOP_LEVEL, Initial(FromRaw(cfg.setup.parse, st.steps)));
    SharingSettles(cfg, Invoked(w, st, ToCallResult(o), s.log), TargetOf(w, st));
  }

  /** The run from the point where `x` and `a` are memoized. */
  lemma SharingFinishes(w: World, cfg: Config, gas: nat, st: TState, budget: nat)
    requires cfg.setup.stubs == map[] && ValidPick(w) && gas >= 4 && budget >= 3
    requires st.steps.Keys == {"x", "a"} && st.planned == {} && forall h :: h in st.steps ==> st.steps[h].Num?
    ensures var r := RunTrigger(w, cfg, gas, Sharing(), st, budget);
            r.Some? && r.value.0 == Completed(List([st.steps["a"], Num(2)]))
  {
    hide TakeTurn, RunTrigger, Sharing;
    SharingTurn(w, cfg, gas, st);
    RunUnfolds(gas, Sharing(), w, cfg, st, budget);
    var st1 := TakeTurn(w, cfg, gas, Sharing(), st).st;
    SharingTurn(w, cfg, gas, st1);
    RunUnfolds(gas, Sharing(), w, cfg, st1, budget - 1);
    var st2 := TakeTurn(w, cfg, gas, Sharing(), st1).st;
    assert st2.steps.Keys == {"x", "a", "a:1"};
    SharingTurn(w, cfg, gas, st2);
    RunUnfolds(gas, Sharing(), w, cfg, st2, budget - 2);
  }

  lemma SharingStarts(w: World, cfg: Config, gas: nat, budget: nat) returns (st: TState)
    requires cfg.setup.stubs == map[] && gas >= 4 && budget >= 1
    ensures st.steps == map[] && st.planned == {"x", "a"} && st.n == 1
    ensures RunTrigger(w, cfg, gas, Sharing(), START, budget) == RunTrigger(w, cfg, gas, Sharing(), st, budget - 1)
  {
    hide TakeTurn, RunTrigger, Sharing;
    SharingTurn(w, cfg, gas, START);
    RunUnfolds(gas, Sharing(), w, cfg, START, budget);
    st := TakeTurn(w, cfg, gas, Sharing(), START).st;
    assert st.planned == {"x", "a"};
  }

  /** Both planned steps run, in either order; `a` belongs to whichever callback gets there. */
  lemma SharingPicks(w: World, cfg: Config, gas: nat, st: TState, budget: nat) returns (st2: TState)
    requires cfg.setup.stubs == map[] && ValidPick(w) && gas >= 4 && budget >= 3
    requires st.steps == map[] && st.planned == {"x", "a"}
    ensures st2.steps.Keys == {"x", "a"} && st2.planned == {} && forall h :: h in st2.steps ==> st2.steps[h].Num?
    ensures st2.steps["a"] == Num(if w.pick(st.n, {"x", "a"}) == "x" then 1 else 2)
    ensures RunTrigger(w, cfg, gas, Sharing(), st, budget) == RunTrigger(w, cfg, gas, Sharing(), st2, budget - 2)
  {
    hide TakeTurn, RunTrigger, Sharing;
    SharingTurn(w, cfg, gas, st);
    RunUnfolds(gas, Sharing(), w, cfg, st, budget);
    var st1 := TakeTurn(w, cfg, gas, Sharing(), st).st;
    var left := if w.pick(st.n, {"x", "a"}) == "x" then "a" else "x";
    assert st1.planned == {left};
    SharingTurn(w, cfg, gas, st1);
    RunUnfolds(gas, Sharing(), w, cfg, st1, budget - 1);
    st2 := TakeTurn(w, cfg, gas, Sharing(), st1).st;
  }

  /**
   * When two callbacks of a group share the ID `a`, the loop completes, with a value that depends on which
   * step `planned.pop()` takes first; only one of the two orders gives the value of the direct run.
   */
  lemma {:induction false} SharedIdDependsOnPick(w: World, cfg: Config, gas: nat, budget: nat)
    requires cfg.setup.stubs == map[] && ValidPick(w) && gas >= 4 && budget >= 6
    ensures DirectEval(gas, Sharing(), cfg.setup.stubs) == Some(Ok(List([Num(1), Num(2)])))
    ensures var r := RunTrigger(w, cfg, gas, Sharing(), START, budget);
            r.Some? && r.value.0 == Completed(List([Num(if w.pick(1, {"x", "a"}) == "x" then 1 else 2), Num(2)]))
  {
    hide TakeTurn, RunTrigger, Sharing, DirectEval, ValidPick;
    SharingDirect(gas);
    var st1 := SharingStarts(w, cfg, gas, budget);
    var st3 := SharingPicks(w, cfg, gas, st1, budget - 1);
    SharingFinishes(w, cfg, gas, st3, budget - 3);
  }

  lemma DirectGroupCons(gas: nat, p: Prog, ps: seq<Prog>)
    ensures var first, rest := DirectEval(gas, p, map[]), DirectGroup(gas, ps, map[]);
            && (first.Some? && first.value.Ok? && rest.Some? && rest.value.Outputs? ==>
                  DirectGroup(gas, [p] + ps, map[]) == Some(Outputs([first.value.v] + rest.value.vs)))
            && (first.Some? && first.value.Failed? ==> DirectGroup(gas, [p] + ps, map[]) == Some(GroupFailed(first.value.e)))
  {
    assert ([p] + ps)[1..] == ps;
  }

  lemma SharingDirect(gas: nat)
    requires gas >= 4
    ensures DirectEval(gas, Sharing(), map[]) == Some(Ok(List([Num(1), Num(2)])))
  {
    DirectConstant(gas - 1, "x", 0, _ => Constant("a", 1, Echo));
    DirectConstant(gas - 2, "a", 1, Echo);
    DirectConstant(gas - 1, "a", 2, Echo);
    var cs := [First(), Second()];
    assert cs[1..] == [Second()] && [Second()][1..] == [];
    assert DirectGroup(gas - 1, [], map[]) == Some(Outputs([]));
    assert DirectEval(gas - 3, Return(Num(1)), map[]) == Some(Ok(Num(1)));
    assert DirectEval(gas - 2, Return(Num(2)), map[]) == Some(Ok(Num(2)));
    assert DirectEval(gas - 1, First(), map[]) == Some(Ok(Num(1)));
    assert DirectEval(gas - 1, Second(), map[]) == Some(Ok(Num(2)));
    DirectGroupCons(gas - 1, Second(), []);
    DirectGroupCons(gas - 1, First(), [Second()]);
    assert [Second()] + [] == [Second()] && [First()] + [Second()] == cs;
    assert [Num(2)] + [] == [Num(2)] && [Num(1)] + [Num(2)] == [Num(1), Num(2)];
    assert DirectGroup(gas - 1, cs, map[]) == Some(Outputs([Num(1), Num(2)]));
  }

  // ----- Nested groups: a skipped inner group hands on too few outputs -----

  const UNPACK_ERROR := Ordinary("not enough values to unpack")

  /** `(a,) = group.parallel(...)`. */
  function Unpack(g: GroupResult): Prog {
    match g
    case Outputs(vs) => if |vs| == 1 then Return(vs[0]) else Raise(UNPACK_ERROR)
    case GroupFailed(e) => Raise(e)
  }

  function Inner(): Prog { Parallel([Constant("x", 0, Echo)], Wait, Unpack) }

  function Nested(): Prog { Parallel([Inner(), Constant("y", 1, Echo)], Wait, Bundle) }

  const GROUPED := Context(true, false)

  lemma SoloOutcome(gas: nat, p: Prog, gk: GroupResult -> Prog, rq: Request, cx: Context, s: St)
    requires gas > 0
    requires var o := Exec(gas - 1, p, rq, cx.(inParallel := true), s).0; o.Interrupt? || o.Skip?
    ensures var (o, s1) := Exec(gas - 1, p, rq, cx.(inParallel := true), s);
            Exec(gas, Parallel([p], Wait, gk), rq, cx, s) ==
              if o.Interrupt? && o.responses != [] then (o, s1) else Exec(gas - 1, gk(Outputs([])), rq, cx, s1)
  {
    var (o, s1) := Exec(gas - 1, p, rq, cx.(inParallel := true), s);
    assert [p][1..] == [];
    assert ExecAll(gas - 1, [], rq, cx.(inParallel := true), s1) == (Collected([], []), s1);
    assert Exec(gas, Parallel([p], Wait, gk), rq, cx, s) == ExecGroup(gas - 1, [p], Wait, gk, rq, cx, s);
    if o.Interrupt? {
      assert o.responses + [] == o.responses;
      WaitModeKeeps(o.responses);
    }
  }

  lemma InnerOutcome(gas: nat, rq: Request, s: St)
    requires gas >= 3 && rq.disableImmediateExecution && s.memos == map[] && s.counts == map[]
    requires rq.target != Some("x")
    ensures var (o, s') := Exec(gas, Inner(), rq, GROUPED, s);
            && o == (if rq.target.None? then Interrupt([ConstantResponse("x", "x", 0, None)]) else Threw(UNPACK_ERROR))
            && s'.memos == map[] && Count(s'.counts, "y") == 0
  {
    hide Exec, PreHash, PopMemo, ConstantResponse, CountStep;
    assert PreHash("x", 0) == "x" by { SharingTexts(); }
    assert s.memos - {"x"} == map[];
    CallConstant(gas - 1, "x", 0, Echo, rq, GROUPED, s);
    PopShape("x", "x", s);
    SoloOutcome(gas, Constant("x", 0, Echo), Unpack, rq, GROUPED, s);
    var s1 := Exec(gas - 1, Constant("x", 0, Echo), rq, GROUPED, s).1;
    Raises(gas - 1, UNPACK_ERROR, rq, GROUPED, s1);
  }

  lemma Raises(gas: nat, e: Err, rq: Request, cx: Context, s: St)
    requires gas > 0
    ensures Exec(gas, Raise(e), rq, cx, s) == (Threw(e), s)
  {
  }

  lemma StopsGroup(gas: nat, callbacks: seq<Prog>, gk: GroupResult -> Prog, e: Err, rq: Request, s: St, s1: St)
    requires gas >= 2 && ExecAll(gas - 1, callbacks, rq, GROUPED, s) == (Stopped(Threw(e)), s1)
    ensures Exec(gas, Parallel(callbacks, Wait, gk), rq, TOP_LEVEL, s) == Exec(gas - 1, gk(GroupFailed(e)), rq, TOP_LEVEL, s1)
  {
    assert Exec(gas, Parallel(callbacks, Wait, gk), rq, TOP_LEVEL, s) == ExecGroup(gas - 1, callbacks, Wait, gk, rq, TOP_LEVEL, s);
  }

  lemma FailingPair(gas: nat, p: Prog, q: Prog, gk: GroupResult -> Prog, e: Err, rq: Request, s: St)
    requires gas >= 2 && Exec(gas - 1, p, rq, GROUPED, s).0 == Threw(e)
    ensures Exec(gas, Parallel([p, q], Wait, gk), rq, TOP_LEVEL, s) ==
            Exec(gas - 1, gk(GroupFailed(e)), rq, TOP_LEVEL, Exec(gas - 1, p, rq, GROUPED, s).1)
  {
    var s1 := Exec(gas - 1, p, rq, GROUPED, s).1;
    hide Exec;
    assert ExecAll(gas - 1, [p, q], rq, GROUPED, s) == (Stopped(Threw(e)), s1);
    StopsGroup(gas, [p, q], gk, e, rq, s, s1);
  }

  lemma NestedOutcome(gas: nat, rq: Request)
    requires gas >= 4 && rq.disableImmediateExecution && (rq.target.None? || rq.target == Some("y"))
    ensures Exec(gas, Nested(), rq, TOP_LEVEL, Initial(map[])).0 ==
            if rq.target.None? then Interrupt([ConstantResponse("x", "x", 0, None), ConstantResponse("y", "y", 1, None)])
            else Threw(UNPACK_ERROR)
  {
    hide Exec, PreHash, PopMemo, ConstantResponse, CountStep;
    var s, y := Initial(map[]), Constant("y", 1, Echo);
    InnerOutcome(gas - 1, rq, s);
    var (o1, s1) := Exec(gas - 1, Inner(), rq, GROUPED, s);
    if rq.target.None? {
      assert PreHash("y", 0) == "y" by { YText(); }
      CallConstant(gas - 1, "y", 1, Echo, rq, GROUPED, s1);
      PairOutcome(gas, Inner(), y, Bundle, rq, s);
      var o2 := Exec(gas - 1, y, rq, GROUPED, s1).0;
      TogetherIs(o1, o2);
      WaitModeKeeps(Prepend(o1, Prepend(o2, Collected([], []))).responses);
    } else {
      FailingPair(gas, Inner(), y, Bundle, UNPACK_ERROR, rq, s);
      Raises(gas - 1, UNPACK_ERROR, rq, TOP_LEVEL, s1);
    }
  }

  lemma YText()
    ensures PreHash("y", 0) == "y"
  {
  }

  /**
   * A group nested in a callback breaks replay: when the outer step is picked first, the inner group returns
   * an empty tuple instead of being interrupted, and the code after it fails.
   */
  lemma {:induction false} NestedGroupFails(w: World, cfg: Config, gas: nat, budget: nat)
    requires cfg.setup.stubs == map[] && cfg.retries == Some(0) && ValidPick(w) && gas >= 4 && budget >= 2
    requires w.pick(1, {"x", "y"}) == "y"
    ensures DirectEval(gas, Nested(), cfg.setup.stubs) == Some(Ok(List([Num(0), Num(1)])))
    ensures var r := RunTrigger(w, cfg, gas, Nested(), START, budget); r.Some? && r.value.0 == Failure(UNPACK_ERROR)
  {
    hide Exec, Nested, DirectEval, RunTrigger, ValidPick;
    NestedDirect(gas);
    assert FromRaw(cfg.setup.parse, START.steps) == map[];
    NestedOutcome(gas, RequestOf(w, START));
    Settled(w, cfg, gas, Nested(), START);
    var (o, s) := Exec(gas, Nested(), RequestOf(w, START), TOP_LEVEL, Initial(map[]));
    ApplyPair(o.responses, cfg, Invoked(w, START, ToCallResult(o), s.log));
    var st1 := TakeTurn(w, cfg, gas, Nested(), START).st;
    assert st1.planned == {"x", "y"} && st1.n == 1 && st1.steps == map[] && st1.attempt == 0;
    RunUnfolds(gas, Nested(), w, cfg, START, budget);
    NestedOutcome(gas, RequestOf(w, st1));
    Settled(w, cfg, gas, Nested(), st1);
    RunUnfolds(gas, Nested(), w, cfg, st1, budget - 1);
  }

  lemma NestedDirect(gas: nat)
    requires gas >= 4
    ensures DirectEval(gas, Nested(), map[]) == Some(Ok(List([Num(0), Num(1)])))
  {
    var x, y := Constant("x", 0, Echo), Constant("y", 1, Echo);
    DirectConstant(gas - 2, "x", 0, Echo);
    assert DirectEval(gas - 3, Return(Num(0)), map[]) == Some(Ok(Num(0)));
    assert DirectGroup(gas - 2, [], map[]) == Some(Outputs([])) && DirectGroup(gas - 1, [], map[]) == Some(Outputs([]));
    DirectGroupCons(gas - 2, x, []);
    assert [x] + [] == [x] && [Num(0)] + [] == [Num(0)];
    assert DirectEval(gas - 1, Inner(), map[]) == Some(Ok(Num(0))) by {
      assert DirectEval(gas - 2, Return(Num(0)), map[]) == Some(Ok(Num(0)));
    }
    DirectConstant(gas - 1, "y", 1, Echo);
    assert DirectEval(gas - 2, Return(Num(1)), map[]) == Some(Ok(Num(1)));
    DirectGroupCons(gas - 1, y, []);
    assert [y] + [] == [y] && [Num(1)] + [] == [Num(1)];
    DirectGroupCons(gas - 1, Inner(), [y]);
    assert [Inner()] + [y] == [Inner(), y] && [Num(0)] + [Num(1)] == [Num(0), Num(1)];
  }

  // ----- A handler that contains a step -----

  /** `step.run` with a handler that calls `step.run`. */
  function Nesting(): Prog { Step("outer", StepRun, Constant("in", 1, Echo), Echo) }

  lemma NestingOutcome(gas: nat, rq: Request)
    requires gas >= 4 && rq.disableImmediateExecution && (rq.target.None? || rq.target == Some("outer"))
    ensures Exec(gas, Nesting(), rq, TOP_LEVEL, Initial(map[])).0 ==
            if rq.target.None? then Interrupt([ConstantResponse("outer", "outer", 0, None)]) else Skip("in")
  {
    hide Exec, PreHash, PopMemo;
    var s, h := Initial(map[]), Constant("in", 1, Echo);
    assert PreHash("outer", 0) == "outer" && PreHash("in", 0) == "in" by { NestingTexts(); }
    var info := InfoOf("outer", StepRun, s);
    var s2 := PopMemo(info.id, CountStep("outer", s));
    PopShape(info.id, "outer", s);
    NestingIsStep(gas, rq, s);
    if rq.target.Some? {
      var started := s2.(log := s2.log + [HandlerStart(info.id)]);
      BumpCounts(map[], "outer", "in");
      InnerSkips(gas - 1, rq, started);
      assert RunHandler(gas - 1, h, info, rq, TOP_LEVEL, s2).0 == Skip("in");
    }
  }

  lemma NestingTexts()
    ensures PreHash("outer", 0) == "outer" && PreHash("in", 0) == "in"
  {
  }

  lemma NestingIsStep(gas: nat, rq: Request, s: St)
    requires gas > 0
    ensures Exec(gas, Nesting(), rq, TOP_LEVEL, s) ==
            ExecStep(gas - 1, "outer", StepRun, Constant("in", 1, Echo), Echo, rq, TOP_LEVEL, s)
  {
    hide ExecStep;
  }

  /** The inner step is not the target, and that is checked before the nesting is. */
  lemma InnerSkips(gas: nat, rq: Request, s: St)
    requires gas > 0 && s.memos == map[] && Count(s.counts, "in") == 0 && rq.target == Some("outer")
    ensures Exec(gas, Constant("in", 1, Echo), rq, Context(false, true), s).0 == Skip("in")
  {
    hide PopMemo, PreHash;
    NestingTexts();
  }

  lemma NestingTurn(w: World, cfg: Config, gas: nat, st: TState)
    requires cfg.setup.stubs == map[] && ValidPick(w) && gas >= 4 && st.steps == map[] && st.planned <= {"outer"}
    ensures var turn := TakeTurn(w, cfg, gas, Nesting(), st);
            if st.planned == {} then
              turn.Again? && turn.st.steps == map[] && turn.st.planned == {"outer"} && turn.st.attempt == st.attempt
            else if st.attempt >= cfg.MaxAttempt() then turn.Stop? && turn.result == Failure(UnexpectedStep("in"))
            else turn.Again? && turn.st.steps == map[] && turn.st.planned == {} && turn.st.attempt == st.attempt + 1
  {
    hide Exec, Nesting, Successes, TakeTurn, ApplyAll;
    assert FromRaw(cfg.setup.parse, st.steps) == map[];
    var rq := RequestOf(w, st);
    if st.planned != {} { assert st.planned == {"outer"} && w.pick(st.n, st.planned) in st.planned; }
    NestingOutcome(gas, rq);
    Settled(w, cfg, gas, Nesting(), st);
    var (o, s) := Exec(gas, Nesting(), rq, TOP_LEVEL, Initial(map[]));
    if o.Interrupt? { ApplySingle(o.responses[0], cfg, Invoked(w, st, ToCallResult(o), s.log)); }
  }

  lemma {:induction false} NestingGoesOn(w: World, cfg: Config, gas: nat, st: TState, budget: nat)
    requires cfg.setup.stubs == map[] && ValidPick(w) && gas >= 4 && st.steps == map[] && st.planned <= {"outer"}
    requires st.attempt <= cfg.MaxAttempt()
    requires budget >= 2 * (cfg.MaxAttempt() - st.attempt) + (if st.planned == {} then 2 else 1)
    ensures var r := RunTrigger(w, cfg, gas, Nesting(), st, budget);
            r.Some? && r.value.0 == Failure(UnexpectedStep("in"))
    decreases budget
  {
    hide TakeTurn, RunTrigger, Nesting, ValidPick;
    NestingTurn(w, cfg, gas, st);
    RunUnfolds(gas, Nesting(), w, cfg, st, budget);
    var turn := TakeTurn(w, cfg, gas, Nesting(), st);
    if turn.Again? { NestingGoesOn(w, cfg, gas, turn.st, budget - 1); }
  }

  /** A handler that contains a step fails in every attempt, whatever the environment does. */
  lemma {:induction false} StepInHandlerFails(w: World, cfg: Config, gas: nat, budget: nat)
    requires cfg.setup.stubs == map[] && ValidPick(w) && gas >= 4 && budget >= 2 * cfg.MaxAttempt() + 2
    ensures DirectEval(gas, Nesting(), cfg.setup.stubs) == Some(Ok(Num(1)))
    ensures var r := RunTrigger(w, cfg, gas, Nesting(), START, budget);
            r.Some? && r.value.0 == Failure(UnexpectedStep("in"))
  {
    NestingDirect(gas);
    hide RunTrigger, DirectEval, Nesting;
    NestingGoesOn(w, cfg, gas, START, budget);
  }

  lemma NestingDirect(gas: nat)
    requires gas >= 4
    ensures DirectEval(gas, Nesting(), map[]) == Some(Ok(Num(1)))
  {
    DirectConstant(gas - 1, "in", 1, Echo);
    assert DirectEval(gas - 2, Return(Num(1)), map[]) == Some(Ok(Num(1)));
    assert DirectStep(gas - 1, "outer", StepRun, Constant("in", 1, Echo), map[]) == Some(Num(1));
    assert DirectEval(gas - 1, Return(Num(1)), map[]) == Some(Ok(Num(1)));
  }

  // ----- Groups: the hooks may fire after a handler -----

  function TwoLanes(): Prog { Parallel([Constant("a", 1, Echo), Constant("b", 2, Echo)], Wait, Bundle) }

  /** With the step of a later callback memoized, the target's handler runs before `before_execution` fires. */
  lemma {:induction false} HooksFireLate(gas: nat, rq: Request, memos: MemoMap)
    requires gas >= 4 && rq.disableImmediateExecution && rq.target == Some("a")
    requires memos.Keys == {"b"} && NoErrors(memos)
    ensures RunFunction(gas, TwoLanes(), rq, memos).1.log == [HandlerStart("a"), HandlerEnd("a", true), BeforeExecution]
  {
    hide Exec, PreHash, ConstantResponse, CountStep, PopMemo;
    var s, a, b := Initial(memos), Constant("a", 1, Echo), Constant("b", 2, Echo);
    assert PreHash("a", 0) == "a" && PreHash("b", 0) == "b" by { SharingTexts(); BText(); }
    assert "b" in memos && |memos| > 0;
    assert memos - {"a"} == memos && memos - {"b"} == map[];
    CallConstant(gas - 1, "a", 1, Echo, rq, GROUPED, s);
    PopShape("a", "a", s);
    PopLog("a", "a", s);
    var s1 := Exec(gas - 1, a, rq, GROUPED, s).1;
    CallConstant(gas - 1, "b", 2, Echo, rq, GROUPED, s1);
    PopShape("b", "b", s1);
    PopLog("b", "b", s1);
    Returns(gas - 2, memos["b"].data, rq, GROUPED, PopMemo("b", CountStep("b", s1)));
    PairOutcome(gas, a, b, Bundle, rq, s);
    assert [] + [HandlerStart("a")] + [HandlerEnd("a", true)] + [BeforeExecution] ==
           [HandlerStart("a"), HandlerEnd("a", true), BeforeExecution];
  }

  lemma PopLog(h: HashedId, id: string, s: St)
    ensures var s2 := PopMemo(h, CountStep(id, s));
            if |s.memos - {h}| == 0 && !s.beforeDone then s2.log == s.log + [BeforeExecution] && s2.beforeDone
            else s2.log == s.log && s2.beforeDone == s.beforeDone
  {
  }

  lemma BText()
    ensures PreHash("b", 0) == "b"
  {
  }

  // ----- A callback that raises after a sibling's handler returned: that handler runs again -----

  function Siblings(): Prog { Parallel([Constant("a", 1, Echo), Flaky("net", Return(Num(0)))], Wait, Bundle) }

  lemma FailingSecond(gas: nat, p: Prog, q: Prog, gk: GroupResult -> Prog, e: Err, rq: Request, s: St)
    requires gas >= 2
    requires var (o1, s1) := Exec(gas - 1, p, rq, GROUPED, s);
             (o1.Returned? || o1.Interrupt? || o1.Skip?) && Exec(gas - 1, q, rq, GROUPED, s1).0 == Threw(e)
    ensures var (o1, s1) := Exec(gas - 1, p, rq, GROUPED, s);
            Exec(gas, Parallel([p, q], Wait, gk), rq, TOP_LEVEL, s) ==
              Exec(gas - 1, gk(GroupFailed(e)), rq, TOP_LEVEL, Exec(gas - 1, q, rq, GROUPED, s1).1)
  {
    var s1 := Exec(gas - 1, p, rq, GROUPED, s).1;
    var s2 := Exec(gas - 1, q, rq, GROUPED, s1).1;
    hide Exec;
    assert [p, q][1..] == [q];
    assert ExecAll(gas - 1, [q], rq, GROUPED, s1) == (Stopped(Threw(e)), s2);
    assert ExecAll(gas - 1, [p, q], rq, GROUPED, s) == (Stopped(Threw(e)), s2);
    StopsGroup(gas, [p, q], gk, e, rq, s, s2);
  }

  lemma FlakyOutcome(gas: nat, rq: Request, s: St)
    requires gas >= 2
    ensures var fault := rq.fault("net");
            Exec(gas, Flaky("net", Return(Num(0))), rq, GROUPED, s) ==
              (if fault.Some? then Threw(Transient(fault.value)) else Returned(Num(0)), s)
  {
    Returns(gas - 1, Num(0), rq, GROUPED, s);
  }

  /** Without a memo of `a`: its handler runs if it is the target, and the answer is lost if the sibling raises. */
  lemma SiblingsOutcome(gas: nat, rq: Request)
    requires gas >= 4 && rq.disableImmediateExecution && (rq.target.None? || rq.target == Some("a"))
    ensures var (o, s) := Exec(gas, Siblings(), rq, TOP_LEVEL, Initial(map[]));
            && o == (if rq.fault("net").Some? then Threw(Transient(rq.fault("net").value))
                     else Interrupt([ConstantResponse("a", "a", 1, rq.target)]))
            && Successes(s.log) == if rq.target.Some? then multiset{"a"} else multiset{}
  {
    hide Exec, PreHash, PopMemo, ConstantResponse, CountStep, Successes;
    var s, a, b := Initial(map[]), Constant("a", 1, Echo), Flaky("net", Return(Num(0)));
    assert PreHash("a", 0) == "a" by { SharingTexts(); }
    CallConstant(gas - 1, "a", 1, Echo, rq, GROUPED, s);
    PopLog("a", "a", s);
    var (o1, s1) := Exec(gas - 1, a, rq, GROUPED, s);
    FlakyOutcome(gas - 1, rq, s1);
    SiblingsLog(rq.target, s.log, s1.log);
    if rq.fault("net").Some? {
      FailingSecond(gas, a, b, Bundle, Transient(rq.fault("net").value), rq, s);
      Raises(gas - 1, Transient(rq.fault("net").value), rq, TOP_LEVEL, s1);
    } else {
      PairOutcome(gas, a, b, Bundle, rq, s);
      var o2 := Exec(gas - 1, b, rq, GROUPED, s1).0;
      TogetherIs(o1, o2);
      WaitModeKeeps(Prepend(o1, Prepend(o2, Collected([], []))).responses);
    }
  }

  lemma SiblingsLog(target: Option<HashedId>, log: seq<Event>, log1: seq<Event>)
    requires log == [BeforeExecution]
    requires log1 == if target.Some? then log + [HandlerStart("a")] + [HandlerEnd("a", true)] else log
    ensures Successes(log1) == if target.Some? then multiset{"a"} else multiset{}
  {
    assert log == [] + [BeforeExecution];
    SuccessesSnoc([], BeforeExecution);
    SuccessesSnoc(log, HandlerStart("a"));
    SuccessesSnoc(log + [HandlerStart("a")], HandlerEnd("a", true));
  }

  lemma SiblingsTurn(w: World, cfg: Config, gas: nat, st: TState)
    requires cfg.setup.stubs == map[] && ValidPick(w) && gas >= 4 && st.steps == map[] && st.planned <= {"a"}
    requires st.attempt < cfg.MaxAttempt()
    ensures var turn := TakeTurn(w, cfg, gas, Siblings(), st);
            var lost, ran := w.fault(st.n)("net").Some?, st.planned == {"a"};
            && turn.Again? && turn.st.n == st.n + 1
            && turn.st.steps == (if ran && !lost then map["a" := Num(1)] else map[])
            && turn.st.planned == (if ran || lost then {} else {"a"})
            && turn.st.attempt == st.attempt + (if lost then 1 else 0)
            && Successes(turn.st.log) == Successes(st.log) + if ran then multiset{"a"} else multiset{}
  {
    hide Exec, Siblings, Successes, TakeTurn, ApplyAll;
    assert FromRaw(cfg.setup.parse, st.steps) == map[];
    var rq := RequestOf(w, st);
    if st.planned != {} { assert st.planned == {"a"} && w.pick(st.n, st.planned) in st.planned; }
    SiblingsOutcome(gas, rq);
    Settled(w, cfg, gas, Siblings(), st);
    var (o, s) := Exec(gas, Siblings(), rq, TOP_LEVEL, Initial(map[]));
    SuccessesConcat(st.log, s.log);
    if o.Interrupt? {
      ApplySingle(o.responses[0], cfg, Invoked(w, st, ToCallResult(o), s.log));
    }
  }

  /**
   * Code between steps that raises can lose the answer of a handler that has returned: here one fault, in the
   * second invocation, and the handler of `a` has returned twice when `a` is memoized.
   */
  lemma {:induction false} HandlerSucceedsTwice(w: World, cfg: Config, gas: nat)
    requires cfg.setup.stubs == map[] && ValidPick(w) && gas >= 4 && cfg.MaxAttempt() >= 2
    requires forall n :: w.fault(n)("net").Some? <==> n == 1
    ensures var st := StateAfter(w, cfg, gas, Siblings(), 4);
            && st.Some? && st.value.steps == map["a" := Num(1)]
            && Successes(st.value.log)["a"] == 2
  {
    hide TakeTurn, Successes, Siblings;
    var p := Siblings();
    SiblingsTurn(w, cfg, gas, START);
    var st1 := TakeTurn(w, cfg, gas, p, START).st;
    SiblingsTurn(w, cfg, gas, st1);
    var st2 := TakeTurn(w, cfg, gas, p, st1).st;
    SiblingsTurn(w, cfg, gas, st2);
    var st3 := TakeTurn(w, cfg, gas, p, st2).st;
    SiblingsTurn(w, cfg, gas, st3);
    assert StateAfter(w, cfg, gas, p, 0) == Some(START);
    assert StateAfter(w, cfg, gas, p, 1) == Some(st1);
    assert StateAfter(w, cfg, gas, p, 2) == Some(st2);
    assert StateAfter(w, cfg, gas, p, 3) == Some(st3);
    NoSuccesses();
  }

  lemma NoSuccesses()
    ensures Successes([]) == multiset{}
  {
  }

  // ----- Memos that look like nested output -----

  function EmptyResult(): Prog { Step("s", StepRun, Return(Obj(map[])), Echo) }

  /** A handler that returns `{}` is replayed as if it had returned null. */
  lemma {:induction false} EmptyObjectIsLost(w: World, cfg: Config, gas: nat, budget: nat)
    requires cfg.setup.stubs == map[] && ValidPick(w) && gas >= 2 && (forall n :: QuietAt(w, n))
    requires budget >= 2 + 2 * (cfg.MaxAttempt() + 1)
    ensures DirectEval(gas, EmptyResult(), cfg.setup.stubs) == Some(Ok(Obj(map[])))
    ensures var r := RunTrigger(w, cfg, gas, EmptyResult(), START, budget); r.Some? && r.value.0 == Completed(Null)
  {
    var pl := EmptyPlan(gas, cfg);
    TriggerEnds(gas, EmptyResult(), pl, w, cfg, budget);
    NoFaults(w, RunTrigger(w, cfg, gas, EmptyResult(), START, budget).value.1.n);
  }

  lemma EmptyPlan(gas: nat, cfg: Config) returns (pl: Plan)
    requires cfg.setup.stubs == map[] && gas >= 2
    ensures DirectEval(gas, EmptyResult(), cfg.setup.stubs) == Some(Ok(Obj(map[])))
    ensures TriggerLaws.Planned(gas, EmptyResult(), cfg, pl) && pl.result == Ok(Null) && |Ids(Steps(pl.segs))| == 1
  {
    var su := cfg.setup;
    var e := Entry("s", "s", StepRun, Obj(map[]), true);
    pl := Plan([One(e)], Bump(map[], "s"), Ok(Null), true, true);
    EmptyObjectReadsAsNull(su.parse);
    assert DirectEval(gas - 1, Return(Obj(map[])), map[]) == Some(Ok(Obj(map[])));
    assert PlanOf(gas - 1, Return(Obj(map[])), map[], su) == Some(Plan([], map[], Ok(Obj(map[])), true, true));
    assert PlanStep(gas - 1, "s", StepRun, Return(Obj(map[])), su) == Some(Obj(map[]));
    assert PreHash("s", Count(map[], "s")) == "s";
    assert PlanOf(gas - 1, Return(Null), Bump(map[], "s"), su) == Some(Plan([], Bump(map[], "s"), Ok(Null), true, true));
    assert [One(e)] + [] == [One(e)];
    EntriesCons(One(e), []);
    assert Entries(pl.segs) == [e] && Steps(pl.segs) == [e];
    assert e in [e] && Ids([e]) == {"s"};
  }
}
