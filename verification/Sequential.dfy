/** Functions without groups: a run ends only when every step found its own memo, so clashing IDs never finish. */
module Sequential {
  import opened Values
  import opened StepIds
  import opened Memos
  import opened Programs
  import opened Engine
  import opened Plans
  import opened Replay
  import opened PlanIds
  import opened Trigger
  import opened TriggerLaws

  /** The function calls no group, whatever its steps give back. */
  ghost predicate NoGroups(gas: nat, p: Prog) {
    gas > 0 ==>
      match p
      case Return(_) => true
      case Raise(_) => true
      case Flaky(_, next) => NoGroups(gas - 1, next)
      case Step(_, _, _, k) => forall r :: NoGroups(gas - 1, k(r))
      case Parallel(_, _, _) => false
  }

  /** The handler raises no error that `step.run` hands on to the function. */
  ghost predicate Contained(gas: nat, handler: Prog) {
    gas > 0 ==>
      match handler
      case Return(_) => true
      case Raise(e) => !e.Bubbles()
      case Flaky(_, next) => Contained(gas - 1, next)
      case Step(_, _, _, _) => true
      case Parallel(_, _, _) => false
  }

  ghost predicate HandlersContained(gas: nat, p: Prog) {
    gas > 0 ==>
      match p
      case Return(_) => true
      case Raise(_) => true
      case Flaky(_, next) => HandlersContained(gas - 1, next)
      case Step(_, _, handler, k) => Contained(gas - 1, handler) && forall r :: HandlersContained(gas - 1, k(r))
      case Parallel(_, _, _) => true
  }

  /** Nothing runs in this invocation, or no handler hands an error on to the function. */
  ghost predicate NothingBubbles(gas: nat, p: Prog, rq: Request) {
    (rq.target.None? && rq.disableImmediateExecution) || HandlersContained(gas, p)
  }

  /** The step IDs that an invocation uses, in order. */
  function UsedIds(gas: nat, p: Prog, rq: Request, s: St): seq<string> {
    if gas == 0 then []
    else
      match p
      case Return(_) => []
      case Raise(_) => []
      case Flaky(site, next) => if rq.fault(site).Some? then [] else UsedIds(gas - 1, next, rq, s)
      case Step(id, op, _, k) =>
        var h := InfoOf(id, op, s).id;
        [id] + (if h in s.memos then UsedIds(gas - 1, k(MemoResult(s.memos[h])), rq, PopMemo(h, CountStep(id, s))) else [])
      case Parallel(_, _, _) => []
  }

  /** The texts of a sequence of uses, counted from `c` on. */
  function Texts(c: Counts, uses: seq<string>): seq<HashedId>
    decreases |uses|
  {
    if uses == [] then [] else [PreHash(uses[0], Count(c, uses[0]))] + Texts(Bump(c, uses[0]), uses[1..])
  }

  /** The code came back to its end, by return or by an error. */
  predicate CameBack(o: Outcome) {
    o.Returned? || o.Threw?
  }

  // ----- A handler's errors stay inside of `step.run` -----

  lemma {:induction false} ContainedOutcome(gas: nat, handler: Prog, rq: Request, cx: Context, s: St)
    requires Contained(gas, handler) && cx.inStep
    ensures var o := Exec(gas, handler, rq, cx, s).0; o.Threw? ==> !o.e.Bubbles()
  {
    if gas == 0 { return; }
    match handler
    case Return(_) =>
    case Raise(_) =>
    case Flaky(site, next) =>
      if rq.fault(site).None? { ContainedOutcome(gas - 1, next, rq, cx, s); }
    case Step(id, op, inner, k) => NestedOutcome(gas - 1, id, op, inner, k, rq, cx, s);
    case Parallel(_, _, _) => assert false;
  }

  lemma NestedOutcome(gas: nat, id: string, op: Opcode, handler: Prog, k: StepResult -> Prog, rq: Request,
                      cx: Context, s: St)
    requires cx.inStep
    ensures !ExecStep(gas, id, op, handler, k, rq, cx, s).0.Threw?
  {
    hide PopMemo, Exec;
  }

  lemma RunIsContained(gas: nat, handler: Prog, info: StepInfo, rq: Request, cx: Context, s: St)
    requires Contained(gas, handler)
    ensures !CameBack(RunHandler(gas, handler, info, rq, cx, s).0)
  {
    ContainedOutcome(gas, handler, rq, cx.(inStep := true), s.(log := s.log + [HandlerStart(info.id)]));
    hide Exec;
  }

  // ----- Each report takes its memo away -----

  lemma TextsCons(c: Counts, id: string, rest: seq<string>)
    ensures Texts(c, [id] + rest) == [PreHash(id, Count(c, id))] + Texts(Bump(c, id), rest)
  {
    assert ([id] + rest)[1..] == rest;
  }

  /** The steps reported so far and the memos left: each report found a memo, and took it. */
  ghost predicate TookMemos(ids: seq<HashedId>, s: St, s': St) {
    && s'.reported == s.reported + ids
    && NoDuplicates(ids)
    && (forall h :: h in ids ==> h in s.memos)
  }

  lemma TookFirst(id: HashedId, raw: string, ids: seq<HashedId>, s: St, s': St)
    requires id in s.memos && TookMemos(ids, PopMemo(id, CountStep(raw, s)), s')
    ensures TookMemos([id] + ids, s, s')
  {
    var s2 := PopMemo(id, CountStep(raw, s));
    assert s2.reported == s.reported + [id] && s2.memos == s.memos - {id};
    assert s.reported + [id] + ids == s.reported + ([id] + ids);
  }

  lemma StepComesBack(gas: nat, id: string, op: Opcode, handler: Prog, k: StepResult -> Prog, rq: Request,
                      cx: Context, s: St)
    requires !cx.inStep && CameBack(ExecStep(gas, id, op, handler, k, rq, cx, s).0)
    requires (rq.target.None? && rq.disableImmediateExecution) || Contained(gas, handler)
    ensures var h := InfoOf(id, op, s).id;
            && h in s.memos
            && ExecStep(gas, id, op, handler, k, rq, cx, s) ==
                 Exec(gas, k(MemoResult(s.memos[h])), rq, cx, PopMemo(h, CountStep(id, s)))
  {
    var info := InfoOf(id, op, s);
    if ReportStep(info, rq, cx, CountStep(id, s)).Fresh? {
      RunIsContained(gas, handler, info, rq, cx, PopMemo(info.id, CountStep(id, s)));
    }
    hide PopMemo, Exec, RunHandler;
  }

  /** Code without groups comes back only if each of its steps found a memo, and no two found the same. */
  lemma {:induction false} ComesBackOnMemos(gas: nat, p: Prog, rq: Request, cx: Context, s: St)
    requires NoGroups(gas, p) && NothingBubbles(gas, p, rq) && !cx.inStep
    requires CameBack(Exec(gas, p, rq, cx, s).0)
    ensures TookMemos(Texts(s.counts, UsedIds(gas, p, rq, s)), s, Exec(gas, p, rq, cx, s).1)
    decreases gas
  {
    hide PopMemo, ExecStep, PreHash, TookMemos, InfoOf, CountStep;
    match p
    case Return(_) => TookNothing(s);
    case Raise(_) => TookNothing(s);
    case Flaky(site, next) =>
      if rq.fault(site).None? { ComesBackOnMemos(gas - 1, next, rq, cx, s); } else { TookNothing(s); }
    case Step(id, op, handler, k) =>
      var h := InfoOf(id, op, s).id;
      StepComesBack(gas - 1, id, op, handler, k, rq, cx, s);
      var s2, next := PopMemo(h, CountStep(id, s)), k(MemoResult(s.memos[h]));
      PopCounts(h, id, op, s);
      ComesBackOnMemos(gas - 1, next, rq, cx, s2);
      TextsCons(s.counts, id, UsedIds(gas - 1, next, rq, s2));
      TookFirst(h, id, Texts(s2.counts, UsedIds(gas - 1, next, rq, s2)), s, Exec(gas - 1, next, rq, cx, s2).1);
    case Parallel(_, _, _) => assert false;
  }

  lemma TookNothing(s: St)
    ensures TookMemos([], s, s)
  {
    assert s.reported + [] == s.reported;
  }

  lemma PopCounts(h: HashedId, id: string, op: Opcode, s: St)
    ensures PopMemo(h, CountStep(id, s)).counts == Bump(s.counts, id)
    ensures InfoOf(id, op, s).id == PreHash(id, Count(s.counts, id))
  {
  }

  /**
   * An invocation of a function without groups that finishes has reported each hashed ID at most once: every
   * report takes away the memo that let it return.
   */
  lemma {:induction false} FinishedReportsOnce(gas: nat, p: Prog, rq: Request, memos: MemoMap)
    requires NoGroups(gas, p) && NothingBubbles(gas, p, rq)
    ensures var (res, s) := RunFunction(gas, p, rq, memos); res.Finished? ==> NoDuplicates(s.reported)
  {
    var (o, s) := Exec(gas, p, rq, TOP_LEVEL, Initial(memos));
    if o.Returned? {
      ComesBackOnMemos(gas, p, rq, TOP_LEVEL, Initial(memos));
      hide Exec, Texts;
      NothingReported(memos);
    }
  }

  lemma NothingReported(memos: MemoMap)
    ensures forall ids: seq<HashedId> :: Initial(memos).reported + ids == ids
    ensures Initial(memos).counts == map[]
  {
  }

  // ----- So clashing IDs never finish -----

  lemma {:induction false} TextOfUse(c: Counts, uses: seq<string>, i: nat)
    requires i < |uses|
    ensures |Texts(c, uses)| == |uses|
    ensures Texts(c, uses)[i] == PreHash(uses[i], Count(c, uses[i]) + Occurrences(uses[..i], uses[i]))
    decreases i
  {
    var rest := uses[1..];
    assert uses == [uses[0]] + rest;
    hide PreHash;
    TextsLength(c, uses);
    if i > 0 {
      TextOfUse(Bump(c, uses[0]), rest, i - 1);
      assert uses[..i] == [uses[0]] + rest[..i - 1];
      OccurrencesCons(uses[0], rest[..i - 1], uses[i]);
    } else {
      assert uses[..0] == [];
    }
  }

  lemma {:induction false} TextsLength(c: Counts, uses: seq<string>)
    ensures |Texts(c, uses)| == |uses|
    decreases |uses|
  {
    if uses != [] { TextsLength(Bump(c, uses[0]), uses[1..]); }
  }

  lemma {:induction false} OccurrencesCons(x: string, uses: seq<string>, id: string)
    ensures Occurrences([x] + uses, id) == (if x == id then 1 else 0) + Occurrences(uses, id)
  {
    if uses == [] {
      assert [x] + [] == [x] && [x][..0] == [];
    } else {
      var front := uses[..|uses| - 1];
      assert ([x] + uses)[..|uses|] == [x] + front;
      OccurrencesCons(x, front, id);
    }
  }

  ghost predicate HasClash(uses: seq<string>) {
    exists a, b, n :: Clash(uses, a, b, n)
  }

  lemma DistinctUses(uses: seq<string>)
    requires NoDuplicates(Texts(map[], uses))
    ensures !HasClash(uses)
  {
    TextsLength(map[], uses);
    forall i | 0 <= i < |uses| ensures Texts(map[], uses)[i] == TextAt(uses, i) {
      TextOfUse(map[], uses, i);
    }
    hide Texts, TextAt, Clash;
    assert TextsDistinct(uses);
    TextsDistinctIffNoClash(uses);
  }

  /** The IDs that a finishing invocation uses do not clash. */
  lemma {:induction false} FinishedUsesDoNotClash(gas: nat, p: Prog, rq: Request, memos: MemoMap)
    requires NoGroups(gas, p) && NothingBubbles(gas, p, rq) && RunFunction(gas, p, rq, memos).0.Finished?
    ensures !HasClash(UsedIds(gas, p, rq, Initial(memos)))
  {
    ComesBackOnMemos(gas, p, rq, TOP_LEVEL, Initial(memos));
    hide Exec, Texts, UsedIds, HasClash;
    NothingReported(memos);
    DistinctUses(UsedIds(gas, p, rq, Initial(memos)));
  }

  /** Whatever its steps give back, the function returns only after using IDs that clash. */
  ghost predicate ClashesAlways(gas: nat, p: Prog, used: seq<string>) {
    gas > 0 ==>
      match p
      case Return(_) => HasClash(used)
      case Raise(_) => true
      case Flaky(_, next) => ClashesAlways(gas - 1, next, used)
      case Step(id, _, _, k) => forall r :: ClashesAlways(gas - 1, k(r), used + [id])
      case Parallel(_, _, _) => false
  }

  lemma {:induction false} ReturnsAfterClash(gas: nat, p: Prog, rq: Request, cx: Context, s: St, used: seq<string>)
    requires NoGroups(gas, p) && NothingBubbles(gas, p, rq) && !cx.inStep
    requires ClashesAlways(gas, p, used) && Exec(gas, p, rq, cx, s).0.Returned?
    ensures HasClash(used + UsedIds(gas, p, rq, s))
    decreases gas
  {
    hide PopMemo, ExecStep, PreHash, InfoOf, CountStep, HasClash;
    match p
    case Return(_) => assert used + [] == used;
    case Raise(_) => assert false;
    case Flaky(site, next) =>
      assert rq.fault(site).None? && UsedIds(gas, p, rq, s) == UsedIds(gas - 1, next, rq, s);
      ReturnsAfterClash(gas - 1, next, rq, cx, s, used);
    case Step(id, op, handler, k) =>
      var h := InfoOf(id, op, s).id;
      StepComesBack(gas - 1, id, op, handler, k, rq, cx, s);
      var s2, next := PopMemo(h, CountStep(id, s)), k(MemoResult(s.memos[h]));
      ReturnsAfterClash(gas - 1, next, rq, cx, s2, used + [id]);
      assert UsedIds(gas, p, rq, s) == [id] + UsedIds(gas - 1, next, rq, s2);
      assert used + [id] + UsedIds(gas - 1, next, rq, s2) == used + ([id] + UsedIds(gas - 1, next, rq, s2));
    case Parallel(_, _, _) => assert false;
  }

  lemma NeverFinishes(gas: nat, p: Prog, rq: Request, memos: MemoMap)
    requires NoGroups(gas, p) && NothingBubbles(gas, p, rq) && ClashesAlways(gas, p, [])
    ensures !RunFunction(gas, p, rq, memos).0.Finished?
  {
    var uses := UsedIds(gas, p, rq, Initial(memos));
    assert [] + uses == uses;
    if RunFunction(gas, p, rq, memos).0.Finished? {
      ReturnsAfterClash(gas, p, rq, TOP_LEVEL, Initial(memos), []);
      FinishedUsesDoNotClash(gas, p, rq, memos);
    }
  }

  lemma NotCompleted(w: World, cfg: Config, gas: nat, p: Prog, st: TState)
    requires !RunFunction(gas, p, RequestOf(w, st), FromRaw(cfg.setup.parse, st.steps)).0.Finished?
    ensures var turn := TakeTurn(w, cfg, gas, p, st); turn.Stop? ==> !turn.result.Completed?
  {
    hide RunFunction, ApplyAll;
    var (res, s) := RunFunction(gas, p, RequestOf(w, st), FromRaw(cfg.setup.parse, st.steps));
    if res.Multi? { AppliedNotCompleted(res.results, cfg, Invoked(w, st, res, s.log)); }
  }

  lemma {:induction false} AppliedNotCompleted(rs: seq<StepResponse>, cfg: Config, st: TState)
    ensures var turn := ApplyAll(rs, cfg, st); turn.Stop? ==> !turn.result.Completed?
  {
    if rs != [] {
      var turn := ApplyOne(rs[0], cfg, st);
      if turn.Again? { AppliedNotCompleted(rs[1..], cfg, turn.st); }
    }
  }

  lemma ClashingTurn(w: World, cfg: Config, gas: nat, p: Prog, st: TState)
    requires NoGroups(gas, p) && HandlersContained(gas, p) && ClashesAlways(gas, p, [])
    ensures var turn := TakeTurn(w, cfg, gas, p, st); turn.Stop? ==> !turn.result.Completed?
  {
    hide NoGroups, HandlersContained, ClashesAlways, RunFunction, TakeTurn;
    NeverFinishes(gas, p, RequestOf(w, st), FromRaw(cfg.setup.parse, st.steps));
    NotCompleted(w, cfg, gas, p, st);
  }

  /**
   * Clashing IDs: if every path on which the function returns uses IDs that clash, the executor loop never
   * completes, in any environment, from any state, however many invocations it makes.
   */
  lemma {:induction false} ClashingNeverCompletes(w: World, cfg: Config, gas: nat, p: Prog, st: TState, budget: nat)
    requires NoGroups(gas, p) && HandlersContained(gas, p) && ClashesAlways(gas, p, [])
    ensures var r := RunTrigger(w, cfg, gas, p, st, budget); r.Some? ==> !r.value.0.Completed?
    decreases budget
  {
    hide TakeTurn, NoGroups, HandlersContained, ClashesAlways, RunFunction, RequestOf;
    if budget > 0 {
      ClashingTurn(w, cfg, gas, p, st);
      var turn := TakeTurn(w, cfg, gas, p, st);
      if turn.Again? { ClashingNeverCompletes(w, cfg, gas, p, turn.st, budget - 1); }
    }
  }

  // ----- Distinct IDs are exactly what sequential code needs -----

  /** Whatever its steps give back, the function returns only after using exactly the IDs `ids`, in order. */
  ghost predicate UsesAlways(gas: nat, p: Prog, used: seq<string>, ids: seq<string>) {
    gas > 0 ==>
      match p
      case Return(_) => used == ids
      case Raise(_) => true
      case Flaky(_, next) => UsesAlways(gas - 1, next, used, ids)
      case Step(id, _, _, k) => forall r :: UsesAlways(gas - 1, k(r), used + [id], ids)
      case Parallel(_, _, _) => false
  }

  lemma {:induction false} SameUsesClash(gas: nat, p: Prog, used: seq<string>, ids: seq<string>)
    requires UsesAlways(gas, p, used, ids) && HasClash(ids)
    ensures ClashesAlways(gas, p, used)
  {
    if gas == 0 { return; }
    hide HasClash;
    match p
    case Return(_) =>
    case Raise(_) =>
    case Flaky(_, next) => SameUsesClash(gas - 1, next, used, ids);
    case Step(id, _, _, k) =>
      forall r ensures ClashesAlways(gas - 1, k(r), used + [id]) {
        SameUsesClash(gas - 1, k(r), used + [id], ids);
      }
    case Parallel(_, _, _) => assert false;
  }

  lemma {:induction false} NoGroupsIsFlat(gas: nat, p: Prog, c: Counts, su: Setup)
    requires PlanOf(gas, p, c, su).Some? && NoGroups(gas, p)
    ensures Flat(PlanOf(gas, p, c, su).value.segs)
    decreases gas
  {
    match p
    case Return(_) =>
    case Raise(_) =>
    case Flaky(_, next) => NoGroupsIsFlat(gas - 1, next, c, su);
    case Step(id, op, handler, k) =>
      var e, next, rest := UnfoldStep(gas - 1, id, op, handler, k, PlanOf(gas, p, c, su).value, c, su);
      NoGroupsIsFlat(gas - 1, next, Bump(c, id), su);
    case Parallel(_, _, _) => assert false;
  }

  /**
   * Sequential code replays as a direct run if and only if its step IDs do not clash: for a function without
   * groups that always makes the same steps, in a quiet environment, the executor loop completes with the
   * value of a run without memoization exactly if no ID is another one followed by `:n` for an occurrence
   * that the other one reaches.
   */
  lemma {:induction false} SequentialReplaysIff(gas: nat, p: Prog, w: World, cfg: Config, budget: nat)
    requires PlanOf(gas, p, map[], cfg.setup).Some? && PlanOf(gas, p, map[], cfg.setup).value.result.Ok?
    requires var es := Entries(PlanOf(gas, p, map[], cfg.setup).value.segs);
             NoneShaped(es, cfg.setup.parse) && UsesAlways(gas, p, [], RawSeq(es))
    requires NoGroups(gas, p) && HandlersContained(gas, p)
    requires ValidPick(w) && (forall n :: QuietAt(w, n)) && budget >= Bound(PlanOf(gas, p, map[], cfg.setup).value, cfg)
    ensures var ids := RawSeq(Entries(PlanOf(gas, p, map[], cfg.setup).value.segs));
            var direct := DirectEval(gas, p, cfg.setup.stubs);
            var r := RunTrigger(w, cfg, gas, p, START, budget);
            && direct.Some? && direct.value.Ok?
            && ((r.Some? && r.value.0 == Completed(direct.value.v)) <==> !HasClash(ids))
  {
    var pl := PlanOf(gas, p, map[], cfg.setup).value;
    var ids := RawSeq(Entries(pl.segs));
    NoGroupsIsFlat(gas, p, map[], cfg.setup);
    FlatSteps(pl.segs);
    PlanIsDirect(gas, p, map[], cfg.setup);
    hide PlanOf, NoGroups, HandlersContained, UsesAlways, RunTrigger, DirectEval;
    DistinctIffNoClash(gas, p, cfg.setup);
    if HasClash(ids) {
      SameUsesClash(gas, p, [], ids);
      ClashingNeverCompletes(w, cfg, gas, p, START, budget);
    } else {
      hide HasClash, QuietAt, FaultsBefore;
      assert TriggerLaws.Planned(gas, p, cfg, pl);
      TriggerEnds(gas, p, pl, w, cfg, budget);
      NoFaults(w, RunTrigger(w, cfg, gas, p, START, budget).value.1.n);
    }
  }
}
