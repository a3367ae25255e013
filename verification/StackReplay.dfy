/**
 * Replay through a middleware stack: the executor loop with encryption and remote state between the function
 * and the stored memos does what the loop without them does.
 */
module StackReplay {
  import opened Values
  import opened StepIds
  import opened Memos
  import opened Programs
  import opened Engine
  import opened Plans
  import opened Trigger
  import opened TriggerLaws
  import opened StackLaws
  import Middleware
  import Stores

  /** The stores of the drivers, as opposed to what the loop does not control. */
  type Drivers = Stores.World

  // ----- The loop with a stack -----

  /** The memos of an invocation: decoded, then sent through the input hooks. `None` if a hook raises. */
  function Received(kinds: seq<Kind>, parse: JsonParser, steps: map<HashedId, Value>, ds: Drivers): Option<MemoMap> {
    if exists id :: id in steps && Opened(kinds, parse, steps[id], ds).None? then None
    else Some(map id | id in steps :: Decode(parse, steps[id]).(data := Opened(kinds, parse, steps[id], ds).value))
  }

  function Opened(kinds: seq<Kind>, parse: JsonParser, sent: Value, ds: Drivers): Option<Value> {
    Middleware.InputPass(LayersOf(kinds), ds, Decode(parse, sent).data)
  }

  /** Only a step that ran to its end has output. */
  predicate HasOutput(r: StepResponse) {
    r.step.op.StepRun? && r.error.None?
  }

  function ShownTo(r: StepResponse): Middleware.OutputResult {
    Middleware.OutputResult(r.error, if HasOutput(r) then Some(r.output) else None, Some(r.step.op))
  }

  const HOOK_RAISED := Ordinary("middleware")

  /** `transform_output_sync` on the answer of an invocation: a single result goes through the output hooks. */
  function Send(kinds: seq<Kind>, ds: Drivers, res: CallResult): (CallResult, Drivers) {
    if res.Finished? then
      var pass := Middleware.OutputPass(LayersOf(kinds), ds, HookResult(res.output, None));
      if pass.Done? && pass.r.output.Some? then (Finished(pass.r.output.value), pass.w) else (Errored(HOOK_RAISED), pass.w)
    else if res.Errored? then
      var pass := Middleware.OutputPass(LayersOf(kinds), ds, Middleware.OutputResult(Some(res.error), None, None));
      if pass.Done? && pass.r.error.Some? then (Errored(pass.r.error.value), pass.w) else (Errored(HOOK_RAISED), pass.w)
    else if res.Multi? && |res.results| == 1 then
      var r := res.results[0];
      var pass := Middleware.OutputPass(LayersOf(kinds), ds, ShownTo(r));
      if pass.Done? then
        (Multi([r.(error := pass.r.error, output := if pass.r.output.Some? then pass.r.output.value else r.output)]), pass.w)
      else (Errored(HOOK_RAISED), pass.w)
    else (res, ds)
  }

  function TakeTurnThrough(kinds: seq<Kind>, w: World, cfg: Config, gas: nat, p: Prog, st: TState,
                           ds: Drivers): (Turn, Drivers) {
    var memos := Received(kinds, cfg.setup.parse, st.steps, ds);
    if memos.None? then
      var (res, ds1) := Send(kinds, ds, Errored(HOOK_RAISED));
      (Settle(res, cfg, Invoked(w, st, res, [])), ds1)
    else
      var (res, s) := RunFunction(gas, p, RequestOf(w, st), memos.value);
      var (sent, ds1) := Send(kinds, ds, res);
      (Settle(sent, cfg, Invoked(w, st, sent, s.log)), ds1)
  }

  /** The loop, for at most `budget` invocations. */
  function RunThrough(kinds: seq<Kind>, w: World, cfg: Config, gas: nat, p: Prog, st: TState, ds: Drivers, budget: nat):
      Option<(Result, TState, Drivers)>
    decreases budget
  {
    if budget == 0 then None
    else
      var (turn, ds1) := TakeTurnThrough(kinds, w, cfg, gas, p, st, ds);
      match turn
      case Again(st1) => RunThrough(kinds, w, cfg, gas, p, st1, ds1, budget - 1)
      case Stop(result, st1) => Some((result, st1, ds1))
      case Hangs => None
  }

  // ----- Values that a stack and the memo decoder hand on -----

  /** Neither the memo decoder nor an input hook would take the value for something else. */
  ghost predicate Harmless(kinds: seq<Kind>, parse: JsonParser, v: Value) {
    && !OutputShaped(parse, v)
    && (Encryptions(kinds) == 1 ==> !Stores.LooksSealed(v))
    && (Remembering(kinds) ==> !Stores.IsPlaceholder(v))
  }

  ghost predicate WorkingStack(kinds: seq<Kind>) {
    KeysWork(kinds) && Encryptions(kinds) <= 1
  }

  lemma HarmlessFits(kinds: seq<Kind>, parse: JsonParser, v: Value, op: Option<Opcode>)
    requires WorkingStack(kinds) && Harmless(kinds, parse, v)
    ensures ValueFits(kinds, HookResult(v, op))
  {
    hide KeysWork, Encryptions, Remembering;
  }

  lemma EncryptionsTail(kinds: seq<Kind>)
    requires kinds != []
    ensures Encryptions(kinds) == (if kinds[0].Encrypts? then 1 else 0) + Encryptions(kinds[1..])
    decreases |kinds|
  {
    if |kinds| > 1 {
      var front := kinds[..|kinds| - 1];
      EncryptionsTail(front);
      assert front[1..] == kinds[1..][..|kinds[1..]| - 1];
    }
  }

  /** Input hooks leave a harmless value alone. */
  lemma {:induction false} HarmlessPasses(kinds: seq<Kind>, v: Value, ds: Drivers)
    requires Encryptions(kinds) <= 1 && (Encryptions(kinds) == 1 ==> !Stores.LooksSealed(v))
    requires Remembering(kinds) ==> !Stores.IsPlaceholder(v)
    ensures Middleware.InputPass(LayersOf(kinds), ds, v) == Some(v)
  {
    if kinds != [] {
      EncryptionsTail(kinds);
      assert Remembering(kinds[1..]) ==> Remembering(kinds) by {
        if Remembering(kinds[1..]) {
          var i :| 0 <= i < |kinds[1..]| && kinds[1..][i].Remembers?;
          assert kinds[i + 1].Remembers?;
        }
      }
      assert kinds[0].Remembers? ==> Remembering(kinds);
      assert LayersOf(kinds)[1..] == LayersOf(kinds[1..]);
      HarmlessPasses(kinds[1..], v, ds);
    }
  }

  /** A harmless value is read back as itself even if it is stored as it is. */
  lemma HarmlessRecovers(kinds: seq<Kind>, parse: JsonParser, v: Value, ds: Drivers)
    requires WorkingStack(kinds) && Harmless(kinds, parse, v)
    ensures Recovers(kinds, parse, v, v, ds)
  {
    assert Decode(parse, v) == Output(v, None);
    forall later | Stores.Keeps(ds, later) ensures Middleware.InputPass(LayersOf(kinds), later, v) == Some(v) {
      HarmlessPasses(kinds, v, later);
    }
  }

  lemma RecoversLater(kinds: seq<Kind>, parse: JsonParser, sent: Value, v: Value, ds: Drivers, ds1: Drivers)
    requires Recovers(kinds, parse, sent, v, ds) && Stores.Keeps(ds, ds1)
    ensures Recovers(kinds, parse, sent, v, ds1)
  {
    forall later | Stores.Keeps(ds1, later)
      ensures Middleware.InputPass(LayersOf(kinds), later, Decode(parse, sent).data) == Some(v)
    {
      KeepsTrans(ds, ds1, later);
    }
  }

  // ----- One turn -----

  /** The loop with the stack, in step with the loop without: what it has stored is read back as the plain memos. */
  ghost predicate Mirrors(kinds: seq<Kind>, parse: JsonParser, st: TState, m: TState, ds: Drivers) {
    && m == st.(steps := m.steps)
    && m.steps.Keys == st.steps.Keys
    && forall id :: id in st.steps ==> Recovers(kinds, parse, m.steps[id], st.steps[id], ds)
  }

  ghost predicate HarmlessState(kinds: seq<Kind>, parse: JsonParser, st: TState) {
    forall id :: id in st.steps ==> Harmless(kinds, parse, st.steps[id])
  }

  /** What reaches the function is what the plain loop gives it. */
  lemma ReceivedIsPlain(kinds: seq<Kind>, parse: JsonParser, st: TState, m: TState, ds: Drivers)
    requires Mirrors(kinds, parse, st, m, ds) && HarmlessState(kinds, parse, st)
    ensures Received(kinds, parse, m.steps, ds) == Some(FromRaw(parse, st.steps))
  {
    forall id | id in m.steps
      ensures Opened(kinds, parse, m.steps[id], ds) == Some(st.steps[id])
      ensures Decode(parse, m.steps[id]).(data := st.steps[id]) == Decode(parse, st.steps[id])
    {
      assert Recovers(kinds, parse, m.steps[id], st.steps[id], ds);
      assert Stores.Keeps(ds, ds);
      assert Harmless(kinds, parse, st.steps[id]);
    }
    hide Opened, Recovers, Harmless, Decode, OutputFromRaw;
    assert Received(kinds, parse, m.steps, ds).value == FromRaw(parse, st.steps);
  }

  /** A response and the form in which it is sent. */
  ghost predicate SentForm(kinds: seq<Kind>, parse: JsonParser, r: StepResponse, sent: StepResponse, ds: Drivers) {
    && sent == r.(output := sent.output)
    && (HasOutput(r) && Harmless(kinds, parse, r.output) ==> Recovers(kinds, parse, sent.output, r.output, ds))
  }

  lemma ResponseIsSent(kinds: seq<Kind>, parse: JsonParser, ds: Drivers, r: StepResponse)
    requires WorkingStack(kinds) && FreshKeys(ds)
    ensures var (sent, ds1) := Send(kinds, ds, Multi([r]));
            && sent.Multi? && |sent.results| == 1 && SentForm(kinds, parse, r, sent.results[0], ds1)
            && Stores.Keeps(ds, ds1) && FreshKeys(ds1)
  {
    hide FreshKeys, KeysWork, Recovers, OutputShaped;
    StackKeeps(kinds, ds, ShownTo(r));
    if HasOutput(r) && Harmless(kinds, parse, r.output) {
      HarmlessFits(kinds, parse, r.output, Some(StepRun));
      StackMemoRoundTrip(parse, kinds, ds, r.output);
      assert ShownTo(r) == HookResult(r.output, Some(StepRun));
    }
  }

  /** An answer of the function and the form in which it leaves the stack. */
  ghost predicate Carried(kinds: seq<Kind>, parse: JsonParser, res: CallResult, sent: CallResult, ds: Drivers) {
    match res
    case Finished(v) =>
      sent.Finished? && (Harmless(kinds, parse, v) ==> ReadBack(kinds, sent.output, v, ds))
    case Multi(rs) =>
      || sent == res
      || (|rs| == 1 && sent.Multi? && |sent.results| == 1 && SentForm(kinds, parse, rs[0], sent.results[0], ds))
    case _ => sent == res
  }

  /** The input hooks give `v` for the output `sent` of the function, now and later. */
  ghost predicate ReadBack(kinds: seq<Kind>, sent: Value, v: Value, ds: Drivers) {
    forall later :: Stores.Keeps(ds, later) ==> Middleware.InputPass(LayersOf(kinds), later, sent) == Some(v)
  }

  lemma OutputIsSent(kinds: seq<Kind>, parse: JsonParser, ds: Drivers, v: Value)
    requires WorkingStack(kinds) && FreshKeys(ds)
    ensures var (sent, ds1) := Send(kinds, ds, Finished(v));
            sent.Finished? && (Harmless(kinds, parse, v) ==> ReadBack(kinds, sent.output, v, ds1))
            && Stores.Keeps(ds, ds1) && FreshKeys(ds1)
  {
    hide KeysWork, Harmless, FreshKeys;
    StackKeeps(kinds, ds, HookResult(v, None));
    var (sent, ds1) := Send(kinds, ds, Finished(v));
    if Harmless(kinds, parse, v) {
      HarmlessFits(kinds, parse, v, None);
      forall later | Stores.Keeps(ds1, later) ensures Middleware.InputPass(LayersOf(kinds), later, sent.output) == Some(v) {
        StackRoundTrip(kinds, ds, v, None, later);
      }
    }
  }

  lemma AnswerIsCarried(kinds: seq<Kind>, parse: JsonParser, ds: Drivers, res: CallResult)
    requires WorkingStack(kinds) && FreshKeys(ds)
    ensures var (sent, ds1) := Send(kinds, ds, res);
            Carried(kinds, parse, res, sent, ds1) && Stores.Keeps(ds, ds1) && FreshKeys(ds1)
  {
    hide KeysWork, Harmless, FreshKeys, SentForm, ReadBack;
    match res
    case Finished(v) => hide Send; OutputIsSent(kinds, parse, ds, v);
    case Errored(e) => StackKeeps(kinds, ds, Middleware.OutputResult(Some(e), None, None));
    case Multi(rs) =>
      if |rs| == 1 {
        assert rs == [rs[0]];
        hide Send;
        ResponseIsSent(kinds, parse, ds, rs[0]);
      }
    case Crashed =>
    case Hung =>
  }

  lemma SameErrors(kinds: seq<Kind>, parse: JsonParser, res: CallResult, sent: CallResult, ds: Drivers)
    requires Carried(kinds, parse, res, sent, ds)
    ensures (AnswersError(sent) <==> AnswersError(res)) && (Delivered(sent) <==> Delivered(res))
  {
    hide ReadBack, Harmless, Recovers;
    if res.Multi? && sent != res {
      assert AnswersError(res) <==> res.results[0].error.Some?;
      assert AnswersError(sent) <==> sent.results[0].error.Some?;
    }
  }

  /** The memos that the same responses add on both sides: the plain value itself, or nothing. */
  ghost predicate AddedAlike(st: TState, m: TState, st1: TState, m1: TState) {
    && m1 == st1.(steps := m1.steps)
    && m1.steps.Keys == st1.steps.Keys
    && forall id :: id in st1.steps ==>
         || m1.steps[id] == st1.steps[id]
         || (id in st.steps && id in m.steps && m1.steps[id] == m.steps[id] && st1.steps[id] == st.steps[id])
  }

  ghost predicate TurnsAlike(st: TState, m: TState, turn: Turn, turn': Turn) {
    match turn
    case Again(st1) => turn'.Again? && AddedAlike(st, m, st1, turn'.st)
    case Stop(result, st1) => turn'.Stop? && turn'.result == result && turn'.st == st1.(steps := turn'.st.steps)
    case Hangs => turn'.Hangs?
  }

  lemma OneAlike(r: StepResponse, cfg: Config, st: TState, m: TState)
    requires m == st.(steps := m.steps) && m.steps.Keys == st.steps.Keys
    ensures TurnsAlike(st, m, ApplyOne(r, cfg, st), ApplyOne(r, cfg, m))
  {
    var turn, turn' := ApplyOne(r, cfg, st), ApplyOne(r, cfg, m);
    MemoizedAlike(st, m, r.step.id, if turn.Again? && r.step.id in turn.st.steps then turn.st.steps[r.step.id] else Null);
    if turn.Again? && |turn.st.stack| == |st.stack| { KeptAlike(st, m, turn.st, turn'.st); }
    hide AddedAlike;
  }

  lemma MemoizedAlike(st: TState, m: TState, id: HashedId, v: Value)
    requires m == st.(steps := m.steps) && m.steps.Keys == st.steps.Keys
    ensures AddedAlike(st, m, st.Memoize(id, v), m.Memoize(id, v))
  {
  }

  lemma KeptAlike(st: TState, m: TState, st1: TState, m1: TState)
    requires m.steps.Keys == st.steps.Keys && st1.steps == st.steps && m1.steps == m.steps && m1 == st1.(steps := m1.steps)
    ensures AddedAlike(st, m, st1, m1)
  {
  }

  lemma AlikeTrans(st: TState, m: TState, st1: TState, m1: TState, st2: TState, m2: TState)
    requires AddedAlike(st, m, st1, m1) && AddedAlike(st1, m1, st2, m2)
    ensures AddedAlike(st, m, st2, m2)
  {
  }

  lemma {:induction false} AllAlike(rs: seq<StepResponse>, cfg: Config, st: TState, m: TState)
    requires m == st.(steps := m.steps) && m.steps.Keys == st.steps.Keys
    ensures TurnsAlike(st, m, ApplyAll(rs, cfg, st), ApplyAll(rs, cfg, m))
  {
    if rs != [] {
      hide ApplyOne;
      OneAlike(rs[0], cfg, st, m);
      var one, one' := ApplyOne(rs[0], cfg, st), ApplyOne(rs[0], cfg, m);
      if one.Again? {
        AllAlike(rs[1..], cfg, one.st, one'.st);
        var all := ApplyAll(rs[1..], cfg, one.st);
        if all.Again? {
          AlikeTrans(st, m, one.st, one'.st, all.st, ApplyAll(rs[1..], cfg, one'.st).st);
        }
      }
    }
  }

  /** What the plain turn memoized or completed with is harmless. */
  ghost predicate HarmlessTurn(kinds: seq<Kind>, parse: JsonParser, turn: Turn) {
    match turn
    case Again(st1) => HarmlessState(kinds, parse, st1)
    case Stop(Completed(v), _) => Harmless(kinds, parse, v)
    case _ => true
  }

  /** The results of the two loops: the same, but that a completed output is in its sent form. */
  ghost predicate SameResult(kinds: seq<Kind>, result: Result, sent: Result, ds: Drivers) {
    if result.Completed? then sent.Completed? && ReadBack(kinds, sent.output, result.output, ds) else sent == result
  }

  ghost predicate TurnMirrors(kinds: seq<Kind>, parse: JsonParser, turn: Turn, turn': Turn, ds: Drivers) {
    match turn
    case Again(st1) => turn'.Again? && Mirrors(kinds, parse, st1, turn'.st, ds)
    case Stop(result, st1) =>
      turn'.Stop? && SameResult(kinds, result, turn'.result, ds) && turn'.st == st1.(steps := turn'.st.steps)
    case Hangs => turn'.Hangs?
  }

  lemma AlikeMirrors(kinds: seq<Kind>, parse: JsonParser, st: TState, m: TState, ds: Drivers, st1: TState, m1: TState)
    requires WorkingStack(kinds) && Mirrors(kinds, parse, st, m, ds) && AddedAlike(st, m, st1, m1)
    requires HarmlessState(kinds, parse, st1)
    ensures Mirrors(kinds, parse, st1, m1, ds)
  {
    hide WorkingStack, Recovers, Harmless;
    forall id | id in st1.steps ensures Recovers(kinds, parse, m1.steps[id], st1.steps[id], ds) {
      assert Harmless(kinds, parse, st1.steps[id]);
      HarmlessRecovers(kinds, parse, st1.steps[id], ds);
    }
  }

  lemma MemoizedMirrors(kinds: seq<Kind>, parse: JsonParser, st: TState, m: TState, ds: Drivers, id: HashedId,
                        v: Value, sent: Value)
    requires Mirrors(kinds, parse, st, m, ds) && Recovers(kinds, parse, sent, v, ds)
    ensures Mirrors(kinds, parse, st.Memoize(id, v), m.Memoize(id, sent), ds)
  {
    hide Recovers;
  }

  /** A single response in its sent form. */
  lemma SingleMirrors(kinds: seq<Kind>, cfg: Config, st: TState, m: TState, ds: Drivers, r: StepResponse,
                      sent: StepResponse)
    requires WorkingStack(kinds) && Mirrors(kinds, cfg.setup.parse, st, m, ds)
    requires SentForm(kinds, cfg.setup.parse, r, sent, ds)
    requires HarmlessTurn(kinds, cfg.setup.parse, ApplyOne(r, cfg, st))
    ensures TurnMirrors(kinds, cfg.setup.parse, ApplyOne(r, cfg, st), ApplyOne(sent, cfg, m), ds)
  {
    hide WorkingStack, Harmless, Recovers;
    if HasOutput(r) && r.step.displayName !in cfg.setup.stubs {
      var st1 := ApplyOne(r, cfg, st).st;
      assert r.step.id in st1.steps && st1.steps[r.step.id] == r.output;
      MemoizedMirrors(kinds, cfg.setup.parse, st, m, ds, r.step.id, r.output, sent.output);
    } else {
      assert ApplyOne(sent, cfg, m) == ApplyOne(r, cfg, m);
      OneAlike(r, cfg, st, m);
      if ApplyOne(r, cfg, st).Again? {
        AlikeMirrors(kinds, cfg.setup.parse, st, m, ds, ApplyOne(r, cfg, st).st, ApplyOne(r, cfg, m).st);
      }
    }
  }

  lemma ResponsesMirror(kinds: seq<Kind>, cfg: Config, st: TState, m: TState, ds: Drivers, rs: seq<StepResponse>)
    requires WorkingStack(kinds) && Mirrors(kinds, cfg.setup.parse, st, m, ds)
    requires HarmlessTurn(kinds, cfg.setup.parse, ApplyAll(rs, cfg, st))
    requires !ApplyAll(rs, cfg, st).Stop? || !ApplyAll(rs, cfg, st).result.Completed?
    ensures TurnMirrors(kinds, cfg.setup.parse, ApplyAll(rs, cfg, st), ApplyAll(rs, cfg, m), ds)
  {
    hide WorkingStack, Harmless, Recovers, ApplyAll;
    AllAlike(rs, cfg, st, m);
    if ApplyAll(rs, cfg, st).Again? {
      AlikeMirrors(kinds, cfg.setup.parse, st, m, ds, ApplyAll(rs, cfg, st).st, ApplyAll(rs, cfg, m).st);
    }
  }

  lemma {:induction false} NeverCompletes(rs: seq<StepResponse>, cfg: Config, st: TState)
    ensures var turn := ApplyAll(rs, cfg, st); turn.Stop? ==> !turn.result.Completed?
  {
    if rs != [] {
      var one := ApplyOne(rs[0], cfg, st);
      if one.Again? { NeverCompletes(rs[1..], cfg, one.st); }
    }
  }

  lemma SettleMirrors(kinds: seq<Kind>, cfg: Config, st: TState, m: TState, ds: Drivers, res: CallResult,
                      sent: CallResult)
    requires WorkingStack(kinds) && Mirrors(kinds, cfg.setup.parse, st, m, ds)
    requires Carried(kinds, cfg.setup.parse, res, sent, ds)
    requires HarmlessTurn(kinds, cfg.setup.parse, Settle(res, cfg, st))
    ensures TurnMirrors(kinds, cfg.setup.parse, Settle(res, cfg, st), Settle(sent, cfg, m), ds)
  {
    hide WorkingStack, Harmless, ReadBack, ApplyAll, Recovers, SentForm;
    match res
    case Finished(v) =>
    case Errored(e) =>
    case Multi(rs) =>
      if sent == res {
        NeverCompletes(rs, cfg, st);
        ResponsesMirror(kinds, cfg, st, m, ds, rs);
      } else {
        assert rs == [rs[0]] && sent.results == [sent.results[0]];
        ApplySingle(rs[0], cfg, st);
        ApplySingle(sent.results[0], cfg, m);
        SingleMirrors(kinds, cfg, st, m, ds, rs[0], sent.results[0]);
      }
    case Crashed =>
    case Hung =>
  }

  lemma InvokedMirrors(kinds: seq<Kind>, parse: JsonParser, w: World, st: TState, m: TState, ds: Drivers, ds1: Drivers,
                       res: CallResult, sent: CallResult, log: seq<Event>)
    requires Mirrors(kinds, parse, st, m, ds) && Stores.Keeps(ds, ds1)
    requires (AnswersError(sent) <==> AnswersError(res)) && (Delivered(sent) <==> Delivered(res))
    ensures Mirrors(kinds, parse, Invoked(w, st, res, log), Invoked(w, m, sent, log), ds1)
  {
    hide AnswersError, Delivered, Recovers, Successes;
    forall id | id in st.steps ensures Recovers(kinds, parse, m.steps[id], st.steps[id], ds1) {
      RecoversLater(kinds, parse, m.steps[id], st.steps[id], ds, ds1);
    }
  }

  /** One turn of the loop with the stack mirrors the turn of the loop without. */
  lemma TurnThrough(kinds: seq<Kind>, w: World, cfg: Config, gas: nat, p: Prog, st: TState, m: TState, ds: Drivers)
    requires WorkingStack(kinds) && FreshKeys(ds) && Mirrors(kinds, cfg.setup.parse, st, m, ds)
    requires HarmlessState(kinds, cfg.setup.parse, st)
    requires HarmlessTurn(kinds, cfg.setup.parse, TakeTurn(w, cfg, gas, p, st))
    ensures var (turn', ds1) := TakeTurnThrough(kinds, w, cfg, gas, p, m, ds);
            TurnMirrors(kinds, cfg.setup.parse, TakeTurn(w, cfg, gas, p, st), turn', ds1) && FreshKeys(ds1)
  {
    var parse := cfg.setup.parse;
    ReceivedIsPlain(kinds, parse, st, m, ds);
    assert RequestOf(w, m) == RequestOf(w, st);
    hide WorkingStack, FreshKeys, HarmlessState, HarmlessTurn, Received, Send, Settle, Invoked, RunFunction,
         RequestOf, TurnMirrors, Mirrors, AnswersError, Delivered;
    var (res, s) := RunFunction(gas, p, RequestOf(w, st), FromRaw(parse, st.steps));
    var (sent, ds1) := Send(kinds, ds, res);
    AnswerIsCarried(kinds, parse, ds, res);
    SameErrors(kinds, parse, res, sent, ds1);
    InvokedMirrors(kinds, parse, w, st, m, ds, ds1, res, sent, s.log);
    SettleMirrors(kinds, cfg, Invoked(w, st, res, s.log), Invoked(w, m, sent, s.log), ds1, res, sent);
  }

  // ----- Whole runs -----

  /** Every memo of the plain run, and the output it completes with, is harmless. */
  ghost predicate HarmlessRun(kinds: seq<Kind>, w: World, cfg: Config, gas: nat, p: Prog, st: TState, budget: nat)
    decreases budget
  {
    && HarmlessState(kinds, cfg.setup.parse, st)
    && (budget > 0 ==>
          var turn := TakeTurn(w, cfg, gas, p, st);
          && HarmlessTurn(kinds, cfg.setup.parse, turn)
          && (turn.Again? ==> HarmlessRun(kinds, w, cfg, gas, p, turn.st, budget - 1)))
  }

  ghost predicate SameRun(kinds: seq<Kind>, plain: Option<(Result, TState)>,
                          through: Option<(Result, TState, Drivers)>) {
    && (plain.Some? <==> through.Some?)
    && (plain.Some? ==>
          && SameResult(kinds, plain.value.0, through.value.0, through.value.2)
          && through.value.1 == plain.value.1.(steps := through.value.1.steps))
  }

  /**
   * A stack is transparent to replay, for every program: with working keys, at most one encryption and only
   * harmless values, the loop with the stack makes the same invocations with the same logs and ends like the
   * loop without; an output that it completes with is read back as the plain one.
   */
  lemma {:induction false} StackIsTransparent(kinds: seq<Kind>, w: World, cfg: Config, gas: nat, p: Prog,
                                              st: TState, m: TState, ds: Drivers, budget: nat)
    requires WorkingStack(kinds) && FreshKeys(ds) && Mirrors(kinds, cfg.setup.parse, st, m, ds)
    requires HarmlessRun(kinds, w, cfg, gas, p, st, budget)
    ensures SameRun(kinds, RunTrigger(w, cfg, gas, p, st, budget), RunThrough(kinds, w, cfg, gas, p, m, ds, budget))
    decreases budget
  {
    if budget > 0 {
      hide WorkingStack, FreshKeys, HarmlessState, Mirrors, TakeTurn, TakeTurnThrough, SameResult;
      TurnThrough(kinds, w, cfg, gas, p, st, m, ds);
      var turn := TakeTurn(w, cfg, gas, p, st);
      var (turn', ds1) := TakeTurnThrough(kinds, w, cfg, gas, p, m, ds);
      if turn.Again? {
        StackIsTransparent(kinds, w, cfg, gas, p, turn.st, turn'.st, ds1, budget - 1);
      }
    }
  }

  /** All values of a straight run, and its result, are harmless. */
  ghost predicate HarmlessPlan(kinds: seq<Kind>, parse: JsonParser, pl: Plan) {
    && (forall e :: e in Seen(pl.segs) ==> Harmless(kinds, parse, e.value))
    && (pl.result.Ok? ==> Harmless(kinds, parse, pl.result.v))
  }

  lemma {:induction false} StepsAreSeen(segs: seq<Segment>)
    ensures forall e :: e in Steps(segs) ==> e in Seen(segs)
  {
    if segs != [] { StepsAreSeen(segs[1..]); }
  }

  lemma GoodStateIsHarmless(kinds: seq<Kind>, pl: Plan, w: World, cfg: Config, st: TState)
    requires Inv(pl, w, cfg, st) && HarmlessPlan(kinds, cfg.setup.parse, pl)
    ensures HarmlessState(kinds, cfg.setup.parse, st)
  {
    StepsAreSeen(pl.segs);
    hide Harmless, SuccessesAccounted, StackFits, PlannedFit, FaultsBefore, Steps, Seen;
    forall id | id in st.steps ensures Harmless(kinds, cfg.setup.parse, st.steps[id]) {
      assert id in Ids(Steps(pl.segs));
      var e :| e in Steps(pl.segs) && e.id == id;
    }
  }

  lemma {:induction false} PlannedRunIsHarmless(kinds: seq<Kind>, gas: nat, p: Prog, pl: Plan, w: World, cfg: Config,
                                                st: TState, budget: nat)
    requires TriggerLaws.Planned(gas, p, cfg, pl) && ValidPick(w) && Inv(pl, w, cfg, st) && HarmlessPlan(kinds, cfg.setup.parse, pl)
    ensures HarmlessRun(kinds, w, cfg, gas, p, st, budget)
    decreases budget
  {
    hide TriggerLaws.Planned, ValidPick, Inv, TakeTurn, HarmlessState, Measure;
    GoodStateIsHarmless(kinds, pl, w, cfg, st);
    if budget > 0 {
      TurnMakesProgress(gas, p, pl, w, cfg, st);
      var turn := TakeTurn(w, cfg, gas, p, st);
      match turn
      case Again(st1) =>
        GoodStateIsHarmless(kinds, pl, w, cfg, st1);
        PlannedRunIsHarmless(kinds, gas, p, pl, w, cfg, st1, budget - 1);
      case Stop(result, st1) => FinalIsHarmless(kinds, pl, w, cfg, result, st1);
      case Hangs => assert false;
    }
  }

  lemma FinalIsHarmless(kinds: seq<Kind>, pl: Plan, w: World, cfg: Config, result: Result, st: TState)
    requires Final(pl, w, cfg, result, st) && HarmlessPlan(kinds, cfg.setup.parse, pl)
    ensures HarmlessTurn(kinds, cfg.setup.parse, Stop(result, st))
  {
    hide Harmless, SuccessesAccounted, StackFits, FaultsBefore, Seen, Steps, MemosCorrect, Whole;
  }

  /**
   * Replay through a stack equals the direct run. For a planned program and a stack with working keys and at
   * most one encryption, if no value of the run looks like nested output, like sealed data under encryption
   * or like a placeholder under remote state: the loop with the stack completes, with an output that is read
   * back as the value of a run without memoization and middleware, if and only if at most as many invocations
   * answered an error as may be retried.
   */
  lemma {:induction false} StackReplayEqualsDirect(kinds: seq<Kind>, gas: nat, p: Prog, pl: Plan, w: World, cfg: Config,
                                                   ds: Drivers, budget: nat)
    requires TriggerLaws.Planned(gas, p, cfg, pl) && ValidPick(w) && budget >= Bound(pl, cfg)
    requires WorkingStack(kinds) && FreshKeys(ds) && HarmlessPlan(kinds, cfg.setup.parse, pl)
    ensures var direct := DirectEval(gas, p, cfg.setup.stubs);
            var r := RunThrough(kinds, w, cfg, gas, p, START, ds, budget);
            && direct.Some? && r.Some?
            && (direct.value.Ok? ==>
                  && (r.value.0.Completed? <==> r.value.1.errors <= cfg.MaxAttempt())
                  && (r.value.0.Completed? ==> ReadBack(kinds, r.value.0.output, direct.value.v, r.value.2))
                  && (!r.value.0.Completed? ==> r.value.0.Failure? && r.value.0.error.Transient?))
            && (direct.value.Failed? && (forall n :: QuietAt(w, n)) ==> r.value.0 == Failure(direct.value.e))
  {
    NoneShapedPlan(kinds, cfg.setup.parse, pl);
    ReplayEqualsDirect(gas, p, pl, w, cfg, budget);
    StartInv(pl, w, cfg);
    PlannedRunIsHarmless(kinds, gas, p, pl, w, cfg, START, budget);
    StackIsTransparent(kinds, w, cfg, gas, p, START, START, ds, budget);
  }

  lemma NoneShapedPlan(kinds: seq<Kind>, parse: JsonParser, pl: Plan)
    requires HarmlessPlan(kinds, parse, pl)
    ensures NoneShaped(Seen(pl.segs), parse)
  {
    hide Seen, Encryptions, Remembering, OutputShaped;
    forall i | 0 <= i < |Seen(pl.segs)| ensures !OutputShaped(parse, Seen(pl.segs)[i].value) {
      assert Seen(pl.segs)[i] in Seen(pl.segs);
    }
  }
}
