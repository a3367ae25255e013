/** The steps a function makes on its straight run, and how far a set of memos gets along them. */
module Plans {
  import opened Values
  import opened StepIds
  import opened Memos
  import opened Programs
  import opened Engine

  /** One step of the straight run. `value` is its raw memo; `runs` means that a handler produces it. */
  datatype Entry = Entry(raw: string, id: HashedId, op: Opcode, value: Value, runs: bool)

  /**
   * The straight run is a list of single steps and groups. `Lanes` has one lane of steps per callback; if a
   * callback raises, its lane decides when the group is over. `Heads` is a group that a callback fails at once,
   * before any step: of the callbacks before it no more than the first step is ever reached.
   */
  datatype Segment =
    | One(e: Entry)
    | Lanes(lanes: seq<seq<Entry>>, decides: Option<seq<Entry>>)
    | Heads(lanes: seq<seq<Entry>>)

  /**
   * `steady` means that the environment cannot raise outside of step handlers; `calm` that no result of a
   * handler can be lost because a later callback of its group raises.
   */
  datatype Plan = Plan(segs: seq<Segment>, counts: Counts, result: StepResult, steady: bool, calm: bool)

  /** The callback that raises, with the steps that it makes before. */
  datatype Culprit = Culprit(lane: seq<Entry>, e: Err)

  datatype LanePlans =
    LanePlans(lanes: seq<seq<Entry>>, counts: Counts, outputs: seq<Value>, raised: Option<Culprit>, steady: bool)
  {
    function Result(): GroupResult {
      if raised.Some? then GroupFailed(raised.value.e) else Outputs(outputs)
    }

    function Decides(): Option<seq<Entry>> {
      if raised.Some? then Some(raised.value.lane) else None
    }

    /** No callback but the one that raises makes steps. */
    predicate Alone() {
      raised.Some? ==> LaneEntries(lanes) == raised.value.lane
    }
  }

  datatype HeadPlans = HeadPlans(lanes: seq<seq<Entry>>, counts: Counts, e: Err, steady: bool)

  /** What the executor is set up with. */
  datatype Setup = Setup(stubs: Stubs, parse: JsonParser)

  function LaneEntries(lanes: seq<seq<Entry>>): seq<Entry> {
    if lanes == [] then [] else lanes[0] + LaneEntries(lanes[1..])
  }

  function Head(lane: seq<Entry>): seq<Entry> {
    if lane == [] then [] else [lane[0]]
  }

  function HeadEntries(lanes: seq<seq<Entry>>): seq<Entry> {
    if lanes == [] then [] else Head(lanes[0]) + HeadEntries(lanes[1..])
  }

  function SegmentEntries(seg: Segment): seq<Entry> {
    match seg
    case One(e) => [e]
    case Lanes(lanes, _) => LaneEntries(lanes)
    case Heads(lanes) => HeadEntries(lanes)
  }

  /** All steps that an invocation can report. */
  function Entries(segs: seq<Segment>): seq<Entry> {
    if segs == [] then [] else SegmentEntries(segs[0]) + Entries(segs[1..])
  }

  /** The steps that get memos. */
  function Steps(segs: seq<Segment>): seq<Entry> {
    if segs == [] then []
    else (if segs[0].Heads? then [] else SegmentEntries(segs[0])) + Steps(segs[1..])
  }

  /** The steps that are reported but never get memos. */
  function Barred(segs: seq<Segment>): seq<Entry> {
    if segs == [] then []
    else (if segs[0].Heads? then SegmentEntries(segs[0]) else []) + Barred(segs[1..])
  }

  /** All steps of the straight run. */
  function Seen(segs: seq<Segment>): seq<Entry> {
    if segs == [] then []
    else (if segs[0].Heads? then LaneEntries(segs[0].lanes) else SegmentEntries(segs[0])) + Seen(segs[1..])
  }

  predicate Flat(segs: seq<Segment>) {
    forall i :: 0 <= i < |segs| ==> segs[i].One?
  }

  function Raws(es: seq<Entry>): set<string> {
    set e | e in es :: e.raw
  }

  function Ids(es: seq<Entry>): set<HashedId> {
    set e | e in es :: e.id
  }

  ghost predicate DistinctIds(es: seq<Entry>) {
    forall i, j :: 0 <= i < j < |es| ==> es[i].id != es[j].id
  }

  /** How often the steps use the ID `raw`. */
  function Uses(es: seq<Entry>, raw: string): nat {
    if es == [] then 0 else (if es[0].raw == raw then 1 else 0) + Uses(es[1..], raw)
  }

  /** All steps but the first. */
  function Tail(lane: seq<Entry>): seq<Entry> {
    if lane == [] then [] else lane[1..]
  }

  /** No step ID that a callback uses after its first step is used by a later callback. */
  predicate TailsUnused(lanes: seq<seq<Entry>>) {
    lanes != [] ==> Raws(Tail(lanes[0])) * Raws(LaneEntries(lanes[1..])) == {} && TailsUnused(lanes[1..])
  }

  /** User code lets errors of the environment pass through a group. */
  ghost predicate Transparent(gk: GroupResult -> Prog) {
    forall m :: gk(GroupFailed(Transient(m))) == Raise(Transient(m))
  }

  /**
   * The straight run of `p` with the step IDs it uses, starting from ID counts `c`. `None` when the program
   * is outside the class the replay theorem is about: it does not finish within `gas` calls, nests groups,
   * uses a step ID of a callback, other than that of its first step, in a later callback of the group, catches
   * errors around a group whose callbacks the environment can make raise, has a handler that contains steps
   * or always raises, or a step that neither a handler, a sleep nor a stub resolves. A callback may raise if it
   * is the first one to do so and raises before its first step, or it is the only one to do so, and no other
   * callback makes steps or the code after the group makes none.
   */
  ghost function PlanOf(gas: nat, p: Prog, c: Counts, su: Setup): Option<Plan>
    decreases gas, 0
  {
    if gas == 0 then None
    else
      match p
      case Return(v) => Some(Plan([], c, Ok(v), true, true))
      case Raise(e) => if e.Transient? then None else Some(Plan([], c, Failed(e), true, true))
      case Flaky(_, next) =>
        var rest := PlanOf(gas - 1, next, c, su);
        if rest.None? then None else Some(rest.value.(steady := false))
      case Step(id, op, handler, k) =>
        var given := PlanStep(gas - 1, id, op, handler, su);
        if given.None? then None
        else
          var e := Entry(id, PreHash(id, Count(c, id)), op, given.value, op.StepRun? && id !in su.stubs);
          var rest := PlanOf(gas - 1, k(MemoResult(Decode(su.parse, e.value))), Bump(c, id), su);
          if rest.None? then None else Some(rest.value.(segs := [One(e)] + rest.value.segs))
      case Parallel(callbacks, _, gk) =>
        if FailsAtOnce(gas - 1, callbacks, c, su) then PlanFailing(gas - 1, callbacks, gk, c, su)
        else PlanGroup(gas - 1, callbacks, gk, c, su)
  }

  ghost predicate FailsAtOnce(gas: nat, callbacks: seq<Prog>, c: Counts, su: Setup)
    decreases gas, |callbacks| + 1
  {
    PlanHeads(gas, callbacks, c, su).Some?
  }

  /** A group that ends with the outputs of its callbacks or with the error of one, and the code after it. */
  ghost function PlanGroup(gas: nat, callbacks: seq<Prog>, gk: GroupResult -> Prog, c: Counts, su: Setup): Option<Plan>
    decreases gas, |callbacks| + 1
  {
    var lanes := PlanLanes(gas, callbacks, c, su);
    if lanes.None? then None
    else
      var ls := lanes.value;
      var rest := PlanOf(gas, gk(ls.Result()), ls.counts, su);
      if rest.None? || !TailsUnused(ls.lanes) || !(ls.steady || Transparent(gk)) then None
      else if !ls.Alone() && Entries(rest.value.segs) != [] then None
      else
        Some(rest.value.(segs := [Lanes(ls.lanes, ls.Decides())] + rest.value.segs,
                         steady := rest.value.steady && ls.steady,
                         calm := rest.value.calm && ls.steady && ls.Alone()))
  }

  /** A group that a callback fails at once, and the code after it. */
  ghost function PlanFailing(gas: nat, callbacks: seq<Prog>, gk: GroupResult -> Prog, c: Counts,
                             su: Setup): Option<Plan>
    requires FailsAtOnce(gas, callbacks, c, su)
    decreases gas, |callbacks| + 2
  {
    var hs := PlanHeads(gas, callbacks, c, su).value;
    var rest := PlanOf(gas, gk(GroupFailed(hs.e)), hs.counts, su);
    if rest.None? || !(hs.steady || Transparent(gk)) then None
    else Some(rest.value.(segs := [Heads(hs.lanes)] + rest.value.segs, steady := rest.value.steady && hs.steady))
  }

  ghost function PlanStep(gas: nat, id: string, op: Opcode, handler: Prog, su: Setup): Option<Value>
    decreases gas, 1
  {
    if id in su.stubs then Some(StubValue(su.stubs[id]))
    else if op.Sleep? then Some(Null)
    else if op.StepRun? then
      var h := PlanOf(gas, handler, map[], su);
      if h.Some? && h.value.segs == [] && h.value.result.Ok? then Some(h.value.result.v) else None
    else None
  }

  /** The callbacks of a group; one of them may raise, after its first step. */
  ghost function PlanLanes(gas: nat, callbacks: seq<Prog>, c: Counts, su: Setup): Option<LanePlans>
    decreases gas, |callbacks|
  {
    if callbacks == [] then Some(LanePlans([], c, [], None, true))
    else
      var plan := PlanOf(gas, callbacks[0], c, su);
      if plan.None? || !Flat(plan.value.segs) || (plan.value.result.Failed? && plan.value.segs == []) then None
      else
        var first := plan.value;
        var rest := PlanLanes(gas, callbacks[1..], first.counts, su);
        if rest.None? || (first.result.Failed? && rest.value.raised.Some?) then None
        else Some(JoinLanes(first, rest.value))
  }

  function JoinLanes(first: Plan, rest: LanePlans): LanePlans {
    var lane := Entries(first.segs);
    LanePlans([lane] + rest.lanes, rest.counts,
              (if first.result.Ok? then [first.result.v] else []) + rest.outputs,
              if first.result.Ok? then rest.raised else Some(Culprit(lane, first.result.e)),
              first.steady && rest.steady)
  }

  /** The callbacks of a group up to the first one that raises, if that one raises before its first step. */
  ghost function PlanHeads(gas: nat, callbacks: seq<Prog>, c: Counts, su: Setup): Option<HeadPlans>
    decreases gas, |callbacks|
  {
    if callbacks == [] then None
    else
      var plan := PlanOf(gas, callbacks[0], c, su);
      if plan.None? || !Flat(plan.value.segs) then None
      else
        var first := plan.value;
        if first.result.Failed? then
          if first.segs == [] then Some(HeadPlans([], c, first.result.e, first.steady)) else None
        else
          var lane := Entries(first.segs);
          var rest := PlanHeads(gas, callbacks[1..], CountHead(lane, c), su);
          if rest.None? then None
          else Some(rest.value.(lanes := [lane] + rest.value.lanes, steady := first.steady && rest.value.steady))
  }

  function CountHead(lane: seq<Entry>, c: Counts): Counts {
    if lane == [] then c else Bump(c, lane[0].raw)
  }

  /** `pl` is a group planned as `ls`, followed by `rest`. */
  ghost predicate StartsWithGroup(pl: Plan, ls: LanePlans, rest: Plan) {
    && pl == rest.(segs := [Lanes(ls.lanes, ls.Decides())] + rest.segs, steady := rest.steady && ls.steady,
                   calm := rest.calm && ls.steady && ls.Alone())
    && TailsUnused(ls.lanes)
    && (ls.Alone() || Entries(rest.segs) == [])
  }

  lemma UnfoldGroup(gas: nat, callbacks: seq<Prog>, mode: ParallelMode, gk: GroupResult -> Prog, pl: Plan, c: Counts,
                    su: Setup)
    returns (ls: LanePlans, rest: Plan)
    requires PlanOf(gas + 1, Parallel(callbacks, mode, gk), c, su) == Some(pl) && !FailsAtOnce(gas, callbacks, c, su)
    ensures PlanLanes(gas, callbacks, c, su) == Some(ls) && PlanOf(gas, gk(ls.Result()), ls.counts, su) == Some(rest)
    ensures StartsWithGroup(pl, ls, rest) && (ls.steady || Transparent(gk))
  {
    assert PlanGroup(gas, callbacks, gk, c, su) == Some(pl);
    hide TailsUnused, Transparent, FailsAtOnce;
    ls := PlanLanes(gas, callbacks, c, su).value;
    rest := PlanOf(gas, gk(ls.Result()), ls.counts, su).value;
  }

  /** `pl` is a group that fails at once, planned as `hs`, followed by `rest`. */
  ghost predicate StartsWithHeads(pl: Plan, hs: HeadPlans, rest: Plan) {
    pl == rest.(segs := [Heads(hs.lanes)] + rest.segs, steady := rest.steady && hs.steady)
  }

  lemma UnfoldFailing(gas: nat, callbacks: seq<Prog>, mode: ParallelMode, gk: GroupResult -> Prog, pl: Plan,
                      c: Counts, su: Setup)
    returns (hs: HeadPlans, rest: Plan)
    requires PlanOf(gas + 1, Parallel(callbacks, mode, gk), c, su) == Some(pl) && FailsAtOnce(gas, callbacks, c, su)
    ensures PlanHeads(gas, callbacks, c, su) == Some(hs) && PlanOf(gas, gk(GroupFailed(hs.e)), hs.counts, su) == Some(rest)
    ensures StartsWithHeads(pl, hs, rest) && (hs.steady || Transparent(gk))
  {
    assert PlanFailing(gas, callbacks, gk, c, su) == Some(pl);
    hs := PlanHeads(gas, callbacks, c, su).value;
    hide Transparent;
    rest := PlanOf(gas, gk(GroupFailed(hs.e)), hs.counts, su).value;
  }

  // ----- The frontier: the steps that come next, given the memoized ones -----

  function LaneFront(lane: seq<Entry>, done: set<HashedId>): seq<Entry> {
    if lane == [] then [] else if lane[0].id in done then LaneFront(lane[1..], done) else [lane[0]]
  }

  function Fronts(lanes: seq<seq<Entry>>, done: set<HashedId>): seq<Entry> {
    if lanes == [] then [] else LaneFront(lanes[0], done) + Fronts(lanes[1..], done)
  }

  /** The first un-memoized step of every callback, unless the lane that decides is complete. */
  function GroupFront(lanes: seq<seq<Entry>>, decides: Option<seq<Entry>>, done: set<HashedId>): seq<Entry> {
    if decides.Some? && LaneFront(decides.value, done) == [] then [] else Fronts(lanes, done)
  }

  function SegmentFront(seg: Segment, done: set<HashedId>): seq<Entry> {
    match seg
    case One(e) => if e.id in done then [] else [e]
    case Lanes(lanes, decides) => GroupFront(lanes, decides, done)
    case Heads(_) => []
  }

  /** The first un-memoized step of every callback of the group that is in progress, or the next single step. */
  function Frontier(segs: seq<Segment>, done: set<HashedId>): seq<Entry> {
    if segs == [] then []
    else
      var front := SegmentFront(segs[0], done);
      if front != [] then front else Frontier(segs[1..], done)
  }

  // ----- The straight run is the direct run -----

  ghost predicate NoneShaped(es: seq<Entry>, parse: JsonParser) {
    forall i :: 0 <= i < |es| ==> !OutputShaped(parse, es[i].value)
  }

  lemma NoneShapedConcat(a: seq<Entry>, b: seq<Entry>, parse: JsonParser)
    requires NoneShaped(a + b, parse)
    ensures NoneShaped(a, parse) && NoneShaped(b, parse)
  {
    forall i | 0 <= i < |a| ensures !OutputShaped(parse, a[i].value) {
      assert (a + b)[i] == a[i];
    }
    forall i | 0 <= i < |b| ensures !OutputShaped(parse, b[i].value) {
      assert (a + b)[|a| + i] == b[i];
    }
  }

  lemma EntriesCons(seg: Segment, rest: seq<Segment>)
    ensures Entries([seg] + rest) == SegmentEntries(seg) + Entries(rest)
    ensures Steps([seg] + rest) == (if seg.Heads? then [] else SegmentEntries(seg)) + Steps(rest)
    ensures Barred([seg] + rest) == (if seg.Heads? then SegmentEntries(seg) else []) + Barred(rest)
    ensures Seen([seg] + rest) == (if seg.Heads? then LaneEntries(seg.lanes) else SegmentEntries(seg)) + Seen(rest)
  {
    assert ([seg] + rest)[1..] == rest;
  }

  /** In a flat piece of code all steps get memos. */
  lemma {:induction false} FlatSteps(segs: seq<Segment>)
    requires Flat(segs)
    ensures Steps(segs) == Entries(segs) && Seen(segs) == Entries(segs) && Barred(segs) == []
  {
    if segs != [] { FlatSteps(segs[1..]); }
  }

  lemma LaneEntriesCons(lane: seq<Entry>, rest: seq<seq<Entry>>)
    ensures LaneEntries([lane] + rest) == lane + LaneEntries(rest)
  {
    assert ([lane] + rest)[1..] == rest;
  }

  /** When no memo looks like nested output, the planned run is what a run without memoization computes. */
  lemma {:induction false} PlanIsDirect(gas: nat, p: Prog, c: Counts, su: Setup)
    requires PlanOf(gas, p, c, su).Some?
    requires NoneShaped(Seen(PlanOf(gas, p, c, su).value.segs), su.parse)
    ensures DirectEval(gas, p, su.stubs) == Some(PlanOf(gas, p, c, su).value.result)
    decreases gas, 0
  {
    var pl := PlanOf(gas, p, c, su).value;
    match p
    case Return(_) =>
    case Raise(_) =>
    case Flaky(_, next) => PlanIsDirect(gas - 1, next, c, su);
    case Step(id, op, handler, k) =>
      PlanStepIsDirect(gas - 1, id, op, handler, su);
      var value := PlanStep(gas - 1, id, op, handler, su).value;
      var e := Entry(id, PreHash(id, Count(c, id)), op, value, op.StepRun? && id !in su.stubs);
      var rest := PlanOf(gas - 1, k(MemoResult(Decode(su.parse, value))), Bump(c, id), su).value;
      EntriesCons(One(e), rest.segs);
      NoneShapedConcat([e], Seen(rest.segs), su.parse);
      assert !OutputShaped(su.parse, [e][0].value);
      PlanIsDirect(gas - 1, k(Ok(value)), Bump(c, id), su);
    case Parallel(callbacks, mode, gk) => PlanGroupIsDirect(gas - 1, callbacks, mode, gk, pl, c, su);
  }

  lemma {:induction false} PlanGroupIsDirect(gas: nat, callbacks: seq<Prog>, mode: ParallelMode,
                                             gk: GroupResult -> Prog,
                                             pl: Plan, c: Counts, su: Setup)
    requires PlanOf(gas + 1, Parallel(callbacks, mode, gk), c, su) == Some(pl) && NoneShaped(Seen(pl.segs), su.parse)
    ensures DirectEval(gas + 1, Parallel(callbacks, mode, gk), su.stubs) == Some(pl.result)
    decreases gas, |callbacks| + 1
  {
    hide PlanOf, PlanLanes, PlanHeads, FailsAtOnce, LaneEntries, Seen, NoneShaped, TailsUnused;
    if FailsAtOnce(gas, callbacks, c, su) {
      var hs, rest := UnfoldFailing(gas, callbacks, mode, gk, pl, c, su);
      EntriesCons(Heads(hs.lanes), rest.segs);
      NoneShapedConcat(LaneEntries(hs.lanes), Seen(rest.segs), su.parse);
      PlanHeadsIsDirect(gas, callbacks, c, su);
      PlanIsDirect(gas, gk(GroupFailed(hs.e)), hs.counts, su);
    } else {
      var ls, rest := UnfoldGroup(gas, callbacks, mode, gk, pl, c, su);
      EntriesCons(Lanes(ls.lanes, ls.Decides()), rest.segs);
      NoneShapedConcat(LaneEntries(ls.lanes), Seen(rest.segs), su.parse);
      PlanLanesIsDirect(gas, callbacks, c, su);
      PlanIsDirect(gas, gk(ls.Result()), ls.counts, su);
    }
  }

  lemma {:induction false} PlanStepIsDirect(gas: nat, id: string, op: Opcode, handler: Prog, su: Setup)
    requires PlanStep(gas, id, op, handler, su).Some?
    ensures DirectStep(gas, id, op, handler, su.stubs) == PlanStep(gas, id, op, handler, su)
    decreases gas, 1
  {
    if id !in su.stubs && op.StepRun? {
      PlanIsDirect(gas, handler, map[], su);
    }
  }

  lemma {:induction false} PlanLanesIsDirect(gas: nat, callbacks: seq<Prog>, c: Counts, su: Setup)
    requires PlanLanes(gas, callbacks, c, su).Some?
    requires NoneShaped(LaneEntries(PlanLanes(gas, callbacks, c, su).value.lanes), su.parse)
    ensures DirectGroup(gas, callbacks, su.stubs) == Some(PlanLanes(gas, callbacks, c, su).value.Result())
    decreases gas, |callbacks|
  {
    if callbacks != [] {
      var first := PlanOf(gas, callbacks[0], c, su).value;
      var rest := PlanLanes(gas, callbacks[1..], first.counts, su).value;
      var lane := Entries(first.segs);
      LaneEntriesCons(lane, rest.lanes);
      NoneShapedConcat(lane, LaneEntries(rest.lanes), su.parse);
      FlatSteps(first.segs);
      PlanIsDirect(gas, callbacks[0], c, su);
      PlanLanesIsDirect(gas, callbacks[1..], first.counts, su);
    }
  }

  lemma {:induction false} PlanHeadsIsDirect(gas: nat, callbacks: seq<Prog>, c: Counts, su: Setup)
    requires PlanHeads(gas, callbacks, c, su).Some?
    requires NoneShaped(LaneEntries(PlanHeads(gas, callbacks, c, su).value.lanes), su.parse)
    ensures DirectGroup(gas, callbacks, su.stubs) == Some(GroupFailed(PlanHeads(gas, callbacks, c, su).value.e))
    decreases gas, |callbacks|
  {
    var first := PlanOf(gas, callbacks[0], c, su).value;
    var lane := Entries(first.segs);
    FlatSteps(first.segs);
    if first.result.Failed? {
      PlanIsDirect(gas, callbacks[0], c, su);
    } else {
      var rest := PlanHeads(gas, callbacks[1..], CountHead(lane, c), su).value;
      LaneEntriesCons(lane, rest.lanes);
      NoneShapedConcat(lane, LaneEntries(rest.lanes), su.parse);
      PlanIsDirect(gas, callbacks[0], c, su);
      PlanHeadsIsDirect(gas, callbacks[1..], CountHead(lane, c), su);
    }
  }
}
