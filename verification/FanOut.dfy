/** The usual fan-out: one step per item of a list, in a group, all with the same step ID. */
module FanOut {
  import opened Values
  import opened StepIds
  import opened Memos
  import opened Programs
  import opened Engine
  import opened Plans
  import opened Trigger
  import opened TriggerLaws
  import opened Counterexamples

  function Callbacks(id: string, items: seq<int>): seq<Prog> {
    if items == [] then [] else [Constant(id, items[0], Echo)] + Callbacks(id, items[1..])
  }

  /** Every callback runs the step `id` with its own item. */
  function Each(id: string, items: seq<int>): Prog {
    Parallel(Callbacks(id, items), Wait, Bundle)
  }

  function Numbers(items: seq<int>): seq<Value> {
    if items == [] then [] else [Num(items[0])] + Numbers(items[1..])
  }

  /** One lane with one step per item; the steps are numbered from `n` on. */
  function EachLane(id: string, items: seq<int>, n: nat): seq<seq<Entry>> {
    if items == [] then []
    else [[Entry(id, PreHash(id, n), StepRun, Num(items[0]), true)]] + EachLane(id, items[1..], n + 1)
  }

  lemma OnePlan(gas: nat, id: string, item: int, c: Counts, su: Setup)
    requires gas >= 2 && id !in su.stubs
    ensures PlanOf(gas, Constant(id, item, Echo), c, su) ==
            Some(Plan([One(Entry(id, PreHash(id, Count(c, id)), StepRun, Num(item), true))], Bump(c, id), Ok(Num(item)), true, true))
  {
    hide PreHash;
    var k := Echo(MemoResult(Decode(su.parse, Num(item))));
    assert k == Return(Num(item));
    assert PlanOf(gas - 1, k, Bump(c, id), su) == Some(Plan([], Bump(c, id), Ok(Num(item)), true, true));
    assert PlanStep(gas - 1, id, StepRun, Return(Num(item)), su) == Some(Num(item));
    var e := Entry(id, PreHash(id, Count(c, id)), StepRun, Num(item), true);
    assert [One(e)] + [] == [One(e)];
  }

  lemma {:induction false} LanesPlan(gas: nat, id: string, items: seq<int>, c: Counts,
                                     su: Setup) returns (counts: Counts)
    requires gas >= 2 && id !in su.stubs
    ensures PlanLanes(gas, Callbacks(id, items), c, su) ==
            Some(LanePlans(EachLane(id, items, Count(c, id)), counts, Numbers(items), None, true))
    ensures PlanHeads(gas, Callbacks(id, items), c, su).None?
  {
    if items == [] {
      counts := c;
    } else {
      hide PreHash, PlanOf;
      OnePlan(gas, id, items[0], c, su);
      BumpCounts(c, id, id);
      counts := LanesPlan(gas, id, items[1..], Bump(c, id), su);
      var all := Callbacks(id, items);
      assert all[0] == Constant(id, items[0], Echo) && all[1..] == Callbacks(id, items[1..]);
      var e := Entry(id, PreHash(id, Count(c, id)), StepRun, Num(items[0]), true);
      assert Entries([One(e)]) == [e] by { assert [One(e)][1..] == []; }
    }
  }

  lemma {:induction false} LanesFacts(id: string, items: seq<int>, n: nat)
    ensures var lanes := EachLane(id, items, n);
            && TailsUnused(lanes)
            && |LaneEntries(lanes)| == |items|
            && forall i :: 0 <= i < |items| ==>
                 LaneEntries(lanes)[i] == Entry(id, PreHash(id, n + i), StepRun, Num(items[i]), true)
  {
    if items != [] {
      hide PreHash;
      LanesFacts(id, items[1..], n + 1);
      var lanes := EachLane(id, items, n);
      assert lanes[1..] == EachLane(id, items[1..], n + 1);
      assert Tail(lanes[0]) == [];
      forall i | 0 <= i < |items|
        ensures LaneEntries(lanes)[i] == Entry(id, PreHash(id, n + i), StepRun, Num(items[i]), true)
      {
        if i > 0 { assert LaneEntries(lanes)[i] == LaneEntries(lanes[1..])[i - 1] && items[1..][i - 1] == items[i]; }
      }
    }
  }

  lemma TextsDiffer(id: string, i: nat, j: nat)
    requires i != j
    ensures PreHash(id, i) != PreHash(id, j)
  {
    if PreHash(id, i) == PreHash(id, j) { PreHashInjective(id, i, id, j); }
  }

  lemma EachIsPlanned(gas: nat, id: string, items: seq<int>, cfg: Config) returns (pl: Plan)
    requires gas >= 3 && id !in cfg.setup.stubs
    ensures TriggerLaws.Planned(gas, Each(id, items), cfg, pl)
    ensures pl.result == Ok(List(Numbers(items))) && |Steps(pl.segs)| == |items|
  {
    hide PreHash, PlanLanes, PlanHeads, TailsUnused, LaneEntries, EachLane;
    var counts := LanesPlan(gas - 1, id, items, map[], cfg.setup);
    var lanes := EachLane(id, items, 0);
    LanesFacts(id, items, 0);
    assert Count(map[], id) == 0 by { NothingCounted(id); }
    pl := Plan([Lanes(lanes, None)], counts, Ok(List(Numbers(items))), true, true);
    assert PlanOf(gas - 1, Return(List(Numbers(items))), counts, cfg.setup) == Some(pl.(segs := []));
    assert Bundle(Outputs(Numbers(items))) == Return(List(Numbers(items)));
    assert [Lanes(lanes, None)] + [] == [Lanes(lanes, None)];
    assert PlanGroup(gas - 1, Callbacks(id, items), Bundle, map[], cfg.setup) == Some(pl);
    assert !FailsAtOnce(gas - 1, Callbacks(id, items), map[], cfg.setup);
    assert PlanOf(gas, Each(id, items), map[], cfg.setup) == Some(pl) by { hide PlanGroup; }
    assert Entries(pl.segs) == LaneEntries(lanes) && Steps(pl.segs) == LaneEntries(lanes) by { assert pl.segs[1..] == []; }
    forall i, j | 0 <= i < j < |items| ensures LaneEntries(lanes)[i].id != LaneEntries(lanes)[j].id {
      TextsDiffer(id, i, j);
    }
  }

  /**
   * A fan-out over any list completes with the results in the order of the list, whichever planned step the
   * executor takes first, although all its steps have one ID.
   */
  lemma {:induction false} FanOutCompletes(gas: nat, id: string, items: seq<int>, w: World, cfg: Config, budget: nat)
    requires gas >= 3 && id !in cfg.setup.stubs && ValidPick(w) && forall n :: QuietAt(w, n)
    requires budget >= 2 * |items| + 2 * (cfg.MaxAttempt() + 1)
    ensures var r := RunTrigger(w, cfg, gas, Each(id, items), START, budget);
            r.Some? && r.value.0 == Completed(List(Numbers(items)))
  {
    var pl := EachIsPlanned(gas, id, items, cfg);
    hide Each, TriggerLaws.Planned, QuietAt, FaultsBefore;
    IdsAtMost(Steps(pl.segs));
    TriggerEnds(gas, Each(id, items), pl, w, cfg, budget);
    NoFaults(w, RunTrigger(w, cfg, gas, Each(id, items), START, budget).value.1.n);
  }

  lemma {:induction false} IdsAtMost(es: seq<Entry>)
    ensures |Ids(es)| <= |es|
  {
    if es != [] {
      IdsAtMost(es[1..]);
      assert Ids(es) == {es[0].id} + Ids(es[1..]) by { assert es == [es[0]] + es[1..]; }
    } else {
      assert Ids(es) == {};
    }
  }
}
