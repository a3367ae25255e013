/** How many disturbed invocations the retries of the executor loop make up for. */
module Retries {
  import opened Values
  import opened Memos
  import opened Programs
  import opened Engine
  import opened Plans
  import opened Trigger
  import opened TriggerLaws

  /** If the environment disturbs at most as many invocations as may be retried, the loop gives the direct value. */
  lemma FewFaultsComplete(gas: nat, p: Prog, pl: Plan, w: World, cfg: Config, budget: nat)
    requires TriggerLaws.Planned(gas, p, cfg, pl) && NoneShaped(Seen(pl.segs), cfg.setup.parse) && pl.result.Ok?
    requires ValidPick(w) && budget >= Bound(pl, cfg) && forall n :: FaultsBefore(w, n) <= cfg.MaxAttempt()
    ensures var direct := DirectEval(gas, p, cfg.setup.stubs);
            var r := RunTrigger(w, cfg, gas, p, START, budget);
            direct.Some? && direct.value.Ok? && r.Some? && r.value.0 == Completed(direct.value.v)
  {
    PlanIsDirect(gas, p, map[], cfg.setup);
    ReplayEqualsDirect(gas, p, pl, w, cfg, budget);
  }

  /** Exactly the first `k` invocations are disturbed, and each of them at `site`. */
  ghost predicate DisturbedUntil(w: World, site: string, k: nat) {
    forall n: nat :: if n < k then w.fault(n)(site).Some? else QuietAt(w, n)
  }

  lemma {:induction false} FaultsAtMost(w: World, site: string, k: nat, n: nat)
    requires DisturbedUntil(w, site, k)
    ensures FaultsBefore(w, n) <= k && FaultsBefore(w, n) <= n
  {
    hide QuietAt;
    if n > 0 {
      FaultsAtMost(w, site, k, n - 1);
      assert n - 1 >= k ==> QuietAt(w, n - 1);
    }
  }

  lemma DisturbedTurn(gas: nat, site: string, next: Prog, w: World, cfg: Config, st: TState)
    requires gas > 0 && w.fault(st.n)(site).Some?
    ensures var turn := TakeTurn(w, cfg, gas, Flaky(site, next), st);
            if st.attempt >= cfg.MaxAttempt() then turn.Stop? && turn.result.Failure?
            else turn.Again? && turn.st.attempt == st.attempt + 1 && turn.st.n == st.n + 1
  {
    hide Successes;
    TurnSettles(gas, Flaky(site, next), w, cfg, st);
  }

  lemma {:induction false} AllDisturbed(gas: nat, site: string, next: Prog, w: World, cfg: Config, k: nat, st: TState,
                                        budget: nat)
    requires gas > 0 && DisturbedUntil(w, site, k) && k > cfg.MaxAttempt()
    requires st.n == st.attempt <= cfg.MaxAttempt()
    ensures var r := RunTrigger(w, cfg, gas, Flaky(site, next), st, budget); r.Some? ==> r.value.0.Failure?
    decreases budget
  {
    hide TakeTurn;
    if budget > 0 {
      DisturbedTurn(gas, site, next, w, cfg, st);
      var turn := TakeTurn(w, cfg, gas, Flaky(site, next), st);
      if turn.Again? { AllDisturbed(gas, site, next, w, cfg, k, turn.st, budget - 1); }
    }
  }

  /**
   * That number is exact: a function that the environment can disturb before its first step, and does disturb
   * in exactly its first `k` invocations, completes if and only if `k` errors may be retried.
   */
  lemma {:induction false} RetriesAreExact(gas: nat, site: string, next: Prog, pl: Plan, w: World, cfg: Config,
                                           k: nat, budget: nat)
    requires TriggerLaws.Planned(gas, Flaky(site, next), cfg, pl) && NoneShaped(Seen(pl.segs), cfg.setup.parse) && pl.result.Ok?
    requires ValidPick(w) && budget >= Bound(pl, cfg) && DisturbedUntil(w, site, k)
    ensures var direct := DirectEval(gas, Flaky(site, next), cfg.setup.stubs);
            var r := RunTrigger(w, cfg, gas, Flaky(site, next), START, budget);
            && direct.Some? && direct.value.Ok? && r.Some?
            && (r.value.0 == Completed(direct.value.v) <==> k <= cfg.MaxAttempt())
  {
    PlanIsDirect(gas, Flaky(site, next), map[], cfg.setup);
    ReplayEqualsDirect(gas, Flaky(site, next), pl, w, cfg, budget);
    hide PlanOf, DirectEval, RunTrigger, FaultsBefore;
    if k <= cfg.MaxAttempt() {
      FaultsAtMost(w, site, k, RunTrigger(w, cfg, gas, Flaky(site, next), START, budget).value.1.n);
    } else {
      AllDisturbed(gas, site, next, w, cfg, k, START, budget);
    }
  }
}
