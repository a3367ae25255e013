/** The middleware stack: output hooks run last to first, input hooks first to last. */
module Middleware {
  import opened Values
  import opened StepIds
  import opened Memos
  import opened Programs

  /** What a middleware sees of an ended step or function. `op` is absent for a function's own output. */
  datatype OutputResult = OutputResult(error: Option<Err>, output: Option<Value>, op: Option<Opcode>)

  /**
   * One middleware over a world `W` (its stores and its randomness). Its hooks answer `None` where they
   * raise, and `beforeRaises` says where `before_execution` does. `isAsync` marks one that cannot run in a
   * synchronous context.
   */
  datatype Layer<!W> = Layer(
    isAsync: bool,
    beforeRaises: W -> bool,
    transformInput: (W, Value) -> Option<Value>,
    transformOutput: (W, OutputResult) -> Option<(W, OutputResult)>)

  datatype Pass<W> = Done(w: W, r: OutputResult) | Aborted(w: W)

  /** The output hooks, in reverse order. */
  function OutputPass<W>(layers: seq<Layer<W>>, w: W, r: OutputResult): Pass<W> {
    if layers == [] then Done(w, r)
    else
      var last := layers[|layers| - 1];
      var out := last.transformOutput(w, r);
      if last.isAsync || out.None? then Aborted(w)
      else OutputPass(layers[..|layers| - 1], out.value.0, out.value.1)
  }

  /** The input hooks on one memo, in order. */
  function InputPass<W>(layers: seq<Layer<W>>, w: W, data: Value): Option<Value> {
    if layers == [] then Some(data)
    else
      var res := layers[0].transformInput(w, data);
      if layers[0].isAsync || res.None? then None else InputPass(layers[1..], w, res.value)
  }

  /**
   * Every layer undoes, in the world `later`, what it did itself to the value that reached it when `r` was
   * sent through the stack.
   */
  ghost predicate EachUndoes<W>(layers: seq<Layer<W>>, w: W, r: OutputResult, later: W) {
    layers != [] ==>
      var last := layers[|layers| - 1];
      var out := last.transformOutput(w, r);
      !last.isAsync && out.Some? ==>
        && out.value.1.output.Some?
        && last.transformInput(later, out.value.1.output.value) == r.output
        && EachUndoes(layers[..|layers| - 1], out.value.0, out.value.1, later)
  }

  lemma {:induction false} InputPassSnoc<W>(layers: seq<Layer<W>>, last: Layer<W>, w: W, data: Value)
    requires !last.isAsync
    ensures InputPass(layers + [last], w, data) ==
            (var mid := InputPass(layers, w, data);
             if mid.None? then None else last.transformInput(w, mid.value))
  {
    if layers == [] {
      assert [last][1..] == [];
      assert layers + [last] == [last];
    } else {
      var res := layers[0].transformInput(w, data);
      assert (layers + [last])[1..] == layers[1..] + [last];
      if !layers[0].isAsync && res.Some? { InputPassSnoc(layers[1..], last, w, res.value); }
    }
  }

  /** The forward input pass undoes the reversed output pass, for any stack whose layers undo themselves. */
  lemma {:induction false} StackInversion<W>(layers: seq<Layer<W>>, w: W, r: OutputResult, later: W)
    requires r.output.Some? && OutputPass(layers, w, r).Done?
    requires EachUndoes(layers, w, r, later)
    ensures var sent := OutputPass(layers, w, r).r.output;
            sent.Some? && InputPass(layers, later, sent.value) == r.output
    decreases |layers|
  {
    if layers != [] {
      var front, last := layers[..|layers| - 1], layers[|layers| - 1];
      var out := last.transformOutput(w, r).value;
      StackInversion(front, out.0, out.1, later);
      assert layers == front + [last];
      InputPassSnoc(front, last, later, OutputPass(layers, w, r).r.output.value);
    }
  }

  // ----- The manager -----

  /** The part of a call result that output hooks may change, and the results of a call that ended in steps. */
  datatype CallRes = CallRes(result: OutputResult, multi: Option<seq<OutputResult>>)

  predicate IsEmpty(r: OutputResult) {
    r.error.None? && r.output.None? && r.op.None?
  }

  datatype HookError = MismatchedSync | HookRaised

  /** The result that output hooks may change: that of the call, or its only step's. */
  function Single(res: CallRes): OutputResult
    requires res.multi.Some? ==> |res.multi.value| > 0
  {
    if res.multi.Some? then res.multi.value[0] else res.result
  }

  /** Going back from the last layer, layer `n` is the first that is asynchronous or whose output hook raises. */
  ghost predicate StopsAt<W>(layers: seq<Layer<W>>, w: W, r: OutputResult, n: nat, e: HookError) {
    && n < |layers|
    && var before := OutputPass(layers[n + 1..], w, r);
       && before.Done?
       && if layers[n].isAsync then e == MismatchedSync
          else e == HookRaised && layers[n].transformOutput(before.w, before.r).None?
  }

  /** The output pass goes on with the layer in front of those it went through. */
  lemma {:induction false} OutputPassCons<W>(first: Layer<W>, rest: seq<Layer<W>>, w: W, r: OutputResult)
    requires OutputPass(rest, w, r).Done?
    ensures var before := OutputPass(rest, w, r);
            var out := first.transformOutput(before.w, before.r);
            OutputPass([first] + rest, w, r) ==
              if first.isAsync || out.None? then Aborted(before.w) else Done(out.value.0, out.value.1)
    decreases |rest|
  {
    var all := [first] + rest;
    if rest == [] {
      assert all[..0] == [] && all[|all| - 1] == first;
    } else {
      var front, last := rest[..|rest| - 1], rest[|rest| - 1];
      assert all[..|all| - 1] == [first] + front && all[|all| - 1] == last;
      var out := last.transformOutput(w, r);
      OutputPassCons(first, front, out.value.0, out.value.1);
    }
  }

  /** A pass that gets through has met no asynchronous layer. */
  lemma {:induction false} DoneIsSync<W>(layers: seq<Layer<W>>, w: W, r: OutputResult)
    requires OutputPass(layers, w, r).Done?
    ensures forall l :: 0 <= l < |layers| ==> !layers[l].isAsync
    decreases |layers|
  {
    if layers != [] {
      var front, last := layers[..|layers| - 1], layers[|layers| - 1];
      var out := last.transformOutput(w, r).value;
      DoneIsSync(front, out.0, out.1);
      assert forall l :: 0 <= l < |front| ==> layers[l] == front[l];
    }
  }

  const BEFORE_EXECUTION := "before_execution"

  class MiddlewareManager<W> {
    var layers: seq<Layer<W>>
    var world: W
    var disabledHooks: set<string>
    ghost var beforeRuns: nat

    constructor (layers: seq<Layer<W>>, world: W)
      ensures this.layers == layers && this.world == world && disabledHooks == {} && beforeRuns == 0
    {
      this.layers := layers;
      this.world := world;
      disabledHooks := {};
      beforeRuns := 0;
    }

    /** The hooks have run exactly if they are disabled. */
    ghost predicate Valid()
      reads this
    {
      beforeRuns == if BEFORE_EXECUTION in disabledHooks then 1 else 0
    }

    /**
     * Runs the `before_execution` hooks, once per manager however often it is called: later calls succeed
     * even if the first one failed. The first hook that is asynchronous or raises ends the first call.
     */
    method BeforeExecutionSync() returns (err: Option<HookError>)
      requires Valid()
      modifies this`disabledHooks, this`beforeRuns
      ensures Valid() && beforeRuns == 1
      ensures disabledHooks == old(disabledHooks) + {BEFORE_EXECUTION}
      ensures BEFORE_EXECUTION in old(disabledHooks) ==> err.None?
      ensures BEFORE_EXECUTION !in old(disabledHooks) ==>
                (err.None? <==> forall l :: 0 <= l < |layers| ==> !layers[l].isAsync && !layers[l].beforeRaises(world))
      ensures err.Some? ==> exists l :: 0 <= l < |layers| && FirstFailing(l)
                                        && err.value == if layers[l].isAsync then MismatchedSync else HookRaised
    {
      if BEFORE_EXECUTION in disabledHooks {
        return None;
      }
      disabledHooks := disabledHooks + {BEFORE_EXECUTION};
      beforeRuns := beforeRuns + 1;
      for l := 0 to |layers|
        invariant forall k :: 0 <= k < l ==> !layers[k].isAsync && !layers[k].beforeRaises(world)
      {
        if layers[l].isAsync {
          assert FirstFailing(l);
          return Some(MismatchedSync);
        }
        if layers[l].beforeRaises(world) {
          assert FirstFailing(l);
          return Some(HookRaised);
        }
      }
      err := None;
    }

    ghost predicate FirstFailing(l: nat)
      requires l < |layers|
      reads this
    {
      && (layers[l].isAsync || layers[l].beforeRaises(world))
      && forall k :: 0 <= k < l ==> !layers[k].isAsync && !layers[k].beforeRaises(world)
    }

    /**
     * Sends the data of all memos through the input hooks, in place: one middleware after the other, each of
     * them over all memos. An asynchronous middleware or a hook that raises ends the pass.
     */
    method TransformInputSync(steps: array<Value>) returns (ok: bool)
      modifies steps
      ensures ok <==> && (forall l :: 0 <= l < |layers| ==> !layers[l].isAsync)
                      && (forall i :: 0 <= i < steps.Length ==> InputPass(layers, world, old(steps[i])).Some?)
      ensures ok ==> forall i :: 0 <= i < steps.Length ==> InputPass(layers, world, old(steps[i])) == Some(steps[i])
    {
      var l := 0;
      while l < |layers|
        invariant 0 <= l <= |layers| && forall k :: 0 <= k < l ==> !layers[k].isAsync
        invariant forall i :: 0 <= i < steps.Length ==>
                    InputPass(layers, world, old(steps[i])) == InputPass(layers[l..], world, steps[i])
      {
        if layers[l].isAsync {
          return false;
        }
        assert layers[l..][1..] == layers[l + 1..];
        for n := 0 to steps.Length
          invariant forall i :: 0 <= i < n ==>
                      InputPass(layers, world, old(steps[i])) == InputPass(layers[l + 1..], world, steps[i])
          invariant forall i :: n <= i < steps.Length ==>
                      InputPass(layers, world, old(steps[i])) == InputPass(layers[l..], world, steps[i])
        {
          var next := layers[l].transformInput(world, steps[n]);
          if next.None? {
            assert InputPass(layers[l..], world, steps[n]).None?;
            return false;
          }
          steps[n] := next.value;
        }
        l := l + 1;
      }
      ok := true;
    }

    /**
     * Transforms the single result of a call in place, in reverse order of the layers. Several planned steps and
     * an empty result are left alone, and so is a result on which a hook raises or a layer is asynchronous.
     */
    method TransformOutputSync(res: CallRes) returns (res': CallRes, err: Option<HookError>)
      requires res.multi.Some? ==> |res.multi.value| > 0
      modifies this`world
      ensures res.multi.Some? && |res.multi.value| > 1 ==> res' == res && err.None? && world == old(world)
      ensures Single(res) == OutputResult(None, None, None) ==> res' == res && err.None? && world == old(world)
      ensures (res.multi.None? || |res.multi.value| == 1) && Single(res) != OutputResult(None, None, None) ==>
                var pass := OutputPass(layers, old(world), Single(res));
                && world == pass.w
                && (err.None? <==> pass.Done?)
                && (err.None? ==>
                      && (res.multi.None? <==> res'.multi.None?)
                      && (res.multi.Some? ==> res'.result == res.result && |res'.multi.value| == 1)
                      && Single(res').error == pass.r.error && Single(res').output == pass.r.output
                      && Single(res').op == Single(res).op
                      && forall l :: 0 <= l < |layers| ==> !layers[l].isAsync)
      ensures err.Some? ==> res' == res && exists n :: StopsAt(layers, old(world), Single(res), n, err.value)
    {
      if res.multi.Some? && |res.multi.value| > 1 {
        return res, None;
      }
      var callRes := if res.multi.Some? then res.multi.value[0] else res.result;
      if IsEmpty(callRes) {
        return res, None;
      }
      var result := callRes;
      ghost var start := world;
      var n := |layers|;
      assert layers[n..] == [] && layers[..n] == layers;
      while n > 0
        invariant 0 <= n <= |layers|
        invariant OutputPass(layers, start, callRes) == OutputPass(layers[..n], world, result)
        invariant OutputPass(layers[n..], start, callRes) == Done(world, result)
        decreases n
      {
        n := n - 1;
        var m := layers[n];
        assert layers[..n + 1][..n] == layers[..n] && layers[n..] == [m] + layers[n + 1..];
        OutputPassCons(m, layers[n + 1..], start, callRes);
        var out := m.transformOutput(world, result);
        if m.isAsync {
          assert StopsAt(layers, start, callRes, n, MismatchedSync);
          return res, Some(MismatchedSync);
        }
        if out.None? {
          assert StopsAt(layers, start, callRes, n, HookRaised);
          return res, Some(HookRaised);
        }
        world, result := out.value.0, out.value.1;
      }
      DoneIsSync(layers, start, callRes);
      callRes := OutputResult(result.error, result.output, callRes.op);
      res' := if res.multi.Some? then CallRes(res.result, Some([callRes])) else CallRes(callRes, None);
      err := None;
    }
  }
}
