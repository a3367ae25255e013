/** The executor loop through a stack uses the manager's own passes: what it sends and receives is what they give. */
module ManagerReplay {
  import opened Values
  import opened StepIds
  import opened Memos
  import opened Programs
  import opened Engine
  import opened StackLaws
  import opened StackReplay
  import Middleware
  import Stores

  const NOTHING := Middleware.OutputResult(None, None, None)

  /** The answer of an invocation as the manager is given it. */
  function Shown(res: CallResult): Middleware.CallRes {
    match res
    case Finished(v) => Middleware.CallRes(Middleware.OutputResult(None, Some(v), None), None)
    case Errored(e) => Middleware.CallRes(Middleware.OutputResult(Some(e), None, None), None)
    case Multi(rs) =>
      Middleware.CallRes(NOTHING, if rs == [] then None else Some(seq(|rs|, i requires 0 <= i < |rs| => ShownTo(rs[i]))))
    case Crashed => Middleware.CallRes(NOTHING, None)
    case Hung => Middleware.CallRes(NOTHING, None)
  }

  /**
   * An answer on its way out: the manager's output pass runs on it, and what it returns is put back into the
   * answer. It is what the loop of the replay theorem sends, and leaves the stores as they are there.
   */
  method SendThroughManager(kinds: seq<Kind>, ds: Drivers, res: CallResult) returns (sent: CallResult, ds1: Drivers)
    ensures (sent, ds1) == Send(kinds, ds, res)
  {
    hide KeysWork, FreshKeys, LayersOf;
    var manager := new Middleware.MiddlewareManager<Drivers>(LayersOf(kinds), ds);
    var shown := Shown(res);
    var out, err := manager.TransformOutputSync(shown);
    ds1 := manager.world;
    if err.Some? {
      return Errored(HOOK_RAISED), ds1;
    }
    match res {
      case Finished(v) =>
        var r := out.result;
        sent := if r.output.Some? then Finished(r.output.value) else Errored(HOOK_RAISED);
      case Errored(e) =>
        var r := out.result;
        sent := if r.error.Some? then Errored(r.error.value) else Errored(HOOK_RAISED);
      case Multi(rs) =>
        if |rs| == 1 {
          var r := Middleware.Single(out);
          sent := Multi([rs[0].(error := r.error, output := if r.output.Some? then r.output.value else rs[0].output)]);
        } else {
          sent := res;
        }
      case Crashed => sent := res;
      case Hung => sent := res;
    }
  }

  /** The memos with the data that came out of the input hooks. */
  ghost predicate Filled(kinds: seq<Kind>, parse: JsonParser, steps: map<HashedId, Value>, ids: seq<HashedId>,
                         ds: Drivers,
                         memos: MemoMap)
    requires forall id :: id in ids ==> id in steps
  {
    && (forall id :: id in memos <==> id in ids)
    && forall id :: id in ids ==>
         && Opened(kinds, parse, steps[id], ds).Some?
         && memos[id] == Decode(parse, steps[id]).(data := Opened(kinds, parse, steps[id], ds).value)
  }

  lemma FilledSnoc(kinds: seq<Kind>, parse: JsonParser, steps: map<HashedId, Value>, ids: seq<HashedId>, id: HashedId,
                   ds: Drivers,
                   memos: MemoMap, data: Value)
    requires (forall h :: h in ids ==> h in steps) && id in steps && Filled(kinds, parse, steps, ids, ds, memos)
    requires Opened(kinds, parse, steps[id], ds) == Some(data)
    ensures Filled(kinds, parse, steps, ids + [id], ds, memos[id := Decode(parse, steps[id]).(data := data)])
  {
    hide Opened, Decode;
    assert forall h :: h in ids + [id] <==> h in ids || h == id;
  }

  lemma FilledIsReceived(kinds: seq<Kind>, parse: JsonParser, steps: map<HashedId, Value>, ids: seq<HashedId>,
                         ds: Drivers,
                         memos: MemoMap)
    requires (forall id :: id in ids <==> id in steps) && Filled(kinds, parse, steps, ids, ds, memos)
    ensures Received(kinds, parse, steps, ds) == Some(memos)
  {
    hide Opened, Decode;
    assert forall id :: id in steps ==> Opened(kinds, parse, steps[id], ds).Some?;
    assert Received(kinds, parse, steps, ds).value == memos;
  }

  method Fill(ghost kinds: seq<Kind>, parse: JsonParser, steps: map<HashedId, Value>, order: seq<HashedId>,
              ghost ds: Drivers,
              data: array<Value>) returns (memos: MemoMap)
    requires (forall id :: id in order ==> id in steps) && data.Length == |order|
    requires forall i :: 0 <= i < |order| ==> Opened(kinds, parse, steps[order[i]], ds) == Some(data[i])
    ensures Filled(kinds, parse, steps, order, ds, memos)
  {
    memos := map[];
    for i := 0 to |order|
      invariant Filled(kinds, parse, steps, order[..i], ds, memos)
    {
      hide Filled, Opened, Decode;
      assert order[..i + 1] == order[..i] + [order[i]];
      FilledSnoc(kinds, parse, steps, order[..i], order[i], ds, memos, data[i]);
      memos := memos[order[i] := Decode(parse, steps[order[i]]).(data := data[i])];
    }
    assert order[..|order|] == order;
  }

  lemma Refused(kinds: seq<Kind>, parse: JsonParser, steps: map<HashedId, Value>, id: HashedId, ds: Drivers)
    requires id in steps && Opened(kinds, parse, steps[id], ds).None?
    ensures Received(kinds, parse, steps, ds).None?
  {
    hide Opened, Decode;
  }

  /**
   * The memos on their way in: decoded, and their data sent through the manager's input pass. `order` is the
   * order in which the steps are kept.
   */
  method ReceiveThroughManager(kinds: seq<Kind>, parse: JsonParser, steps: map<HashedId, Value>, order: seq<HashedId>,
                               ds: Drivers)
    returns (memos: Option<MemoMap>)
    requires forall id :: id in order <==> id in steps
    ensures memos == Received(kinds, parse, steps, ds)
  {
    hide Filled, Received, Decode;
    var manager := new Middleware.MiddlewareManager<Drivers>(LayersOf(kinds), ds);
    var data := new Value[|order|](i requires 0 <= i < |order| => Decode(parse, steps[order[i]]).data);
    var ok := manager.TransformInputSync(data);
    AllSync(kinds);
    hide LayersOf;
    if !ok {
      ghost var i :| 0 <= i < |order| && Opened(kinds, parse, steps[order[i]], ds).None?;
      Refused(kinds, parse, steps, order[i], ds);
      return None;
    }
    var filled := Fill(kinds, parse, steps, order, ds, data);
    FilledIsReceived(kinds, parse, steps, order, ds, filled);
    memos := Some(filled);
  }

  lemma AllSync(kinds: seq<Kind>)
    ensures forall l :: 0 <= l < |LayersOf(kinds)| ==> !LayersOf(kinds)[l].isAsync
  {
  }
}
