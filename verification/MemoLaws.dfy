/**
 * What the raw memos of a request become: how the server nests the output of a step, what that is read as, and
 * what the code after the step is given for it. Everything here is stated over the JSON that was stored.
 */
module MemoLaws {
  import opened Values
  import opened StepIds
  import opened Memos
  import opened Programs
  import opened Engine
  import opened Replay

  // ----- Nested output -----

  /** The JSON object of an error: its message and name, and a stack that is absent, null or text. */
  ghost predicate ErrorObject(v: Value, e: MemoizedError) {
    && v.Obj?
    && "message" in v.fields && v.fields["message"] == Str(e.message)
    && "name" in v.fields && v.fields["name"] == Str(e.name)
    && (if e.stack.Some? then "stack" in v.fields && v.fields["stack"] == Str(e.stack.value)
        else "stack" !in v.fields || v.fields["stack"] == Null)
  }

  /** An object with no keys but `data` and `error`. */
  ghost predicate OnlyNested(v: Value) {
    v.Obj? && forall key :: key in v.fields ==> key == "data" || key == "error"
  }

  /** The `data` field, which is null if it is absent. */
  ghost predicate HasData(v: Value, data: Value)
    requires v.Obj?
  {
    if "data" in v.fields then v.fields["data"] == data else data == Null
  }

  /** The object nests the output `data` of a step that succeeded. */
  ghost predicate NestsData(v: Value, data: Value) {
    OnlyNested(v) && HasData(v, data) && ("error" in v.fields ==> v.fields["error"] == Null)
  }

  /** The object nests the error of a step, next to any data. */
  ghost predicate NestsError(v: Value, data: Value, e: MemoizedError) {
    OnlyNested(v) && HasData(v, data) && "error" in v.fields && ErrorObject(v.fields["error"], e)
  }

  /** The memo is this JSON value, or text of it. */
  ghost predicate Carries(parse: JsonParser, raw: Value, v: Value) {
    raw == v || (raw.Str? && parse(raw.s) == Some(v))
  }

  lemma KeysOfNested(v: Value)
    requires v.Obj?
    ensures v.fields.Keys <= {"data", "error"} <==> OnlyNested(v)
  {
    if v.fields.Keys <= {"data", "error"} {
      forall key | key in v.fields ensures key == "data" || key == "error" {
        assert key in v.fields.Keys;
      }
    }
  }

  /** Nested data is read as the data, without an error. */
  lemma NestedDataDecodes(parse: JsonParser, raw: Value, v: Value, data: Value)
    requires Carries(parse, raw, v) && NestsData(v, data)
    ensures Decode(parse, raw) == Output(data, None)
  {
    KeysOfNested(v);
  }

  /** A nested error is read as exactly that error, next to the data. */
  lemma NestedErrorDecodes(parse: JsonParser, raw: Value, v: Value, data: Value, e: MemoizedError)
    requires Carries(parse, raw, v) && NestsError(v, data, e)
    ensures Decode(parse, raw) == Output(data, Some(e))
  {
    KeysOfNested(v);
  }

  /** The memo nests some output, itself or as text. */
  ghost predicate Nests(parse: JsonParser, raw: Value, o: Output) {
    exists v :: Carries(parse, raw, v) && if o.error.None? then NestsData(v, o.data) else NestsError(v, o.data, o.error.value)
  }

  /** Nothing else is taken for nested output: a memo is read as `o`, or as bare data if it nests nothing. */
  lemma {:induction false} DecodedIff(parse: JsonParser, raw: Value, o: Output)
    ensures Decode(parse, raw) == o <==> if exists any :: Nests(parse, raw, any) then Nests(parse, raw, o) else o == Output(raw, None)
  {
    forall any | Nests(parse, raw, any) ensures Decode(parse, raw) == any {
      var v :| Carries(parse, raw, v)
               && if any.error.None? then NestsData(v, any.data) else NestsError(v, any.data, any.error.value);
      if any.error.None? {
        NestedDataDecodes(parse, raw, v, any.data);
      } else {
        NestedErrorDecodes(parse, raw, v, any.data, any.error.value);
      }
    }
    if OutputFromRaw(parse, raw).Some? { ShapedNests(parse, raw); }
  }

  lemma ShapedNests(parse: JsonParser, raw: Value)
    requires OutputFromRaw(parse, raw).Some?
    ensures Nests(parse, raw, Decode(parse, raw))
  {
    var v := if raw.Str? then parse(raw.s).value else raw;
    var o := Decode(parse, raw);
    KeysOfNested(v);
    assert Carries(parse, raw, v);
    assert if o.error.None? then NestsData(v, o.data) else NestsError(v, o.data, o.error.value);
  }

  /** The memos that look like nested output to the decoder are exactly those that nest some output. */
  lemma {:induction false} ShapedIff(parse: JsonParser, raw: Value)
    ensures OutputShaped(parse, raw) <==> exists o :: Nests(parse, raw, o)
  {
    if OutputShaped(parse, raw) { ShapedNests(parse, raw); }
    if o :| Nests(parse, raw, o) {
      var v :| Carries(parse, raw, v) && if o.error.None? then NestsData(v, o.data) else NestsError(v, o.data, o.error.value);
      KeysOfNested(v);
      assert raw.Str? ==> raw != v ==> parse(raw.s) == Some(v);
    }
  }

  // ----- The forms that the server stores -----

  /** `{"data": v}`, and the same with `"error": null`. */
  lemma DataForms(v: Value)
    ensures NestsData(Obj(map["data" := v]), v)
    ensures NestsData(Obj(map["data" := v, "error" := Null]), v)
  {
  }

  /** `{"error": {"message": m, "name": n}}`, with `"stack": s` or without. */
  lemma ErrorForms(message: string, name: string, stack: string)
    ensures NestsError(Obj(map["error" := Obj(map["message" := Str(message), "name" := Str(name)])]), Null,
                       MemoizedError(message, name, None))
    ensures NestsError(Obj(map["error" := Obj(map["message" := Str(message), "name" := Str(name), "stack" := Str(stack)])]), Null,
                       MemoizedError(message, name, Some(stack)))
  {
  }

  /** The server's forms of a result, of an error, and their JSON texts, are read back as that result or error. */
  lemma StoredFormsDecode(parse: JsonParser, v: Value, message: string, name: string, stack: string, text: string)
    ensures Decode(parse, Obj(map["data" := v])) == Output(v, None)
    ensures Decode(parse, Obj(map["data" := v, "error" := Null])) == Output(v, None)
    ensures parse(text) == Some(Obj(map["data" := v])) ==> Decode(parse, Str(text)) == Output(v, None)
    ensures var error := Obj(map["message" := Str(message), "name" := Str(name)]);
            Decode(parse, Obj(map["error" := error])) == Output(Null, Some(MemoizedError(message, name, None)))
    ensures var error := Obj(map["message" := Str(message), "name" := Str(name), "stack" := Str(stack)]);
            && Decode(parse, Obj(map["error" := error])) == Output(Null, Some(MemoizedError(message, name, Some(stack))))
            && (parse(text) == Some(Obj(map["error" := error])) ==>
                  Decode(parse, Str(text)) == Output(Null, Some(MemoizedError(message, name, Some(stack)))))
  {
    DataForms(v);
    ErrorForms(message, name, stack);
    var bare := Obj(map["error" := Obj(map["message" := Str(message), "name" := Str(name)])]);
    var full := Obj(map["error" := Obj(map["message" := Str(message), "name" := Str(name), "stack" := Str(stack)])]);
    hide NestsData, NestsError, Decode;
    NestedDataDecodes(parse, Obj(map["data" := v]), Obj(map["data" := v]), v);
    NestedDataDecodes(parse, Obj(map["data" := v, "error" := Null]), Obj(map["data" := v, "error" := Null]), v);
    NestedErrorDecodes(parse, bare, bare, Null, MemoizedError(message, name, None));
    NestedErrorDecodes(parse, full, full, Null, MemoizedError(message, name, Some(stack)));
    if parse(text) == Some(Obj(map["data" := v])) { NestedDataDecodes(parse, Str(text), Obj(map["data" := v]), v); }
    if parse(text) == Some(full) { NestedErrorDecodes(parse, Str(text), full, Null, MemoizedError(message, name, Some(stack))); }
  }

  // ----- What the code after a step is given -----

  /** The function has reached a point at which these stored memos are still to be popped. */
  ghost predicate Holds(parse: JsonParser, raw: map<HashedId, Value>, s: St) {
    s.memos == FromRaw(parse, raw)
  }

  /** The step with this hashed ID is popped and counted. */
  ghost predicate Popped(parse: JsonParser, raw: map<HashedId, Value>, id: string, h: HashedId, s: St, s': St) {
    && Holds(parse, raw - {h}, s')
    && s'.counts == s.counts[id := (if id in s.counts then s.counts[id] else 0) + 1]
    && s'.reported == s.reported + [h]
  }

  /** A step with a memo goes on with what the memo was decoded to, whatever the request asks for. */
  lemma MemoizedStepGoesOn(gas: nat, id: string, op: Opcode, handler: Prog, k: StepResult -> Prog, rq: Request,
                           cx: Context,
                           s: St, parse: JsonParser, raw: map<HashedId, Value>) returns (s': St)
    requires var h := PreHash(id, Count(s.counts, id));
             Holds(parse, raw, s) && h in raw && !cx.inStep
    ensures var h := PreHash(id, Count(s.counts, id));
            var o := Decode(parse, raw[h]);
            && Popped(parse, raw, id, h, s, s')
            && Exec(gas + 1, Step(id, op, handler, k), rq, cx, s) ==
                 Exec(gas, k(if o.error.Some? then Failed(MemoError(o.error.value)) else Ok(o.data)), rq, cx, s')
  {
    hide Exec, Decode, PreHash;
    var h := PreHash(id, Count(s.counts, id));
    s' := PopMemo(h, CountStep(id, s));
    PopShape(h, id, s);
    assert s.memos - {h} == FromRaw(parse, raw - {h});
    assert Exec(gas + 1, Step(id, op, handler, k), rq, cx, s) == ExecStep(gas, id, op, handler, k, rq, cx, s) by { ExecIsStep(gas, id, op, handler, k, rq, cx, s); }
  }

  lemma ExecIsStep(gas: nat, id: string, op: Opcode, handler: Prog, k: StepResult -> Prog, rq: Request, cx: Context,
                   s: St)
    ensures Exec(gas + 1, Step(id, op, handler, k), rq, cx, s) == ExecStep(gas, id, op, handler, k, rq, cx, s)
  {
  }

  /**
   * A stored result reaches the code after its step: if the memo of a step nests `data`, itself or as JSON
   * text, the invocation goes on with that data.
   */
  lemma {:induction false} StoredDataReachesCode(gas: nat, id: string, op: Opcode, handler: Prog, k: StepResult -> Prog,
                                                 rq: Request, cx: Context, s: St, parse: JsonParser,
                                                 raw: map<HashedId, Value>, v: Value, data: Value) returns (s': St)
    requires var h := PreHash(id, Count(s.counts, id));
             Holds(parse, raw, s) && h in raw && Carries(parse, raw[h], v) && NestsData(v, data) && !cx.inStep
    ensures Popped(parse, raw, id, PreHash(id, Count(s.counts, id)), s, s')
    ensures Exec(gas + 1, Step(id, op, handler, k), rq, cx, s) == Exec(gas, k(Ok(data)), rq, cx, s')
  {
    hide Exec, Decode, Popped, Holds, NestsData, Carries;
    NestedDataDecodes(parse, raw[PreHash(id, Count(s.counts, id))], v, data);
    s' := MemoizedStepGoesOn(gas, id, op, handler, k, rq, cx, s, parse, raw);
  }

  /** A stored error does too, as a step error with this message, name and stack. */
  lemma {:induction false} StoredErrorReachesCode(gas: nat, id: string, op: Opcode, handler: Prog,
                                                  k: StepResult -> Prog,
                                                  rq: Request, cx: Context, s: St, parse: JsonParser,
                                                  raw: map<HashedId, Value>, v: Value, data: Value, e: MemoizedError)
    returns (s': St)
    requires var h := PreHash(id, Count(s.counts, id));
             Holds(parse, raw, s) && h in raw && Carries(parse, raw[h], v) && NestsError(v, data, e) && !cx.inStep
    ensures Popped(parse, raw, id, PreHash(id, Count(s.counts, id)), s, s')
    ensures Exec(gas + 1, Step(id, op, handler, k), rq, cx, s) == Exec(gas, k(Failed(MemoError(e))), rq, cx, s')
  {
    hide Exec, Decode, Popped, Holds, NestsError, Carries;
    NestedErrorDecodes(parse, raw[PreHash(id, Count(s.counts, id))], v, data, e);
    s' := MemoizedStepGoesOn(gas, id, op, handler, k, rq, cx, s, parse, raw);
  }

  /** And a memo that nests nothing reaches it as it was stored: the event that a `wait_for_event` got, say. */
  lemma {:induction false} BareMemoReachesCode(gas: nat, id: string, op: Opcode, handler: Prog, k: StepResult -> Prog,
                                               rq: Request, cx: Context, s: St, parse: JsonParser,
                                               raw: map<HashedId, Value>) returns (s': St)
    requires var h := PreHash(id, Count(s.counts, id));
             Holds(parse, raw, s) && h in raw && (forall o :: !Nests(parse, raw[h], o)) && !cx.inStep
    ensures Popped(parse, raw, id, PreHash(id, Count(s.counts, id)), s, s')
    ensures Exec(gas + 1, Step(id, op, handler, k), rq, cx, s) ==
            Exec(gas, k(Ok(raw[PreHash(id, Count(s.counts, id))])), rq, cx, s')
  {
    hide Exec, Decode, Popped, Holds, Nests;
    var memo := raw[PreHash(id, Count(s.counts, id))];
    DecodedIff(parse, memo, Output(memo, None));
    s' := MemoizedStepGoesOn(gas, id, op, handler, k, rq, cx, s, parse, raw);
  }

  // ----- Whole invocations -----

  /** Steps with these IDs, one after the other; returns the list of what they gave, or raises the first error. */
  function Gather(ids: seq<string>, got: seq<Value>): Prog
    decreases |ids|
  {
    if ids == [] then Return(List(got))
    else
      Step(ids[0], StepRun, Return(Null), (r: StepResult) => if r.Ok? then Gather(ids[1..], got + [r.v]) else Raise(r.e))
  }

  /** The memo with this hashed ID nests the value. */
  ghost predicate StoredAt(parse: JsonParser, raw: map<HashedId, Value>, h: HashedId, value: Value) {
    h in raw && exists v :: Carries(parse, raw[h], v) && NestsData(v, value)
  }

  /** The memo of each step nests its value; the IDs are distinct. */
  ghost predicate AllStored(parse: JsonParser, raw: map<HashedId, Value>, ids: seq<string>, vs: seq<Value>) {
    && |ids| == |vs|
    && (forall i, j :: 0 <= i < j < |ids| ==> ids[i] != ids[j])
    && (forall i :: 0 <= i < |ids| ==> StoredAt(parse, raw, ids[i], vs[i]))
  }

  lemma {:induction false} GatherReplays(gas: nat, ids: seq<string>, got: seq<Value>, vs: seq<Value>, rq: Request,
                                         s: St, parse: JsonParser, raw: map<HashedId, Value>)
    requires gas > |ids| && AllStored(parse, raw, ids, vs) && Holds(parse, raw, s)
    requires forall i :: 0 <= i < |ids| ==> ids[i] !in s.counts
    ensures Exec(gas, Gather(ids, got), rq, TOP_LEVEL, s).0 == Returned(List(got + vs))
    decreases |ids|
  {
    hide Exec, Carries, NestsData, Holds;
    if ids == [] {
      assert got + vs == got;
      ReturnsNow(gas, List(got), rq, s);
    } else {
      var k := Gather(ids, got).k;
      var id, rest := ids[0], ids[1..];
      assert PreHash(id, Count(s.counts, id)) == id;
      assert StoredAt(parse, raw, id, vs[0]);
      var v :| Carries(parse, raw[id], v) && NestsData(v, vs[0]);
      var s' := StoredDataReachesCode(gas - 1, id, StepRun, Return(Null), k, rq, TOP_LEVEL, s, parse, raw, v, vs[0]);
      assert Gather(ids, got) == Step(id, StepRun, Return(Null), k);
      assert AllStored(parse, raw - {id}, rest, vs[1..]) by { StoredRest(parse, raw, ids, vs); }
      assert forall i :: 0 <= i < |rest| ==> rest[i] == ids[i + 1] && rest[i] !in s'.counts;
      GatherReplays(gas - 1, rest, got + [vs[0]], vs[1..], rq, s', parse, raw - {id});
      assert got + [vs[0]] + vs[1..] == got + vs;
    }
  }

  lemma ReturnsNow(gas: nat, v: Value, rq: Request, s: St)
    requires gas > 0
    ensures Exec(gas, Return(v), rq, TOP_LEVEL, s) == (Returned(v), s)
  {
  }

  lemma StoredRest(parse: JsonParser, raw: map<HashedId, Value>, ids: seq<string>, vs: seq<Value>)
    requires ids != [] && AllStored(parse, raw, ids, vs)
    ensures AllStored(parse, raw - {ids[0]}, ids[1..], vs[1..])
  {
    hide Carries, NestsData;
    var rest := ids[1..];
    forall i | 0 <= i < |rest| ensures StoredAt(parse, raw - {ids[0]}, rest[i], vs[1..][i]) {
      assert rest[i] == ids[i + 1] && vs[1..][i] == vs[i + 1] && ids[0] != ids[i + 1];
      assert StoredAt(parse, raw, ids[i + 1], vs[i + 1]);
    }
    hide StoredAt;
  }

  /**
   * An invocation given the nested outputs of all steps of a function returns what the steps had returned, in
   * order, for every number of steps, and for text and object memos alike.
   */
  lemma {:induction false} StoredRunIsReplayed(gas: nat, ids: seq<string>, vs: seq<Value>, rq: Request,
                                               parse: JsonParser, raw: map<HashedId, Value>)
    requires gas > |ids| && AllStored(parse, raw, ids, vs)
    ensures RunFunction(gas, Gather(ids, []), rq, FromRaw(parse, raw)).0 == Finished(List(vs))
  {
    var s := Initial(FromRaw(parse, raw));
    hide Exec, AllStored;
    GatherReplays(gas, ids, [], vs, rq, s, parse, raw);
    assert [] + vs == vs;
  }

  /** An invocation given a stored error that the function does not catch answers exactly that error. */
  lemma {:induction false} StoredErrorIsAnswered(gas: nat, id: string, rest: seq<string>, rq: Request,
                                                 parse: JsonParser,
                                                 raw: map<HashedId, Value>, v: Value, data: Value, e: MemoizedError)
    requires gas >= 2 && id in raw && Carries(parse, raw[id], v) && NestsError(v, data, e)
    ensures RunFunction(gas, Gather([id] + rest, []), rq, FromRaw(parse, raw)).0 == Errored(MemoError(e))
  {
    var s, ids := Initial(FromRaw(parse, raw)), [id] + rest;
    hide Exec, Carries, NestsError;
    var k := Gather(ids, []).k;
    assert PreHash(id, Count(s.counts, id)) == id;
    var s' := StoredErrorReachesCode(gas - 1, id, StepRun, Return(Null), k, rq, TOP_LEVEL, s, parse, raw, v, data, e);
    assert Gather(ids, []) == Step(id, StepRun, Return(Null), k);
    RaisesNow(gas - 1, MemoError(e), rq, s');
  }

  lemma RaisesNow(gas: nat, e: Err, rq: Request, s: St)
    requires gas > 0
    ensures Exec(gas, Raise(e), rq, TOP_LEVEL, s) == (Threw(e), s)
  {
  }
}
