/** Memoized step output: how a raw memo is decoded, and the store an invocation pops memos from. */
module Memos {
  import opened Values
  import opened StepIds

  datatype MemoizedError = MemoizedError(message: string, name: string, stack: Option<string>)

  /** A decoded memo. When `error` is present it wins over `data`. */
  datatype Output = Output(data: Value, error: Option<MemoizedError>)

  /** JSON text parser: `None` for text that is not JSON. */
  type JsonParser = string -> Option<Value>

  datatype ErrorField = NoError | HasError(error: MemoizedError) | BadError

  /** Validation of the `error` field: absent, null, or an object with string `message` and `name`. */
  function ValidateError(v: Value): ErrorField {
    if v.Null? then NoError
    else if !v.Obj? || !Get(v.fields, "message").Str? || !Get(v.fields, "name").Str? then BadError
    else
      match Get(v.fields, "stack") {
        case Null => HasError(MemoizedError(v.fields["message"].s, v.fields["name"].s, None))
        case Str(stack) => HasError(MemoizedError(v.fields["message"].s, v.fields["name"].s, Some(stack)))
        case _ => BadError
      }
  }

  /** Validation as nested output. Extra keys are forbidden, so only `data` and `error` may occur. */
  function ValidateOutput(v: Value): Option<Output> {
    if !v.Obj? || !(v.fields.Keys <= {"data", "error"}) then None
    else
      match ValidateError(Get(v.fields, "error")) {
        case NoError => Some(Output(Get(v.fields, "data"), None))
        case HasError(e) => Some(Output(Get(v.fields, "data"), Some(e)))
        case BadError => None
      }
  }

  /** `Output.from_raw`: a string is first read as JSON text. */
  function OutputFromRaw(parse: JsonParser, raw: Value): Option<Output> {
    if !raw.Str? then ValidateOutput(raw)
    else if parse(raw.s).None? then None
    else ValidateOutput(parse(raw.s).value)
  }

  /** What a raw memo becomes: nested output if it has that shape, else bare data. */
  function Decode(parse: JsonParser, raw: Value): Output {
    match OutputFromRaw(parse, raw)
    case Some(o) => o
    case None => Output(raw, None)
  }

  predicate OutputShaped(parse: JsonParser, raw: Value) {
    OutputFromRaw(parse, raw).Some?
  }

  /** No JSON text carries itself as its own `data` field (it would have to be longer than itself). */
  ghost predicate NoSelfText(parse: JsonParser) {
    forall t :: parse(t).Some? && parse(t).value.Obj? ==> Get(parse(t).value.fields, "data") != Str(t)
  }

  /** A bare memo comes back as itself exactly when it does not look like nested output. */
  lemma {:induction false} BareMemoSurvivesIff(parse: JsonParser, raw: Value)
    requires NoSelfText(parse)
    ensures Decode(parse, raw) == Output(raw, None) <==> !OutputShaped(parse, raw)
  {
    if OutputShaped(parse, raw) {
      if raw.Str? {
        assert Get(parse(raw.s).value.fields, "data") != Str(raw.s);
      } else if "data" in raw.fields {
        assert raw.fields["data"] != raw;
      }
    }
  }

  /** The empty object is read as an empty nested output: its memo reads back as null. */
  lemma EmptyObjectReadsAsNull(parse: JsonParser)
    ensures Decode(parse, Obj(map[])) == Output(Null, None)
  {
    var m: map<string, Value> := map[];
    assert m.Keys <= {"data", "error"};
  }

  type MemoMap = map<HashedId, Output>

  function FromRaw(parse: JsonParser, raw: map<HashedId, Value>): MemoMap {
    map k | k in raw :: Decode(parse, raw[k])
  }

  class StepMemos {
    var memos: MemoMap

    constructor (memos: MemoMap)
      ensures this.memos == memos
    {
      this.memos := memos;
    }

    function Size(): nat
      reads this
    {
      |memos|
    }

    /** Removes and returns the memo of `id`, if there is one. */
    method Pop(id: HashedId) returns (memo: Option<Output>)
      modifies this
      ensures memo == if id in old(memos) then Some(old(memos)[id]) else None
      ensures memos == old(memos) - {id}
    {
      if id in memos {
        memo := Some(memos[id]);
        memos := map k | k in memos && k != id :: memos[k];
      } else {
        memo := None;
      }
    }
  }
}
