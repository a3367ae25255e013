/** Data shared by every part of the model. */
module Values {

  datatype Option<+T> = None | Some(value: T)

  /** A JSON document: what step handlers return, what the server stores and what functions return. */
  datatype Value =
    | Null
    | Bool(b: bool)
    | Num(n: int)
    | Str(s: string)
    | List(items: seq<Value>)
    | Obj(fields: map<string, Value>)

  /** `dict.get(key)`: absent keys read as `None`. */
  function Get(m: map<string, Value>, key: string): Value {
    if key in m then m[key] else Null
  }

  ghost predicate NoDuplicates<T(!new)>(s: seq<T>) {
    forall i, j :: 0 <= i < j < |s| ==> s[i] != s[j]
  }

  function Elements<T>(s: seq<T>): set<T> {
    set x | x in s
  }
}
