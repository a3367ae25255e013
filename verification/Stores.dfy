/** Two invertible middlewares: encryption of step output, and the in-memory store of step output. */
module Stores {
  import opened Values
  import opened StepIds
  import opened Memos
  import opened Programs
  import opened Middleware

  /** The stores of the in-memory drivers, and the randomness that nonces and keys are drawn from. */
  datatype World = World(stores: map<nat, map<string, Value>>, entropy: nat -> string, drawn: nat) {
    function Draw(): (string, World) {
      (entropy(drawn), this.(drawn := drawn + 1))
    }

    function Store(driver: nat): map<string, Value> {
      if driver in stores then stores[driver] else map[]
    }
  }

  /** Whatever was stored is still there. */
  ghost predicate Keeps(w: World, later: World) {
    forall d, k :: k in w.Store(d) ==> k in later.Store(d) && later.Store(d)[k] == w.Store(d)[k]
  }

  const STRATEGY := "__STRATEGY__"

  // ----- Encryption -----

  const ENCRYPTED := "__ENCRYPTED__"
  const LIBSODIUM := "inngest/libsodium"

  /**
   * A secret box together with the JSON codec: `seal` gives the base64 text of the encrypted JSON of a
   * value, `open` gives the value back, or `None` where decryption or JSON parsing raises.
   */
  datatype Box = Box(seal: (string, Value) -> string, open: string -> Option<Value>)

  ghost predicate Opens(box: Box, other: Box) {
    forall nonce, v :: box.open(other.seal(nonce, v)) == Some(v)
  }

  ghost predicate Rejects(box: Box, other: Box) {
    forall nonce, v :: box.open(other.seal(nonce, v)).None?
  }

  /** No text opens to an object that carries that text (it would have to be longer than itself). */
  ghost predicate NoSelfSeal(box: Box) {
    forall t :: box.open(t).Some? && box.open(t).value.Obj? ==> Get(box.open(t).value.fields, "data") != Str(t)
  }

  datatype Keyring = Keyring(box: Box, fallbacks: seq<Box>, decryptOnly: bool)

  predicate IsMarked(v: Value) {
    v.Obj? && Get(v.fields, ENCRYPTED) == Bool(true)
  }

  predicate IsEncrypted(v: Value) {
    IsMarked(v) && Get(v.fields, STRATEGY) == Str(LIBSODIUM)
  }

  /** What `_decrypt` tries to open. */
  predicate LooksSealed(v: Value) {
    IsEncrypted(v) && Get(v.fields, "data").Str?
  }

  function Sealed(text: string): Value {
    Obj(map[ENCRYPTED := Bool(true), STRATEGY := Str(LIBSODIUM), "data" := Str(text)])
  }

  function Encrypt(k: Keyring, nonce: string, v: Value): Value {
    if IsMarked(v) then v else Sealed(k.box.seal(nonce, v))
  }

  function OpenFirst(boxes: seq<Box>, text: string): Option<Value> {
    if boxes == [] then None
    else if boxes[0].open(text).Some? then boxes[0].open(text)
    else OpenFirst(boxes[1..], text)
  }

  function Decrypt(k: Keyring, v: Value): Option<Value> {
    if !LooksSealed(v) then Some(v) else OpenFirst([k.box] + k.fallbacks, v.fields["data"].s)
  }

  /** `_decrypt`'s loop over the boxes: the first box that opens the text decides. */
  method TryBoxes(boxes: seq<Box>, text: string) returns (res: Option<Value>)
    ensures res == OpenFirst(boxes, text)
  {
    for i := 0 to |boxes|
      invariant OpenFirst(boxes, text) == OpenFirst(boxes[i..], text)
    {
      res := boxes[i].open(text);
      if res.Some? {
        return;
      }
      assert boxes[i..][1..] == boxes[i + 1..];
    }
    res := None;
  }

  lemma SealedIsSealed(text: string)
    ensures LooksSealed(Sealed(text)) && Sealed(text).fields["data"] == Str(text)
  {
  }

  /** Some box of the keyring opens what `sealer` seals, and no box before it opens anything of it. */
  ghost predicate CanRead(boxes: seq<Box>, sealer: Box) {
    exists i :: 0 <= i < |boxes| && Opens(boxes[i], sealer) && forall j :: 0 <= j < i ==> Rejects(boxes[j], sealer)
  }

  lemma {:induction false} OpenFirstReads(boxes: seq<Box>, sealer: Box, nonce: string, v: Value)
    requires CanRead(boxes, sealer)
    ensures OpenFirst(boxes, sealer.seal(nonce, v)) == Some(v)
  {
    var i :| 0 <= i < |boxes| && Opens(boxes[i], sealer) && forall j :: 0 <= j < i ==> Rejects(boxes[j], sealer);
    if i > 0 {
      assert Rejects(boxes[0], sealer);
      assert Opens(boxes[1..][i - 1], sealer);
      assert forall j :: 0 <= j < i - 1 ==> Rejects(boxes[1..][j], sealer);
      OpenFirstReads(boxes[1..], sealer, nonce, v);
    }
  }

  /**
   * Encryption round trip, also across a key rotation: what `old` encrypted is decrypted by `now` for
   * every value that does not itself look sealed. If no box opens a text to a value carrying that text,
   * those are the only values that come back.
   */
  lemma {:induction false} EncryptRoundTripIff(old_: Keyring, now: Keyring, nonce: string, v: Value)
    requires CanRead([now.box] + now.fallbacks, old_.box)
    requires forall i :: 0 <= i < |[now.box] + now.fallbacks| ==> NoSelfSeal(([now.box] + now.fallbacks)[i])
    ensures Decrypt(now, Encrypt(old_, nonce, v)) == Some(v) <==> !LooksSealed(v)
  {
    var boxes := [now.box] + now.fallbacks;
    if LooksSealed(v) {
      OpenFirstIsSome(boxes, v.fields["data"].s);
    } else if !IsMarked(v) {
      SealedIsSealed(old_.box.seal(nonce, v));
      OpenFirstReads(boxes, old_.box, nonce, v);
    }
  }

  lemma {:induction false} OpenFirstIsSome(boxes: seq<Box>, text: string)
    requires forall i :: 0 <= i < |boxes| ==> NoSelfSeal(boxes[i])
    ensures OpenFirst(boxes, text).Some? && OpenFirst(boxes, text).value.Obj? ==>
              Get(OpenFirst(boxes, text).value.fields, "data") != Str(text)
  {
    if boxes != [] {
      assert NoSelfSeal(boxes[0]);
      assert forall i :: 0 <= i < |boxes| - 1 ==> NoSelfSeal(boxes[1..][i]);
      OpenFirstIsSome(boxes[1..], text);
    }
  }

  function EncryptionLayer(k: Keyring): Layer<World> {
    Layer(false, (w: World) => false,
          (w: World, v: Value) => Decrypt(k, v),
          (w: World, r: OutputResult) =>
            if k.decryptOnly || r.output.None? then Some((w, r))
            else
              var (nonce, w1) := w.Draw();
              Some((w1, r.(output := Some(Encrypt(k, nonce, r.output.value))))))
  }

  // ----- The in-memory store -----

  const REMOTE_STATE := "__REMOTE_STATE__"
  const MEMORY := "inngest/memory"

  function Placeholder(key: string): Value {
    Obj(map[REMOTE_STATE := Bool(true), STRATEGY := Str(MEMORY), "key" := Str(key)])
  }

  predicate IsPlaceholder(v: Value) {
    v.Obj? && REMOTE_STATE in v.fields && Get(v.fields, STRATEGY) == Str(MEMORY)
  }

  /** Loading one memo: `None` where the placeholder has no key or the store does not know it. */
  function Load(store: map<string, Value>, v: Value): Option<Value> {
    if !IsPlaceholder(v) then Some(v)
    else if !Get(v.fields, "key").Str? || v.fields["key"].s !in store then None
    else Some(store[v.fields["key"].s])
  }

  class InMemoryDriver {
    var data: map<string, Value>

    constructor ()
      ensures data == map[]
    {
      data := map[];
    }

    /** Stores `value` under a new key and returns the placeholder for it. */
    method SaveStep(key: string, value: Value) returns (placeholder: Value)
      modifies this
      ensures data == old(data)[key := value]
      ensures Load(data, placeholder) == Some(value)
      ensures key !in old(data) ==>
                forall p :: Load(old(data), p).Some? && !(IsPlaceholder(p) && Get(p.fields, "key") == Str(key)) ==>
                  Load(data, p) == Load(old(data), p)
    {
      data := data[key := value];
      placeholder := Placeholder(key);
    }

    /** Hydrates all steps, in place; stops where loading raises. */
    method LoadSteps(steps: array<Output>) returns (ok: bool)
      modifies steps
      ensures ok <==> forall i :: 0 <= i < steps.Length ==> Load(data, old(steps[i].data)).Some?
      ensures ok ==> forall i :: 0 <= i < steps.Length ==>
                       steps[i] == old(steps[i]).(data := Load(data, old(steps[i].data)).value)
    {
      for n := 0 to steps.Length
        invariant forall i :: 0 <= i < n ==> Load(data, old(steps[i].data)).Some?
                                             && steps[i] == old(steps[i]).(data := Load(data, old(steps[i].data)).value)
        invariant forall i :: n <= i < steps.Length ==> steps[i] == old(steps[i])
      {
        var loaded := Load(data, steps[n].data);
        if loaded.None? {
          return false;
        }
        steps[n] := steps[n].(data := loaded.value);
      }
      ok := true;
    }
  }

  function RemoteStateLayer(driver: nat): Layer<World> {
    Layer(false, (w: World) => false,
          (w: World, v: Value) => Load(w.Store(driver), v),
          (w: World, r: OutputResult) =>
            if r.op != Some(StepRun) || r.output.None? then Some((w, r))
            else
              var (key, w1) := w.Draw();
              Some((w1.(stores := w1.stores[driver := w.Store(driver)[key := r.output.value]]),
                    r.(output := Some(Placeholder(key))))))
  }
}
