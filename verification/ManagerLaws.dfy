/** The manager's passes with real middlewares: what leaves it is not the plain value, and it comes back as it was. */
module ManagerLaws {
  import opened Values
  import opened StepIds
  import opened Memos
  import opened Programs
  import opened Middleware
  import opened Stores
  import opened StackLaws

  // ----- What is sent -----

  /** Sealed data, with the text of the sealed value. */
  predicate IsSealed(v: Value) {
    && v.Obj?
    && "__ENCRYPTED__" in v.fields && v.fields["__ENCRYPTED__"] == Bool(true)
    && "__STRATEGY__" in v.fields && v.fields["__STRATEGY__"] == Str("inngest/libsodium")
    && "data" in v.fields && v.fields["data"].Str?
  }

  /** A reference to a value in the store, by its key. */
  predicate IsReference(v: Value) {
    && v.Obj?
    && "__REMOTE_STATE__" in v.fields
    && "__STRATEGY__" in v.fields && v.fields["__STRATEGY__"] == Str("inngest/memory")
    && "key" in v.fields && v.fields["key"].Str?
  }

  predicate Hidden(v: Value) {
    IsSealed(v) || IsReference(v)
  }

  /** These are the values that the input hooks take for sealed data and for references. */
  lemma MarksAre(v: Value)
    ensures LooksSealed(v) <==> IsSealed(v)
    ensures IsMarked(v) <==> v.Obj? && "__ENCRYPTED__" in v.fields && v.fields["__ENCRYPTED__"] == Bool(true)
    ensures IsEncrypted(v) <==>
              IsMarked(v) && "__STRATEGY__" in v.fields && v.fields["__STRATEGY__"] == Str("inngest/libsodium")
    ensures IsPlaceholder(v) <==>
              v.Obj? && "__REMOTE_STATE__" in v.fields
              && "__STRATEGY__" in v.fields && v.fields["__STRATEGY__"] == Str("inngest/memory")
  {
  }

  /** Decryption opens sealed data with the first box of the keyring that can, or is refused; all else passes. */
  lemma DecryptIs(k: Keyring, v: Value)
    ensures !IsSealed(v) ==> Decrypt(k, v) == Some(v)
    ensures IsSealed(v) && k.box.open(v.fields["data"].s).Some? ==> Decrypt(k, v) == k.box.open(v.fields["data"].s)
    ensures IsSealed(v) && k.box.open(v.fields["data"].s).None? ==>
              Decrypt(k, v) == OpenFirst(k.fallbacks, v.fields["data"].s)
    ensures IsSealed(v) && (forall i :: 0 <= i < |[k.box] + k.fallbacks| ==> ([k.box] + k.fallbacks)[i].open(v.fields["data"].s).None?)
            ==> Decrypt(k, v).None?
  {
    var boxes := [k.box] + k.fallbacks;
    assert boxes[1..] == k.fallbacks;
    if IsSealed(v) { NoBoxOpens(boxes, v.fields["data"].s); }
  }

  lemma {:induction false} NoBoxOpens(boxes: seq<Box>, text: string)
    ensures (forall i :: 0 <= i < |boxes| ==> boxes[i].open(text).None?) <==> OpenFirst(boxes, text).None?
  {
    if boxes != [] {
      NoBoxOpens(boxes[1..], text);
      assert forall i :: 1 <= i < |boxes| ==> boxes[i] == boxes[1..][i - 1];
      assert forall i :: 0 <= i < |boxes[1..]| ==> boxes[1..][i] == boxes[i + 1];
    }
  }

  /** An output hook hides a value that is not marked as encrypted, if its layer wraps; and it uncovers nothing. */
  lemma LayerHides(kind: Kind, w: World, r: OutputResult)
    requires r.output.Some? && r.op == Some(StepRun)
    ensures var out := LayerOf(kind).transformOutput(w, r);
            && out.Some? && out.value.1.output.Some? && out.value.1.op == r.op
            && (Hidden(r.output.value) || (Wraps([kind]) && !IsMarked(r.output.value)) ==> Hidden(out.value.1.output.value))
            && (!Wraps([kind]) ==> out.value.1.output == r.output)
  {
    assert [kind][0] == kind;
  }

  /** What a stack with a wrapping layer sends off for a step is sealed or a reference. */
  lemma {:induction false} StackHides(kinds: seq<Kind>, w: World, r: OutputResult)
    requires r.output.Some? && r.op == Some(StepRun)
    requires Hidden(r.output.value) || (Wraps(kinds) && !IsMarked(r.output.value))
    ensures var pass := OutputPass(LayersOf(kinds), w, r);
            pass.Done? && pass.r.output.Some? && Hidden(pass.r.output.value)
    decreases |kinds|
  {
    if kinds != [] {
      hide Hidden, Wraps, IsMarked;
      var front, last := kinds[..|kinds| - 1], kinds[|kinds| - 1];
      assert LayersOf(kinds)[..|kinds| - 1] == LayersOf(front);
      WrapsSplit(kinds);
      LayerHides(last, w, r);
      var out := LayerOf(last).transformOutput(w, r).value;
      StackHides(front, out.0, out.1);
    } else {
      assert !Wraps(kinds);
    }
  }

  /** The layers that are not the last to wrap leave an encryption's seal as the outermost form. */
  lemma EncryptionSeals(k: Keyring, w: World, v: Value, op: Option<Opcode>)
    requires !k.decryptOnly && !IsMarked(v)
    ensures var out := EncryptionLayer(k).transformOutput(w, HookResult(v, op));
            && out.Some? && out.value.1 == HookResult(out.value.1.output.value, op)
            && IsSealed(out.value.1.output.value)
            && out.value.1.output.value.fields["data"] == Str(k.box.seal(w.entropy(w.drawn), v))
            && out.value.0.drawn == w.drawn + 1 && out.value.0.stores == w.stores
  {
  }

  /** A layer that only decrypts sends output as it is. */
  lemma DecryptOnlySends(k: Keyring, w: World, r: OutputResult)
    requires k.decryptOnly
    ensures EncryptionLayer(k).transformOutput(w, r) == Some((w, r))
  {
  }

  /**
   * Remote state stores the output of `step.run` under a new key and sends a reference to it; what other steps
   * and the function give is sent as it is.
   */
  lemma RemoteStateRefers(driver: nat, w: World, v: Value, op: Option<Opcode>)
    ensures var out := RemoteStateLayer(driver).transformOutput(w, HookResult(v, op));
            && out.Some?
            && (op != Some(StepRun) ==> out.value == (w, HookResult(v, op)))
            && (op == Some(StepRun) ==>
                  && out.value.1 == HookResult(out.value.1.output.value, op)
                  && IsReference(out.value.1.output.value)
                  && out.value.1.output.value.fields["key"] == Str(w.entropy(w.drawn))
                  && out.value.0.Store(driver) == w.Store(driver)[w.entropy(w.drawn) := v]
                  && out.value.0.drawn == w.drawn + 1)
  {
  }

  /** Loading is refused exactly for a reference whose key is missing or unknown; other values pass as they are. */
  lemma LoadIs(store: map<string, Value>, v: Value)
    ensures IsReference(v) ==> Load(store, v) == if v.fields["key"].s in store then Some(store[v.fields["key"].s]) else None
    ensures !v.Obj? || "__REMOTE_STATE__" !in v.fields ==> Load(store, v) == Some(v)
    ensures v.Obj? && Get(v.fields, "__STRATEGY__") != Str("inngest/memory") ==> Load(store, v) == Some(v)
    ensures Load(store, v).None? ==>
              v.Obj? && "__REMOTE_STATE__" in v.fields && (IsReference(v) ==> v.fields["key"].s !in store)
  {
  }

  // ----- There and back through the manager -----

  /**
   * The output of a step, or with no opcode of the function, through the manager's output pass, and back
   * through its input pass when the stores have changed as `grow` says.
   */
  method Journey(kinds: seq<Kind>, w: World, v: Value, op: Option<Opcode>, grow: World -> World)
    returns (sent: Value, back: Value)
    requires FreshKeys(w) && ValueFits(kinds, HookResult(v, op)) && forall w1 :: Keeps(w1, grow(w1))
    ensures back == v
    ensures op == Some(StepRun) && Wraps(kinds) && !IsMarked(v) ==> Hidden(sent)
    ensures op == Some(StepRun) && Wraps(kinds) && !Hidden(v) && !IsMarked(v) ==> sent != v
    ensures op == Some(StepRun) && !Wraps(kinds) ==> sent == v
  {
    var r := HookResult(v, op);
    StackKeeps(kinds, w, r);
    if op == Some(StepRun) { JourneySends(kinds, w, v); }
    var manager := new MiddlewareManager<World>(LayersOf(kinds), w);
    var nothing := OutputResult(None, None, None);
    var res, err := manager.TransformOutputSync(if op.Some? then CallRes(nothing, Some([r])) else CallRes(r, None));
    assert err.None?;
    sent := Single(res).output.value;
    ghost var later := grow(manager.world);
    StackRoundTrip(kinds, w, v, op, later);
    manager.world := grow(manager.world);
    var steps := new Value[1](_ => sent);
    var ok := manager.TransformInputSync(steps);
    LayersAreSync(kinds);
    back := steps[0];
  }

  lemma LayersAreSync(kinds: seq<Kind>)
    ensures forall l :: 0 <= l < |LayersOf(kinds)| ==> !LayersOf(kinds)[l].isAsync
  {
  }

  lemma JourneySends(kinds: seq<Kind>, w: World, v: Value)
    ensures var pass := OutputPass(LayersOf(kinds), w, HookResult(v, Some(StepRun)));
            && pass.Done? && pass.r.output.Some?
            && (Wraps(kinds) && !IsMarked(v) ==> Hidden(pass.r.output.value))
            && (!Wraps(kinds) ==> pass.r.output == Some(v))
  {
    var r := HookResult(v, Some(StepRun));
    StackSends(kinds, w, r);
    if Wraps(kinds) && !IsMarked(v) { StackHides(kinds, w, r); }
  }
}
