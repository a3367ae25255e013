/** Stacks of encryption and remote-state middleware: what comes back after output and input hooks. */
module StackLaws {
  import opened Values
  import opened StepIds
  import opened Memos
  import opened Programs
  import opened Middleware
  import opened Stores

  /** The middlewares of a client. `Plain` overrides no transform hook, like the default logger. */
  datatype Kind = Encrypts(k: Keyring) | Remembers(driver: nat) | Plain

  function LayerOf(kind: Kind): Layer<World> {
    match kind
    case Encrypts(k) => EncryptionLayer(k)
    case Remembers(driver) => RemoteStateLayer(driver)
    case Plain => Layer(false, (w: World) => false, (w: World, v: Value) => Some(v), (w: World, r: OutputResult) => Some((w, r)))
  }

  function LayersOf(kinds: seq<Kind>): seq<Layer<World>> {
    seq(|kinds|, i requires 0 <= i < |kinds| => LayerOf(kinds[i]))
  }

  function Encryptions(kinds: seq<Kind>): nat {
    if kinds == [] then 0
    else Encryptions(kinds[..|kinds| - 1]) + (if kinds[|kinds| - 1].Encrypts? then 1 else 0)
  }

  /** Every key opens what it seals, unless its layer only decrypts. */
  ghost predicate KeysWork(kinds: seq<Kind>) {
    forall i :: 0 <= i < |kinds| && kinds[i].Encrypts? ==> kinds[i].k.decryptOnly || Opens(kinds[i].k.box, kinds[i].k.box)
  }

  ghost predicate Remembering(kinds: seq<Kind>) {
    exists i :: 0 <= i < |kinds| && kinds[i].Remembers?
  }

  /** Keys still to be drawn are new: 32 random characters never repeat and are not in any store. */
  ghost predicate FreshKeys(w: World) {
    && (forall i, j :: w.drawn <= i < j ==> w.entropy(i) != w.entropy(j))
    && (forall i, d :: w.drawn <= i ==> w.entropy(i) !in w.Store(d))
  }

  lemma KeepsTrans(a: World, b: World, c: World)
    requires Keeps(a, b) && Keeps(b, c)
    ensures Keeps(a, c)
  {
  }

  /** Whatever an output hook is given: it succeeds, touches the output only, and what was stored stays. */
  lemma LayerKeeps(kind: Kind, w: World, r: OutputResult)
    requires FreshKeys(w)
    ensures var out := LayerOf(kind).transformOutput(w, r);
            && out.Some?
            && out.value.1 == r.(output := out.value.1.output)
            && (out.value.1.output.Some? <==> r.output.Some?)
            && (r.output.None? ==> out.value == (w, r))
            && Keeps(w, out.value.0) && FreshKeys(out.value.0)
  {
  }

  /** What the input hook could not tell from its own output: such a value does not come back. */
  predicate Fits(kind: Kind, r: OutputResult)
    requires r.output.Some?
  {
    && (kind.Encrypts? ==> !LooksSealed(r.output.value))
    && (kind.Remembers? && r.op != Some(StepRun) ==> !IsPlaceholder(r.output.value))
  }

  /** An output hook undoes itself in any later world, and only makes values look like its own output. */
  lemma LayerWorks(kind: Kind, w: World, r: OutputResult)
    requires FreshKeys(w) && r.output.Some? && KeysWork([kind]) && Fits(kind, r)
    ensures var out := LayerOf(kind).transformOutput(w, r);
            && out.Some? && out.value.1.output.Some?
            && (!kind.Encrypts? && LooksSealed(out.value.1.output.value) ==> LooksSealed(r.output.value))
            && (r.op != Some(StepRun) && IsPlaceholder(out.value.1.output.value) ==> IsPlaceholder(r.output.value))
            && forall later :: Keeps(out.value.0, later) ==>
                 LayerOf(kind).transformInput(later, out.value.1.output.value) == r.output
  {
    match kind
    case Plain =>
    case Encrypts(k) =>
      assert k == [kind][0].k;
      if !k.decryptOnly && !IsMarked(r.output.value) {
        SealedIsSealed(k.box.seal(w.entropy(w.drawn), r.output.value));
      }
    case Remembers(driver) =>
      if r.op == Some(StepRun) {
        var key := w.entropy(w.drawn);
        var w1 := LayerOf(kind).transformOutput(w, r).value.0;
        assert key in w1.Store(driver) && w1.Store(driver)[key] == r.output.value;
        assert Placeholder(key).fields["key"] == Str(key);
      }
  }

  /** At most one encryption, working keys, and a value that no layer would take for its own output. */
  ghost predicate ValueFits(kinds: seq<Kind>, r: OutputResult)
    requires r.output.Some?
  {
    && KeysWork(kinds) && Encryptions(kinds) <= 1
    && (Encryptions(kinds) == 1 ==> !LooksSealed(r.output.value))
    && (Remembering(kinds) && r.op != Some(StepRun) ==> !IsPlaceholder(r.output.value))
  }

  lemma {:induction false} StackKeeps(kinds: seq<Kind>, w: World, r: OutputResult)
    requires FreshKeys(w)
    ensures var pass := OutputPass(LayersOf(kinds), w, r);
            && pass.Done? && Keeps(w, pass.w) && FreshKeys(pass.w)
            && pass.r == r.(output := pass.r.output)
            && (pass.r.output.Some? <==> r.output.Some?)
    decreases |kinds|
  {
    if kinds != [] {
      hide FreshKeys, Keeps;
      var front, last := kinds[..|kinds| - 1], kinds[|kinds| - 1];
      assert LayersOf(kinds)[..|kinds| - 1] == LayersOf(front);
      LayerKeeps(last, w, r);
      var out := LayerOf(last).transformOutput(w, r).value;
      StackKeeps(front, out.0, out.1);
      KeepsTrans(w, out.0, OutputPass(LayersOf(kinds), w, r).w);
    }
  }

  lemma FitsSplit(kinds: seq<Kind>, r: OutputResult)
    requires kinds != [] && r.output.Some? && ValueFits(kinds, r)
    ensures KeysWork([kinds[|kinds| - 1]]) && Fits(kinds[|kinds| - 1], r)
  {
    assert [kinds[|kinds| - 1]][0] == kinds[|kinds| - 1];
  }

  lemma FitsFront(kinds: seq<Kind>, r: OutputResult, r1: OutputResult)
    requires kinds != [] && r.output.Some? && ValueFits(kinds, r) && r1.output.Some? && r1.op == r.op
    requires !kinds[|kinds| - 1].Encrypts? && LooksSealed(r1.output.value) ==> LooksSealed(r.output.value)
    requires r.op != Some(StepRun) && IsPlaceholder(r1.output.value) ==> IsPlaceholder(r.output.value)
    ensures ValueFits(kinds[..|kinds| - 1], r1)
  {
    var front := kinds[..|kinds| - 1];
    hide LooksSealed, IsPlaceholder;
    assert forall i :: 0 <= i < |front| ==> front[i] == kinds[i];
    assert Remembering(front) ==> Remembering(kinds);
  }

  /** Every layer of a stack with at most one encryption undoes itself, in any later world. */
  lemma {:induction false} StackWorks(kinds: seq<Kind>, w: World, r: OutputResult, later: World)
    requires FreshKeys(w) && r.output.Some? && ValueFits(kinds, r)
    requires Keeps(OutputPass(LayersOf(kinds), w, r).w, later)
    ensures EachUndoes(LayersOf(kinds), w, r, later)
    decreases |kinds|
  {
    if kinds != [] {
      hide FreshKeys, Keeps, ValueFits, Fits, LooksSealed, IsPlaceholder, KeysWork;
      var front, last := kinds[..|kinds| - 1], kinds[|kinds| - 1];
      assert LayersOf(kinds)[..|kinds| - 1] == LayersOf(front);
      FitsSplit(kinds, r);
      LayerKeeps(last, w, r);
      LayerWorks(last, w, r);
      var out := LayerOf(last).transformOutput(w, r).value;
      FitsFront(kinds, r, out.1);
      StackKeeps(front, out.0, out.1);
      KeepsTrans(out.0, OutputPass(LayersOf(front), out.0, out.1).w, later);
      StackWorks(front, out.0, out.1, later);
    }
  }

  /** The output of a step or of the function, as the output hooks are given it. */
  function HookResult(v: Value, op: Option<Opcode>): OutputResult {
    OutputResult(None, Some(v), op)
  }

  /**
   * Any stack of remote-state and plain middlewares with at most one encryption or decryption layer gives
   * back every output of `step.run`, whatever is saved later, except one that itself looks sealed. Output
   * of the function comes back too, unless it looks like a placeholder.
   */
  lemma {:induction false} StackRoundTrip(kinds: seq<Kind>, w: World, v: Value, op: Option<Opcode>, later: World)
    requires FreshKeys(w) && ValueFits(kinds, HookResult(v, op))
    requires Keeps(OutputPass(LayersOf(kinds), w, HookResult(v, op)).w, later)
    ensures var pass := OutputPass(LayersOf(kinds), w, HookResult(v, op));
            && pass.Done? && pass.r.output.Some?
            && InputPass(LayersOf(kinds), later, pass.r.output.value) == Some(v)
  {
    StackKeeps(kinds, w, HookResult(v, op));
    StackWorks(kinds, w, HookResult(v, op), later);
    StackInversion(LayersOf(kinds), w, HookResult(v, op), later);
  }

  // ----- Through storage and memo decoding -----

  /** Some layer replaces what `step.run` gave. */
  ghost predicate Wraps(kinds: seq<Kind>) {
    exists i :: 0 <= i < |kinds| && (kinds[i].Remembers? || (kinds[i].Encrypts? && !kinds[i].k.decryptOnly))
  }

  /** An object with a key that nested output forbids. */
  predicate Foreign(v: Value) {
    v.Obj? && !(v.fields.Keys <= {"data", "error"})
  }

  lemma ForeignIsBare(parse: JsonParser, v: Value)
    requires Foreign(v)
    ensures Decode(parse, v) == Output(v, None)
  {
  }

  lemma LayerSends(kind: Kind, w: World, r: OutputResult)
    requires r.output.Some? && r.op == Some(StepRun)
    ensures var out := LayerOf(kind).transformOutput(w, r);
            && out.Some? && out.value.1.output.Some? && out.value.1.op == r.op
            && (Foreign(r.output.value) || Wraps([kind]) ==> Foreign(out.value.1.output.value))
            && (!Wraps([kind]) ==> out.value.1.output == r.output)
  {
    assert [kind][0] == kind;
    match kind
    case Plain =>
    case Encrypts(k) =>
      if IsMarked(r.output.value) { assert ENCRYPTED in r.output.value.fields.Keys; }
      assert ENCRYPTED in Sealed(k.box.seal(w.entropy(w.drawn), r.output.value)).fields.Keys;
    case Remembers(_) => assert REMOTE_STATE in Placeholder(w.entropy(w.drawn)).fields.Keys;
  }

  lemma WrapsSplit(kinds: seq<Kind>)
    requires kinds != []
    ensures Wraps(kinds) <==> Wraps(kinds[..|kinds| - 1]) || Wraps([kinds[|kinds| - 1]])
  {
    var front, last := kinds[..|kinds| - 1], kinds[|kinds| - 1];
    assert [last][0] == last;
    if Wraps(front) {
      var i :| 0 <= i < |front| && (front[i].Remembers? || (front[i].Encrypts? && !front[i].k.decryptOnly));
      assert kinds[i] == front[i];
    }
  }

  /** What a stack sends off has a forbidden key if any layer wraps it, and is the value itself otherwise. */
  lemma {:induction false} StackSends(kinds: seq<Kind>, w: World, r: OutputResult)
    requires r.output.Some? && r.op == Some(StepRun)
    ensures var pass := OutputPass(LayersOf(kinds), w, r);
            && pass.Done? && pass.r.output.Some?
            && (Foreign(r.output.value) || Wraps(kinds) ==> Foreign(pass.r.output.value))
            && (!Wraps(kinds) ==> pass.r.output == r.output)
    decreases |kinds|
  {
    if kinds != [] {
      hide Foreign, Wraps;
      var front, last := kinds[..|kinds| - 1], kinds[|kinds| - 1];
      assert LayersOf(kinds)[..|kinds| - 1] == LayersOf(front);
      WrapsSplit(kinds);
      LayerSends(last, w, r);
      var out := LayerOf(last).transformOutput(w, r).value;
      StackSends(front, out.0, out.1);
    } else {
      assert !Wraps(kinds);
    }
  }

  /** The sent form of a value is read back as the value: stored, decoded as a memo, and sent through the input hooks. */
  ghost predicate Recovers(kinds: seq<Kind>, parse: JsonParser, sent: Value, v: Value, w: World) {
    && Decode(parse, sent).error.None?
    && forall later :: Keeps(w, later) ==> InputPass(LayersOf(kinds), later, Decode(parse, sent).data) == Some(v)
  }

  /**
   * The whole way of a step's output: output hooks, storage, memo decoding, input hooks. It comes back if a
   * layer wraps it, whatever it looks like to the memo decoder; and without one, if it does not look like
   * nested output.
   */
  lemma {:induction false} StackMemoRoundTrip(parse: JsonParser, kinds: seq<Kind>, w: World, v: Value)
    requires FreshKeys(w) && ValueFits(kinds, HookResult(v, Some(StepRun)))
    requires Wraps(kinds) || !OutputShaped(parse, v)
    ensures var pass := OutputPass(LayersOf(kinds), w, HookResult(v, Some(StepRun)));
            && pass.Done? && pass.r.output.Some? && Recovers(kinds, parse, pass.r.output.value, v, pass.w)
  {
    var r := HookResult(v, Some(StepRun));
    StackSends(kinds, w, r);
    var pass := OutputPass(LayersOf(kinds), w, r);
    if Wraps(kinds) { ForeignIsBare(parse, pass.r.output.value); }
    hide OutputPass, InputPass, Wraps, Foreign, FreshKeys, Keeps, ValueFits;
    forall later | Keeps(pass.w, later) ensures InputPass(LayersOf(kinds), later, pass.r.output.value) == Some(v) {
      StackRoundTrip(kinds, w, v, Some(StepRun), later);
    }
  }

  /** Sealed output and placeholders are never taken for nested output when they come back as memos. */
  lemma WrappedIsBare(parse: JsonParser, text: string)
    ensures Decode(parse, Sealed(text)) == Output(Sealed(text), None)
    ensures Decode(parse, Placeholder(text)) == Output(Placeholder(text), None)
  {
    assert ENCRYPTED in Sealed(text).fields.Keys && ENCRYPTED !in {"data", "error"};
    assert REMOTE_STATE in Placeholder(text).fields.Keys && REMOTE_STATE !in {"data", "error"};
  }

  /**
   * With encryption as its only middleware, a step's output survives storage, memo decoding and decryption
   * as data - even an output that would be mistaken for nested output without encryption.
   */
  lemma {:induction false} EncryptedMemoRoundTrip(parse: JsonParser, k: Keyring, nonce: string, v: Value)
    requires Opens(k.box, k.box) && !IsMarked(v)
    ensures var memo := Decode(parse, Encrypt(k, nonce, v));
            memo.error.None? && Decrypt(k, memo.data) == Some(v)
  {
    WrappedIsBare(parse, k.box.seal(nonce, v));
    SealedIsSealed(k.box.seal(nonce, v));
  }

  /**
   * Two encryptions: the outer one finds the value already marked and leaves it alone, so on the way back
   * the outer one has to open what the inner one sealed. The value comes back if its keyring can, and the
   * input hooks raise if it cannot.
   */
  lemma {:induction false} TwoEncryptions(outer: Keyring, inner: Keyring, w: World, v: Value, later: World)
    requires !outer.decryptOnly && !inner.decryptOnly && !IsMarked(v)
    ensures var layers := [EncryptionLayer(outer), EncryptionLayer(inner)];
            var pass := OutputPass(layers, w, OutputResult(None, Some(v), Some(StepRun)));
            && pass.Done? && pass.r.output.Some?
            && (CanRead([outer.box] + outer.fallbacks, inner.box) ==>
                  InputPass(layers, later, pass.r.output.value) == Some(v))
            && ((forall i :: 0 <= i < |[outer.box] + outer.fallbacks| ==>
                   Rejects(([outer.box] + outer.fallbacks)[i], inner.box)) ==>
                  InputPass(layers, later, pass.r.output.value).None?)
  {
    var a, b := EncryptionLayer(outer), EncryptionLayer(inner);
    var layers, boxes := [a, b], [outer.box] + outer.fallbacks;
    var r := OutputResult(None, Some(v), Some(StepRun));
    var nonce := w.entropy(w.drawn);
    var sealed := Sealed(inner.box.seal(nonce, v));
    SealedIsSealed(inner.box.seal(nonce, v));
    var first, second := [a], [b];
    assert layers[..1] == first && first[..0] == [] && layers[1..] == second && second[1..] == [];
    var out := b.transformOutput(w, r).value;
    assert out.1.output == Some(sealed);
    assert OutputPass(layers, w, r) == OutputPass(first, out.0, out.1);
    assert Encrypt(outer, w.entropy(out.0.drawn), sealed) == sealed;
    var out' := a.transformOutput(out.0, out.1).value;
    assert OutputPass(first, out.0, out.1) == OutputPass(first[..0], out'.0, out'.1) == Done(out'.0, out'.1);
    assert Decrypt(inner, v) == Some(v);
    assert InputPass(second, later, v) == Some(v);
    if CanRead(boxes, inner.box) {
      OpenFirstReads(boxes, inner.box, nonce, v);
    }
    if forall i :: 0 <= i < |boxes| ==> Rejects(boxes[i], inner.box) {
      AllReject(boxes, inner.box, nonce, v);
    }
  }

  lemma {:induction false} AllReject(boxes: seq<Box>, sealer: Box, nonce: string, v: Value)
    requires forall i :: 0 <= i < |boxes| ==> Rejects(boxes[i], sealer)
    ensures OpenFirst(boxes, sealer.seal(nonce, v)).None?
  {
    if boxes != [] {
      assert Rejects(boxes[0], sealer);
      assert forall i :: 0 <= i < |boxes| - 1 ==> Rejects(boxes[1..][i], sealer);
      AllReject(boxes[1..], sealer, nonce, v);
    }
  }
}
