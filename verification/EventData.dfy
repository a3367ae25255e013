/** Event data: one field is encrypted on the way out, and what looks encrypted is decrypted on the way in. */
module EventData {
  import opened Values
  import opened Stores

  type Data = map<string, Value>

  /** `before_send_events` on one event. */
  function EncryptEvent(k: Keyring, field: string, nonce: string, data: Data): Data {
    if k.decryptOnly || Get(data, field).Null? then data else data[field := Encrypt(k, nonce, data[field])]
  }

  /** The keys in the order they are looked at: the expected field first, then in insertion order. */
  function SortedKeys(field: string, order: seq<string>): seq<string> {
    (if field in order then [field] else []) + Others(field, order)
  }

  function Others(field: string, order: seq<string>): seq<string> {
    if order == [] then [] else (if order[0] == field then [] else [order[0]]) + Others(field, order[1..])
  }

  /** Decrypts the first field that looks encrypted, and no other. */
  function DecryptFirst(k: Keyring, keys: seq<string>, data: Data): Option<Data> {
    if keys == [] then Some(data)
    else if !IsEncrypted(Get(data, keys[0])) then DecryptFirst(k, keys[1..], data)
    else
      match Decrypt(k, Get(data, keys[0]))
      case Some(v) => Some(data[keys[0] := v])
      case None => None
  }

  /** `_decrypt_event_data`; `order` is the insertion order of the keys of `data`. */
  function DecryptEvent(k: Keyring, field: string, order: seq<string>, data: Data): Option<Data> {
    if !IsEncrypted(Obj(data)) then DecryptFirst(k, SortedKeys(field, order), data)
    else
      match Decrypt(k, Obj(data)) {
        case Some(Obj(fields)) => Some((data - {ENCRYPTED, STRATEGY, "data"}) + fields)
        case _ => None
      }
  }

  lemma {:induction false} NothingSealed(k: Keyring, keys: seq<string>, data: Data)
    requires forall key :: key in keys ==> key in data && !LooksSealed(data[key])
    ensures DecryptFirst(k, keys, data) == Some(data)
  {
    if keys != [] {
      assert keys[0] in data;
      if IsEncrypted(data[keys[0]]) {
        assert data[keys[0] := data[keys[0]]] == data;
      } else {
        NothingSealed(k, keys[1..], data);
      }
    }
  }

  lemma {:induction false} OthersAre(field: string, order: seq<string>)
    ensures forall key :: key in Others(field, order) ==> key in order
  {
    if order != [] { OthersAre(field, order[1..]); }
  }

  lemma SortedAre(field: string, order: seq<string>)
    ensures forall key :: key in SortedKeys(field, order) ==> key in order
    ensures field in order ==> SortedKeys(field, order) != [] && SortedKeys(field, order)[0] == field
  {
    OthersAre(field, order);
  }

  /**
   * Event round trip, also across a key rotation: event data that does not itself look encrypted, in whole
   * or in any field, arrives as it was sent, whatever order its keys are in.
   */
  lemma {:induction false} EventRoundTrip(old_: Keyring, now: Keyring, field: string, nonce: string,
                                          order: seq<string>, data: Data)
    requires CanRead([now.box] + now.fallbacks, old_.box)
    requires forall key :: key in order <==> key in data
    requires !IsEncrypted(Obj(data)) && forall key :: key in data ==> !LooksSealed(data[key])
    ensures DecryptEvent(now, field, order, EncryptEvent(old_, field, nonce, data)) == Some(data)
  {
    var sent := EncryptEvent(old_, field, nonce, data);
    SortedAre(field, order);
    if sent == data {
      NothingSealed(now, SortedKeys(field, order), data);
    } else {
      var text := old_.box.seal(nonce, data[field]);
      SealedIsSealed(text);
      OpenFirstReads([now.box] + now.fallbacks, old_.box, nonce, data[field]);
      assert sent[field := data[field]] == data;
    }
  }

  /** Without the condition it fails: a field that looks sealed with the reader's key is sent as it is and arrives opened. */
  lemma {:induction false} SealedFieldIsOpened(k: Keyring, nonce: string, v: Value)
    requires CanRead([k.box] + k.fallbacks, k.box) && v != Sealed(k.box.seal(nonce, v))
    ensures var data: Data := map["encrypted" := Sealed(k.box.seal(nonce, v))];
            DecryptEvent(k, "encrypted", ["encrypted"], EncryptEvent(k, "encrypted", nonce, data)) == Some(map["encrypted" := v])
  {
    var text := k.box.seal(nonce, v);
    var data: Data := map["encrypted" := Sealed(text)];
    SealedIsSealed(text);
    OpenFirstReads([k.box] + k.fallbacks, k.box, nonce, v);
    SortedAre("encrypted", ["encrypted"]);
    assert !IsEncrypted(Obj(data));
    assert EncryptEvent(k, "encrypted", nonce, data) == data;
    assert data["encrypted" := v] == map["encrypted" := v];
  }

  // ----- What is sent -----

  /**
   * What leaves: the field's value sealed with the key, and nothing else changed; or the data as it is, exactly
   * if the key only decrypts, there is nothing in the field, or its value is marked as encrypted already.
   */
  lemma {:induction false} SentIsSealed(k: Keyring, field: string, nonce: string, data: Data)
    ensures var sent := EncryptEvent(k, field, nonce, data);
            if k.decryptOnly || field !in data || data[field].Null?
               || (data[field].Obj? && "__ENCRYPTED__" in data[field].fields && data[field].fields["__ENCRYPTED__"] == Bool(true))
            then sent == data
            else
              && sent.Keys == data.Keys
              && (forall key :: key in data && key != field ==> sent[key] == data[key])
              && sent[field] == Obj(map["__ENCRYPTED__" := Bool(true), "__STRATEGY__" := Str("inngest/libsodium"),
                                        "data" := Str(k.box.seal(nonce, data[field]))])
  {
    if field in data && IsMarked(data[field]) { assert data[field := data[field]] == data; }
  }

  // ----- What is opened on arrival -----

  /** Data that is sealed as a whole, with fields beside it that are not. */
  function WhollySealed(text: string, beside: Data): Data {
    beside[ENCRYPTED := Bool(true)][STRATEGY := Str(LIBSODIUM)]["data" := Str(text)]
  }

  /**
   * Event data that was sealed as a whole arrives as the sealed fields together with the others; it is refused if
   * no key opens it or if it is not an object.
   */
  lemma {:induction false} WholeIsOpened(k: Keyring, field: string, order: seq<string>, text: string, beside: Data)
    requires ENCRYPTED !in beside && STRATEGY !in beside && "data" !in beside
    ensures var inside := OpenFirst([k.box] + k.fallbacks, text);
            DecryptEvent(k, field, order, WhollySealed(text, beside)) ==
              if inside.Some? && inside.value.Obj? then Some(beside + inside.value.fields) else None
  {
    var data := WhollySealed(text, beside);
    assert IsEncrypted(Obj(data)) && LooksSealed(Obj(data));
    assert data - {ENCRYPTED, STRATEGY, "data"} == beside;
  }

  /** Sealed with a key that the reader knows, the fields are there again, over those beside. */
  lemma {:induction false} WholeRoundTrip(old_: Keyring, now: Keyring, field: string, nonce: string, order: seq<string>,
                                          fields: Data, beside: Data)
    requires CanRead([now.box] + now.fallbacks, old_.box)
    requires ENCRYPTED !in beside && STRATEGY !in beside && "data" !in beside
    ensures DecryptEvent(now, field, order, WhollySealed(old_.box.seal(nonce, Obj(fields)), beside)) == Some(beside + fields)
  {
    var text := old_.box.seal(nonce, Obj(fields));
    OpenFirstReads([now.box] + now.fallbacks, old_.box, nonce, Obj(fields));
    WholeIsOpened(now, field, order, text, beside);
  }

  /** The keys without `field` stay in their order. */
  lemma {:induction false} OthersInOrder(field: string, a: seq<string>, b: seq<string>)
    requires field !in a && field !in b
    ensures Others(field, a + b) == a + b && Others(field, a + [field] + b) == a + b
  {
    if a == [] {
      assert a + b == b && a + [field] + b == [field] + b && ([field] + b)[1..] == b;
      OthersAlone(field, b);
    } else {
      assert (a + b)[1..] == a[1..] + b && (a + [field] + b)[1..] == a[1..] + [field] + b;
      OthersInOrder(field, a[1..], b);
      assert [a[0]] + (a[1..] + b) == a + b;
    }
  }

  lemma {:induction false} OthersAlone(field: string, order: seq<string>)
    requires field !in order
    ensures Others(field, order) == order
  {
    if order != [] { OthersAlone(field, order[1..]); }
  }

  lemma {:induction false} FirstSealedDecides(k: Keyring, before: seq<string>, key: string, after: seq<string>,
                                              data: Data)
    requires forall b :: b in before ==> !IsEncrypted(Get(data, b))
    requires IsEncrypted(Get(data, key))
    ensures DecryptFirst(k, before + [key] + after, data) ==
            match Decrypt(k, Get(data, key)) case Some(v) => Some(data[key := v]) case None => None
  {
    var keys := before + [key] + after;
    if before == [] {
      assert keys[0] == key;
    } else {
      assert keys[0] == before[0] && keys[1..] == before[1..] + [key] + after;
      FirstSealedDecides(k, before[1..], key, after, data);
    }
  }

  lemma FieldGoesFirst(field: string, before: seq<string>, after: seq<string>)
    requires field !in before && field !in after
    ensures SortedKeys(field, before + [field] + after) == [] + [field] + (before + after)
  {
    OthersInOrder(field, before, after);
    hide Others;
    assert field in before + [field] + after;
  }

  lemma OrderIsKept(field: string, order: seq<string>)
    requires field !in order
    ensures SortedKeys(field, order) == order
  {
    OthersAlone(field, order);
    hide Others;
  }

  /** The keys in the order they are looked at, split at the first one whose value looks encrypted. */
  ghost predicate FirstSealed(keys: seq<string>, before: seq<string>, key: string, after: seq<string>, data: Data) {
    && keys == before + [key] + after
    && LooksSealed(Get(data, key))
    && forall b :: b in before ==> !IsEncrypted(Get(data, b))
  }

  /**
   * Of several sealed fields only one is opened: the expected one if it is sealed (`FieldGoesFirst`), else the
   * first in the order of the event (`OrderIsKept`). The others arrive sealed; if it cannot be opened the event
   * is refused.
   */
  lemma {:induction false} OnlyFirstIsOpened(k: Keyring, field: string, order: seq<string>, before: seq<string>,
                                             key: string,
                                             after: seq<string>, data: Data)
    requires !IsEncrypted(Obj(data)) && FirstSealed(SortedKeys(field, order), before, key, after, data)
    ensures var inside := OpenFirst([k.box] + k.fallbacks, data[key].fields["data"].s);
            DecryptEvent(k, field, order, data) == if inside.Some? then Some(data[key := inside.value]) else None
  {
    hide SortedKeys, OpenFirst;
    FirstSealedDecides(k, before, key, after, data);
    hide DecryptFirst;
  }
}
