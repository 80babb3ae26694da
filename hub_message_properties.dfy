/** What the hub-message codec guarantees: the key-by-key content of every
    encoding, the tags, the round trip, and exactly which documents the
    decoder accepts and which error it reports otherwise. */
module HubMessageProperties {
  import opened Wrappers
  import opened Json
  import opened HubMessages

  // ---------------------------------------------------------------------
  // Encoding
  // ---------------------------------------------------------------------

  /** Under `key`, the body of `m` agrees with the key-by-key view: the key
      is bound exactly when the kind declares it and the field is present,
      and then it holds the field. */
  predicate BodyAgrees(m: Message, key: string) {
    && (key in Keys(Body(m)) <==> WireField(m, key).Some?)
    && (WireField(m, key).Some? ==> (key, WireField(m, key).value) in Body(m))
  }

  /** Every key other than `type` is in the body exactly when the message's
      kind declares it and the field is present, and holds the field. The
      per-kind lemmas below only keep each solver query small: proved in one
      piece, this lemma runs over the resource limit on some seeds. */
  lemma BodyField(m: Message, key: string)
    requires key != "type"
    ensures BodyAgrees(m, key)
  {
    match m
    case Invocation(f) => InvocationBodyAgrees(f, key);
    case StreamItem(f) => StreamItemBodyAgrees(f, key);
    case Completion(f) => CompletionBodyAgrees(f, key);
    case StreamInvocation(f) => StreamInvocationBodyAgrees(f, key);
    case CancelInvokation(f) => CancelInvokationBodyAgrees(f, key);
    case Ping =>
    case Close(f) => CloseBodyAgrees(f, key);
  }

  lemma InvocationBodyAgrees(f: InvocationFields, key: string)
    requires key != "type"
    ensures BodyAgrees(Invocation(f), key)
  {
    assert Body(Invocation(f)) == InvocationEntries(f);
  }

  lemma StreamItemBodyAgrees(f: StreamItemFields, key: string)
    requires key != "type"
    ensures BodyAgrees(StreamItem(f), key)
  {
    assert Body(StreamItem(f)) == StreamItemEntries(f);
  }

  lemma CompletionBodyAgrees(f: CompletionFields, key: string)
    requires key != "type"
    ensures BodyAgrees(Completion(f), key)
  {
    assert Body(Completion(f)) == CompletionEntries(f);
  }

  lemma StreamInvocationBodyAgrees(f: StreamInvocationFields, key: string)
    requires key != "type"
    ensures BodyAgrees(StreamInvocation(f), key)
  {
    assert Body(StreamInvocation(f)) == StreamInvocationEntries(f);
  }

  lemma CancelInvokationBodyAgrees(f: CancelInvokationFields, key: string)
    requires key != "type"
    ensures BodyAgrees(CancelInvokation(f), key)
  {
    assert Body(CancelInvokation(f)) == CancelInvokationEntries(f);
  }

  lemma CloseBodyAgrees(f: CloseFields, key: string)
    requires key != "type"
    ensures BodyAgrees(Close(f), key)
  {
    assert Body(Close(f)) == CloseEntries(f);
  }

  /** Under every key, the encoding of `m` holds exactly what the key-by-key
      view of `m` says: the tag under `type`, each present field under its
      literal name, and nothing under any other key. */
  lemma EncodeFields(m: Message, key: string)
    ensures Lookup(Encode(m), key) == WireField(m, key)
  {
    var head := [("type", Int(Tag(m)))];
    var e := Encode(m).entries;
    assert e == head + Body(m);
    KeysAppend(head, Body(m));
    assert Keys(head) == {"type"} by { assert head[0].0 == "type"; }
    if key != "type" {
      BodyField(m, key);
    }
    if WireField(m, key).Some? {
      if key == "type" {
        assert e[0] == ("type", Int(Tag(m)));
      }
      GetDistinct(e, key, WireField(m, key).value);
    }
  }

  /** Encoding sets `type` to 1..7 in declaration order, so two messages get
      the same tag exactly when they are of the same kind. */
  lemma EncodeTags(a: Message, b: Message)
    ensures a.Invocation? ==> Lookup(Encode(a), "type") == Some(Int(1))
    ensures a.StreamItem? ==> Lookup(Encode(a), "type") == Some(Int(2))
    ensures a.Completion? ==> Lookup(Encode(a), "type") == Some(Int(3))
    ensures a.StreamInvocation? ==> Lookup(Encode(a), "type") == Some(Int(4))
    ensures a.CancelInvokation? ==> Lookup(Encode(a), "type") == Some(Int(5))
    ensures a.Ping? ==> Lookup(Encode(a), "type") == Some(Int(6))
    ensures a.Close? ==> Lookup(Encode(a), "type") == Some(Int(7))
    ensures Lookup(Encode(a), "type") == Lookup(Encode(b), "type") <==> SameKind(a, b)
  {
    EncodeFields(a, "type");
    EncodeFields(b, "type");
  }

  /** `Ping` is the bare tag object: its only key is `type`, holding 6. */
  lemma EncodePing()
    ensures Encode(Ping) == Obj([("type", Int(6))])
    ensures Keys(Encode(Ping).entries) == {"type"}
  {
    assert Encode(Ping).entries[0].0 == "type";
  }

  /** An optional field (`invocation_id`, and `error` on Completion and
      Close) is in the encoding exactly when it is Some, and is never written
      as `null`. */
  lemma EncodeOmitsAbsentOptionals(m: Message)
    ensures "invocation_id" in Keys(Encode(m).entries) <==> InvocationIdOf(m).Some?
    ensures "error" in Keys(Encode(m).entries) <==> ErrorOf(m).Some?
    ensures InvocationIdOf(m).Some? ==> Lookup(Encode(m), "invocation_id") == Some(Str(InvocationIdOf(m).value))
    ensures ErrorOf(m).Some? ==> Lookup(Encode(m), "error") == Some(Str(ErrorOf(m).value))
    ensures Lookup(Encode(m), "invocation_id") != Some(Null) && Lookup(Encode(m), "error") != Some(Null)
  {
    EncodeFields(m, "invocation_id");
    EncodeFields(m, "error");
  }

  /** Required fields are always in the encoding; Completion's `result` is
      there even when its `error` is set. */
  lemma EncodeRequiredFields(m: Message)
    ensures m.Invocation? ==> Lookup(Encode(m), "target") == Some(Str(m.invocation.target))
    ensures m.Invocation? ==> Lookup(Encode(m), "arguments") == Some(m.invocation.arguments)
    ensures m.StreamInvocation? ==> Lookup(Encode(m), "target") == Some(Str(m.streamInvocation.target))
    ensures m.StreamInvocation? ==> Lookup(Encode(m), "arguments") == Some(m.streamInvocation.arguments)
    ensures m.StreamItem? ==> Lookup(Encode(m), "item") == Some(m.streamItem.item)
    ensures m.Completion? ==> Lookup(Encode(m), "result") == Some(m.completion.result)
  {
    EncodeFields(m, "target");
    EncodeFields(m, "arguments");
    EncodeFields(m, "item");
    EncodeFields(m, "result");
  }

  /** The encoding of a message stands for that message. */
  lemma EncodeRepresents(m: Message)
    ensures Represents(Encode(m), m)
  {
    forall k | k in FieldNames(m) ensures Accepts(Lookup(Encode(m), k), WireField(m, k)) {
      EncodeFields(m, k);
    }
  }

  // ---------------------------------------------------------------------
  // Decoding
  // ---------------------------------------------------------------------

  /** A decoded message is one the document stands for. */
  lemma DecodeRepresents(j: Json, m: Message)
    requires Decode(j) == Ok(m)
    ensures Represents(j, m)
  {
    var e := j.entries;
    forall k | k in FieldNames(m) ensures Accepts(Lookup(j, k), WireField(m, k)) {
      match m
      case Invocation(f) =>
        assert OptionalString(e, "invocation_id") == Ok(f.invocationId);
        assert RequiredString(e, "target") == Ok(f.target);
        assert RequiredValue(e, "arguments") == Ok(f.arguments);
      case StreamItem(f) =>
        assert OptionalString(e, "invocation_id") == Ok(f.invocationId);
        assert RequiredValue(e, "item") == Ok(f.item);
      case Completion(f) =>
        assert OptionalString(e, "invocation_id") == Ok(f.invocationId);
        assert OptionalString(e, "error") == Ok(f.error);
        assert RequiredValue(e, "result") == Ok(f.result);
      case StreamInvocation(f) =>
        assert OptionalString(e, "invocation_id") == Ok(f.invocationId);
        assert RequiredString(e, "target") == Ok(f.target);
        assert RequiredValue(e, "arguments") == Ok(f.arguments);
      case CancelInvokation(f) =>
        assert OptionalString(e, "invocation_id") == Ok(f.invocationId);
      case Ping =>
      case Close(f) =>
        assert OptionalString(e, "error") == Ok(f.error);
    }
  }

  /** An optional string field decodes to `v` whenever the document's entry
      is acceptable for `v`. */
  lemma OptionalStringAccepts(entries: seq<(string, Json)>, key: string, v: Option<string>)
    requires Accepts(Get(entries, key), OptionalJson(v))
    ensures OptionalString(entries, key) == Ok(v)
  {
  }

  /** A document that stands for `m` decodes to `m`. */
  lemma RepresentsDecodes(j: Json, m: Message)
    requires Represents(j, m)
    ensures Decode(j) == Ok(m)
  {
    var e := j.entries;
    assert "type" in FieldNames(m);
    assert Get(e, "type") == Some(Int(Tag(m)));
    assert TypeTag(j) == Some(Tag(m));
    match m
    case Invocation(f) =>
      assert "invocation_id" in FieldNames(m) && "target" in FieldNames(m) && "arguments" in FieldNames(m);
      OptionalStringAccepts(e, "invocation_id", f.invocationId);
    case StreamItem(f) =>
      assert "invocation_id" in FieldNames(m) && "item" in FieldNames(m);
      OptionalStringAccepts(e, "invocation_id", f.invocationId);
    case Completion(f) =>
      assert "invocation_id" in FieldNames(m) && "error" in FieldNames(m) && "result" in FieldNames(m);
      OptionalStringAccepts(e, "invocation_id", f.invocationId);
      OptionalStringAccepts(e, "error", f.error);
    case StreamInvocation(f) =>
      assert "invocation_id" in FieldNames(m) && "target" in FieldNames(m) && "arguments" in FieldNames(m);
      OptionalStringAccepts(e, "invocation_id", f.invocationId);
    case CancelInvokation(f) =>
      assert "invocation_id" in FieldNames(m);
      OptionalStringAccepts(e, "invocation_id", f.invocationId);
    case Ping =>
    case Close(f) =>
      assert "error" in FieldNames(m);
      OptionalStringAccepts(e, "error", f.error);
  }

  /** The decoder accepts a document as `m` if and only if the document
      stands for `m`. */
  lemma DecodeExactly(j: Json, m: Message)
    ensures Decode(j) == Ok(m) <==> Represents(j, m)
  {
    if Decode(j) == Ok(m) {
      DecodeRepresents(j, m);
    }
    if Represents(j, m) {
      RepresentsDecodes(j, m);
    }
  }

  /** Decoding the encoding of any message gives the message back, for every
      kind and every optional field present or absent. */
  lemma RoundTrip(m: Message)
    ensures Decode(Encode(m)) == Ok(m)
  {
    EncodeRepresents(m);
    RepresentsDecodes(Encode(m), m);
  }

  /** Decoding dispatches on `type`: a tag in 1..7 yields that kind or, when
      the kind's fields are not there, `MalformedField`; tag 6 yields `Ping`
      whatever else the object holds. */
  lemma DecodeDispatch(j: Json)
    requires TypeTag(j).Some? && 1 <= TypeTag(j).value <= 7
    ensures Decode(j).Ok? ==> Tag(Decode(j).value) == TypeTag(j).value
    ensures Decode(j).Err? ==> Decode(j).error == MalformedField
    ensures TypeTag(j).value == 6 ==> Decode(j) == Ok(Ping)
  {
  }

  /** For a tag in 1..7, decoding fails exactly when no message of any kind
      is stood for by the document. */
  lemma DecodeMalformedExactly(j: Json)
    requires TypeTag(j).Some? && 1 <= TypeTag(j).value <= 7
    ensures Decode(j) == Err(MalformedField) <==> forall m :: !Represents(j, m)
  {
    if Decode(j).Ok? {
      DecodeRepresents(j, Decode(j).value);
    } else {
      forall m ensures !Represents(j, m) {
        DecodeExactly(j, m);
      }
    }
  }

  /** An Invocation or StreamInvocation without a string `target` is
      rejected as malformed. */
  lemma MissingTargetRejected(j: Json)
    requires TypeTag(j) == Some(1) || TypeTag(j) == Some(4)
    requires Lookup(j, "target").None? || !Lookup(j, "target").value.Str?
    ensures Decode(j) == Err(MalformedField)
  {
    var e := j.entries;
    assert RequiredString(e, "target").Err?;
    assert DecodeInvocationFields(e).Err? && DecodeStreamInvocationFields(e).Err?;
  }

  /** The decoder reads no key outside the seven it knows: two objects that
      agree on those decode alike. */
  lemma DecodeReadsOnlyKnownKeys(a: seq<(string, Json)>, b: seq<(string, Json)>)
    requires forall k :: k in KnownKeys ==> Get(a, k) == Get(b, k)
    ensures Decode(Obj(a)) == Decode(Obj(b))
  {
    assert "type" in KnownKeys && "invocation_id" in KnownKeys && "error" in KnownKeys && "target" in KnownKeys;
    assert "arguments" in KnownKeys && "item" in KnownKeys && "result" in KnownKeys;
    FieldDecodersAgree(a, b);
    DecodeAgrees(a, b);
  }

  /** Every field decoder of two objects that agree on the field keys gives
      the same outcome. */
  lemma FieldDecodersAgree(a: seq<(string, Json)>, b: seq<(string, Json)>)
    requires Get(a, "invocation_id") == Get(b, "invocation_id") && Get(a, "error") == Get(b, "error")
    requires Get(a, "target") == Get(b, "target") && Get(a, "arguments") == Get(b, "arguments")
    requires Get(a, "item") == Get(b, "item") && Get(a, "result") == Get(b, "result")
    ensures DecodeInvocationFields(a) == DecodeInvocationFields(b)
    ensures DecodeStreamItemFields(a) == DecodeStreamItemFields(b)
    ensures DecodeCompletionFields(a) == DecodeCompletionFields(b)
    ensures DecodeStreamInvocationFields(a) == DecodeStreamInvocationFields(b)
    ensures DecodeCancelInvokationFields(a) == DecodeCancelInvokationFields(b)
    ensures DecodeCloseFields(a) == DecodeCloseFields(b)
  {
    // Naming each field reader halves the solver's work; without these the
    // lemma still holds but costs about twice as much.
    assert OptionalString(a, "invocation_id") == OptionalString(b, "invocation_id");
    assert OptionalString(a, "error") == OptionalString(b, "error");
    assert RequiredString(a, "target") == RequiredString(b, "target");
    assert RequiredValue(a, "arguments") == RequiredValue(b, "arguments");
    assert RequiredValue(a, "item") == RequiredValue(b, "item");
    assert RequiredValue(a, "result") == RequiredValue(b, "result");
  }

  /** Two objects with the same `type` whose field decoders agree decode
      alike. */
  lemma DecodeAgrees(a: seq<(string, Json)>, b: seq<(string, Json)>)
    requires Get(a, "type") == Get(b, "type")
    requires DecodeInvocationFields(a) == DecodeInvocationFields(b)
    requires DecodeStreamItemFields(a) == DecodeStreamItemFields(b)
    requires DecodeCompletionFields(a) == DecodeCompletionFields(b)
    requires DecodeStreamInvocationFields(a) == DecodeStreamInvocationFields(b)
    requires DecodeCancelInvokationFields(a) == DecodeCancelInvokationFields(b)
    requires DecodeCloseFields(a) == DecodeCloseFields(b)
    ensures Decode(Obj(a)) == Decode(Obj(b))
  {
    var t := TypeTag(Obj(a));
    assert t == TypeTag(Obj(b));
    // Both documents take the same branch of `Decode`, and its decoders
    // agree. The split by tag is not needed for the proof to hold, only to
    // keep it well inside the resource limit on every seed.
    match t
    case Some(1) =>
    case Some(2) =>
    case Some(3) =>
    case Some(4) =>
    case Some(5) =>
    case Some(7) =>
    case _ =>
  }

  /** Inserting an entry under an unknown key anywhere in an object does not
      change what it decodes to. */
  lemma DecodeIgnoresUnknownKeys(entries: seq<(string, Json)>, i: nat, key: string, v: Json)
    requires i <= |entries|
    requires key !in KnownKeys
    ensures Decode(Obj(entries[..i] + [(key, v)] + entries[i..])) == Decode(Obj(entries))
  {
    var front, back := entries[..i], entries[i..];
    assert entries == front + back;
    forall k | k in KnownKeys ensures Get(front + [(key, v)] + back, k) == Get(entries, k) {
      GetAppend(front + [(key, v)], back, k);
      GetAppend(front, [(key, v)], k);
      GetAppend(front, back, k);
    }
    DecodeReadsOnlyKnownKeys(front + [(key, v)] + back, entries);
  }

  // ---------------------------------------------------------------------
  // Concrete documents: the literals of the demonstration program and the
  // rejected inputs the error kinds stand for.
  // ---------------------------------------------------------------------

  /** The demonstration Invocation is written with `type` first and its
      fields in declaration order. */
  lemma DemoInvocationEncoding()
    ensures Encode(Invocation(InvocationFields(Some("1"), "SendMessage", Null)))
         == Obj([("type", Int(1)), ("invocation_id", Str("1")), ("target", Str("SendMessage")), ("arguments", Null)])
  {
  }

  /** The demonstration documents decode as intended: a missing
      `invocation_id` is None, and `{"type": 6}` is `Ping`. */
  lemma DemoDecodings()
    ensures Decode(Obj([("type", Int(1)), ("target", Str("ReceiveMessage")), ("arguments", Arr([Str("Hello")]))]))
         == Ok(Invocation(InvocationFields(None, "ReceiveMessage", Arr([Str("Hello")]))))
    ensures Decode(Obj([("type", Int(6))])) == Ok(Ping)
  {
    var e := [("type", Int(1)), ("target", Str("ReceiveMessage")), ("arguments", Arr([Str("Hello")]))];
    var m := Invocation(InvocationFields(None, "ReceiveMessage", Arr([Str("Hello")])));
    assert DistinctKeys(e);
    GetDistinct(e, "type", Int(1));
    GetDistinct(e, "target", Str("ReceiveMessage"));
    GetDistinct(e, "arguments", Arr([Str("Hello")]));
    assert "invocation_id" !in Keys(e);
    RepresentsDecodes(Obj(e), m);
  }

  /** Each rejected document gets its own error kind instead of aborting:
      a tag outside 1..7, and a `type` that is absent or not an unsigned
      integer. */
  lemma RejectedTags()
    ensures Decode(Obj([("type", Int(99))])) == Err(UnsupportedType(99))
    ensures Decode(Obj([("target", Str("ReceiveMessage"))])) == Err(MissingType)
    ensures Decode(Obj([("type", Int(-1))])) == Err(MissingType)
    ensures Decode(Obj([("type", Str("1"))])) == Err(MissingType)
    ensures Decode(Arr([Int(1)])) == Err(MissingType)
  {
  }

  /** An Invocation without `target` is malformed. */
  lemma RejectedMissingTarget()
    ensures Decode(Obj([("type", Int(1)), ("arguments", Null)])) == Err(MalformedField)
  {
  }

  /** A Completion whose `error` is neither `null` nor a string is
      malformed, whatever else the document holds. */
  lemma CompletionErrorRejected(j: Json)
    requires TypeTag(j) == Some(3)
    requires Lookup(j, "error").Some? && !Lookup(j, "error").value.Null? && !Lookup(j, "error").value.Str?
    ensures Decode(j) == Err(MalformedField)
  {
  }

  /** A Completion whose `error` is `null` is not malformed: `null` reads as
      an absent error. */
  lemma CompletionNullErrorAccepted()
    ensures Decode(Obj([("type", Int(3)), ("error", Null), ("result", Null)]))
         == Ok(Completion(CompletionFields(None, None, Null)))
  {
    var e := [("type", Int(3)), ("error", Null), ("result", Null)];
    assert DistinctKeys(e);
    GetDistinct(e, "type", Int(3));
    GetDistinct(e, "error", Null);
    GetDistinct(e, "result", Null);
    assert "invocation_id" !in Keys(e);
    RepresentsDecodes(Obj(e), Completion(CompletionFields(None, None, Null)));
  }

  /** A Completion whose `error` is `true`, neither absent, `null` nor a
      string, is malformed. */
  lemma RejectedCompletionError()
    ensures Decode(Obj([("type", Int(3)), ("error", Bool(true)), ("result", Null)])) == Err(MalformedField)
  {
    var e := [("type", Int(3)), ("error", Bool(true)), ("result", Null)];
    assert DistinctKeys(e);
    GetDistinct(e, "type", Int(3));
    GetDistinct(e, "error", Bool(true));
    assert "invocation_id" !in Keys(e);
    assert TypeTag(Obj(e)) == Some(3);
    assert DecodeCompletionFields(e) == Err(MalformedField);
  }
}
