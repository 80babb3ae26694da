/** The hub-message codec of the SignalR client: a closed union of seven
    message kinds, the JSON object each one is written as, and the decoder
    that dispatches on the object's integer `type` key. */
module HubMessages {
  import opened Wrappers
  import opened Json

  // ---------------------------------------------------------------------
  // Data model: one record per message kind, and the union over them.
  // ---------------------------------------------------------------------

  datatype InvocationFields = InvocationFields(invocationId: Option<string>, target: string, arguments: Json)

  datatype StreamItemFields = StreamItemFields(invocationId: Option<string>, item: Json)

  datatype CompletionFields = CompletionFields(invocationId: Option<string>, error: Option<string>, result: Json)

  datatype StreamInvocationFields = StreamInvocationFields(invocationId: Option<string>, target: string, arguments: Json)

  datatype CancelInvokationFields = CancelInvokationFields(invocationId: Option<string>)

  datatype CloseFields = CloseFields(error: Option<string>)

  datatype Message =
    | Invocation(invocation: InvocationFields)
    | StreamItem(streamItem: StreamItemFields)
    | Completion(completion: CompletionFields)
    | StreamInvocation(streamInvocation: StreamInvocationFields)
    | CancelInvokation(cancel: CancelInvokationFields)
    | Ping
    | Close(close: CloseFields)

  /** Why a document is not a message. Each kind stands for one place where
      the decoder would otherwise abort: the `type` key is absent or not an
      unsigned integer, the tag is not one of the seven, or the kind's own
      fields do not have the shape its record needs. */
  datatype DecodeError = MissingType | UnsupportedType(n: U64) | MalformedField

  /** The wire tag of each message kind. */
  function Tag(m: Message): (t: U64)
    ensures 1 <= t <= 7
  {
    match m
    case Invocation(_) => 1
    case StreamItem(_) => 2
    case Completion(_) => 3
    case StreamInvocation(_) => 4
    case CancelInvokation(_) => 5
    case Ping => 6
    case Close(_) => 7
  }

  /** The two messages are of the same kind. */
  predicate SameKind(a: Message, b: Message) {
    || (a.Invocation? && b.Invocation?)
    || (a.StreamItem? && b.StreamItem?)
    || (a.Completion? && b.Completion?)
    || (a.StreamInvocation? && b.StreamInvocation?)
    || (a.CancelInvokation? && b.CancelInvokation?)
    || (a.Ping? && b.Ping?)
    || (a.Close? && b.Close?)
  }

  /** The correlation id a message carries, if its kind has one. */
  function InvocationIdOf(m: Message): Option<string> {
    match m
    case Invocation(f) => f.invocationId
    case StreamItem(f) => f.invocationId
    case Completion(f) => f.invocationId
    case StreamInvocation(f) => f.invocationId
    case CancelInvokation(f) => f.invocationId
    case Ping => None
    case Close(_) => None
  }

  /** The error text a message carries, if its kind has one. */
  function ErrorOf(m: Message): Option<string> {
    match m
    case Completion(f) => f.error
    case Close(f) => f.error
    case _ => None
  }

  // ---------------------------------------------------------------------
  // Encoding: the tag first, then the record's fields flattened after it
  // in declaration order, optional fields left out when they are None.
  // ---------------------------------------------------------------------

  /** An optional string field: one entry when present, none when absent. */
  function OptionalEntry(key: string, v: Option<string>): (r: seq<(string, Json)>)
    ensures Keys(r) == if v.Some? then {key} else {}
    ensures DistinctKeys(r)
    ensures v.Some? ==> (key, Str(v.value)) in r
  {
    match v
    case Some(s) =>
      assert [(key, Str(s))][0].0 == key;
      [(key, Str(s))]
    case None => []
  }

  /** The serialized fields of an Invocation: `invocation_id` when present,
      then `target` and `arguments`. */
  function InvocationEntries(f: InvocationFields): (r: seq<(string, Json)>)
    ensures DistinctKeys(r)
    ensures Keys(r) == (if f.invocationId.Some? then {"invocation_id"} else {}) + {"target", "arguments"}
    ensures f.invocationId.Some? ==> ("invocation_id", Str(f.invocationId.value)) in r
    ensures ("target", Str(f.target)) in r && ("arguments", f.arguments) in r
  {
    TargetArgumentsBody(f.invocationId, f.target, f.arguments);
    OptionalEntry("invocation_id", f.invocationId) + [("target", Str(f.target)), ("arguments", f.arguments)]
  }

  /** The serialized fields of a StreamItem: `invocation_id` when present,
      then `item`. */
  function StreamItemEntries(f: StreamItemFields): (r: seq<(string, Json)>)
    ensures DistinctKeys(r)
    ensures Keys(r) == (if f.invocationId.Some? then {"invocation_id"} else {}) + {"item"}
    ensures f.invocationId.Some? ==> ("invocation_id", Str(f.invocationId.value)) in r
    ensures ("item", f.item) in r
  {
    var id, rest := OptionalEntry("invocation_id", f.invocationId), [("item", f.item)];
    assert Keys(rest) == {"item"} by { assert rest[0].0 == "item"; }
    DistinctAppend(id, rest);
    KeysAppend(id, rest);
    id + rest
  }

  /** The serialized fields of a Completion: `invocation_id` and `error`
      when present, then `result`, which is there even beside an error. */
  function CompletionEntries(f: CompletionFields): (r: seq<(string, Json)>)
    ensures DistinctKeys(r)
    ensures Keys(r) == (if f.invocationId.Some? then {"invocation_id"} else {})
                     + (if f.error.Some? then {"error"} else {}) + {"result"}
    ensures f.invocationId.Some? ==> ("invocation_id", Str(f.invocationId.value)) in r
    ensures f.error.Some? ==> ("error", Str(f.error.value)) in r
    ensures ("result", f.result) in r
  {
    var id, error, rest := OptionalEntry("invocation_id", f.invocationId), OptionalEntry("error", f.error), [("result", f.result)];
    assert Keys(rest) == {"result"} by { assert rest[0].0 == "result"; }
    DistinctAppend(id, error);
    KeysAppend(id, error);
    DistinctAppend(id + error, rest);
    KeysAppend(id + error, rest);
    id + error + rest
  }

  /** The serialized fields of a StreamInvocation, laid out as an
      Invocation's. */
  function StreamInvocationEntries(f: StreamInvocationFields): (r: seq<(string, Json)>)
    ensures DistinctKeys(r)
    ensures Keys(r) == (if f.invocationId.Some? then {"invocation_id"} else {}) + {"target", "arguments"}
    ensures f.invocationId.Some? ==> ("invocation_id", Str(f.invocationId.value)) in r
    ensures ("target", Str(f.target)) in r && ("arguments", f.arguments) in r
  {
    TargetArgumentsBody(f.invocationId, f.target, f.arguments);
    OptionalEntry("invocation_id", f.invocationId) + [("target", Str(f.target)), ("arguments", f.arguments)]
  }

  /** The serialized fields of a CancelInvokation: `invocation_id` when
      present, else nothing. */
  function CancelInvokationEntries(f: CancelInvokationFields): (r: seq<(string, Json)>)
    ensures DistinctKeys(r)
    ensures Keys(r) == if f.invocationId.Some? then {"invocation_id"} else {}
    ensures f.invocationId.Some? ==> ("invocation_id", Str(f.invocationId.value)) in r
  {
    OptionalEntry("invocation_id", f.invocationId)
  }

  /** The serialized fields of a Close: `error` when present, else nothing. */
  function CloseEntries(f: CloseFields): (r: seq<(string, Json)>)
    ensures DistinctKeys(r)
    ensures Keys(r) == if f.error.Some? then {"error"} else {}
    ensures f.error.Some? ==> ("error", Str(f.error.value)) in r
  {
    OptionalEntry("error", f.error)
  }

  /** The flattened body; `Ping` has none. It binds each key at most once,
      only keys its kind declares, and never `type`. */
  function Body(m: Message): (r: seq<(string, Json)>)
    ensures DistinctKeys(r)
    ensures Keys(r) <= FieldNames(m) - {"type"}
  {
    match m
    case Invocation(f) => InvocationEntries(f)
    case StreamItem(f) => StreamItemEntries(f)
    case Completion(f) => CompletionEntries(f)
    case StreamInvocation(f) => StreamInvocationEntries(f)
    case CancelInvokation(f) => CancelInvokationEntries(f)
    case Ping => []
    case Close(f) => CloseEntries(f)
  }

  /** The JSON object a message is written as: `type` is its first key and
      no key occurs twice. */
  function Encode(m: Message): (j: Json)
    ensures j.Obj? && |j.entries| >= 1
    ensures j.entries[0].0 == "type" && j.entries[0].1 == Int(Tag(m))
    ensures DistinctKeys(j.entries)
  {
    DistinctAppend([("type", Int(Tag(m)))], Body(m));
    Obj([("type", Int(Tag(m)))] + Body(m))
  }

  /** The keys of the body shape Invocation and StreamInvocation share. */
  lemma TargetArgumentsBody(id: Option<string>, target: string, arguments: Json)
    ensures DistinctKeys(OptionalEntry("invocation_id", id) + [("target", Str(target)), ("arguments", arguments)])
    ensures Keys(OptionalEntry("invocation_id", id) + [("target", Str(target)), ("arguments", arguments)])
         == (if id.Some? then {"invocation_id"} else {}) + {"target", "arguments"}
  {
    var rest := [("target", Str(target)), ("arguments", arguments)];
    assert Keys(rest) == {"target", "arguments"} by { assert rest[0].0 == "target" && rest[1].0 == "arguments"; }
    DistinctAppend(OptionalEntry("invocation_id", id), rest);
    KeysAppend(OptionalEntry("invocation_id", id), rest);
  }

  // ---------------------------------------------------------------------
  // The key-by-key view of a message: an independent statement of what
  // each key of its encoding holds.
  // ---------------------------------------------------------------------

  function OptionalJson(v: Option<string>): Option<Json> {
    match v
    case Some(s) => Some(Str(s))
    case None => None
  }

  /** The keys a message kind's record declares, with `type`. */
  function FieldNames(m: Message): set<string> {
    match m
    case Invocation(_) => {"type", "invocation_id", "target", "arguments"}
    case StreamItem(_) => {"type", "invocation_id", "item"}
    case Completion(_) => {"type", "invocation_id", "error", "result"}
    case StreamInvocation(_) => {"type", "invocation_id", "target", "arguments"}
    case CancelInvokation(_) => {"type", "invocation_id"}
    case Ping => {"type"}
    case Close(_) => {"type", "error"}
  }

  /** Every key any message kind reads or writes. */
  const KnownKeys: set<string> := {"type", "invocation_id", "target", "arguments", "item", "error", "result"}

  /** What the wire form of `m` holds under `key`, if anything. */
  function WireField(m: Message, key: string): Option<Json> {
    if key == "type" then Some(Int(Tag(m)))
    else
      match m
      case Invocation(f) =>
        if key == "invocation_id" then OptionalJson(f.invocationId)
        else if key == "target" then Some(Str(f.target))
        else if key == "arguments" then Some(f.arguments)
        else None
      case StreamItem(f) =>
        if key == "invocation_id" then OptionalJson(f.invocationId)
        else if key == "item" then Some(f.item)
        else None
      case Completion(f) =>
        if key == "invocation_id" then OptionalJson(f.invocationId)
        else if key == "error" then OptionalJson(f.error)
        else if key == "result" then Some(f.result)
        else None
      case StreamInvocation(f) =>
        if key == "invocation_id" then OptionalJson(f.invocationId)
        else if key == "target" then Some(Str(f.target))
        else if key == "arguments" then Some(f.arguments)
        else None
      case CancelInvokation(f) =>
        if key == "invocation_id" then OptionalJson(f.invocationId) else None
      case Ping => None
      case Close(f) =>
        if key == "error" then OptionalJson(f.error) else None
  }

  /** A document value found under a key is acceptable for the expected
      field: equal to it when the field is present, and absent or `null`
      when the (optional) field is None. */
  predicate Accepts(found: Option<Json>, expected: Option<Json>) {
    if expected.Some? then found == expected else found.None? || found == Some(Null)
  }

  /** `j` is a document that stands for `m`: an object that, under every
      key `m`'s kind declares, holds what `m` needs there. Other keys are
      not constrained. */
  predicate Represents(j: Json, m: Message) {
    j.Obj? && forall k :: k in FieldNames(m) ==> Accepts(Lookup(j, k), WireField(m, k))
  }

  // ---------------------------------------------------------------------
  // Decoding: read `type` as an unsigned integer, then decode the kind's
  // record from the same object.
  // ---------------------------------------------------------------------

  /** What an `Option<String>` field accepts: nothing, `null` or a string. */
  predicate OptionalStringShape(found: Option<Json>) {
    found.None? || found.value.Null? || found.value.Str?
  }

  /** What a `String` field accepts: a string. */
  predicate StringShape(found: Option<Json>) {
    found.Some? && found.value.Str?
  }

  /** An `Option<String>` field: absent or `null` is None, a string is
      Some, anything else is malformed. */
  function OptionalString(entries: seq<(string, Json)>, key: string): (r: Result<Option<string>, DecodeError>)
    ensures r.Ok? <==> OptionalStringShape(Get(entries, key))
    ensures r.Ok? ==> Accepts(Get(entries, key), OptionalJson(r.value))
    ensures r.Err? ==> r.error == MalformedField
  {
    match Get(entries, key)
    case None => Ok(None)
    case Some(Null) => Ok(None)
    case Some(Str(s)) => Ok(Some(s))
    case Some(_) => Err(MalformedField)
  }

  /** A `String` field: present and a string. */
  function RequiredString(entries: seq<(string, Json)>, key: string): (r: Result<string, DecodeError>)
    ensures r.Ok? <==> StringShape(Get(entries, key))
    ensures r.Ok? ==> Get(entries, key) == Some(Str(r.value))
    ensures r.Err? ==> r.error == MalformedField
  {
    match Get(entries, key)
    case Some(Str(s)) => Ok(s)
    case _ => Err(MalformedField)
  }

  /** A `serde_json::Value` field: present, any value including `null`. */
  function RequiredValue(entries: seq<(string, Json)>, key: string): (r: Result<Json, DecodeError>)
    ensures r.Ok? <==> Get(entries, key).Some?
    ensures r.Ok? ==> Get(entries, key) == Some(r.value)
    ensures r.Err? ==> r.error == MalformedField
  {
    match Get(entries, key)
    case Some(v) => Ok(v)
    case None => Err(MalformedField)
  }

  /** The fields of an Invocation: an optional string `invocation_id`, a
      string `target` and any `arguments`. Decoding succeeds exactly when
      each key holds what its field accepts, and then yields what is there. */
  function DecodeInvocationFields(entries: seq<(string, Json)>): (r: Result<InvocationFields, DecodeError>)
    ensures r.Ok? <==> (
         && OptionalStringShape(Get(entries, "invocation_id"))
         && StringShape(Get(entries, "target"))
         && Get(entries, "arguments").Some?)
    ensures r.Ok? ==> (
         && Accepts(Get(entries, "invocation_id"), OptionalJson(r.value.invocationId))
         && Get(entries, "target") == Some(Str(r.value.target))
         && Get(entries, "arguments") == Some(r.value.arguments))
    ensures r.Err? ==> r.error == MalformedField
  {
    var id :- OptionalString(entries, "invocation_id");
    var target :- RequiredString(entries, "target");
    var arguments :- RequiredValue(entries, "arguments");
    Ok(InvocationFields(id, target, arguments))
  }

  /** The fields of a StreamItem: an optional string `invocation_id` and any
      `item`. Decoding succeeds exactly when each key holds what its field
      accepts, and then yields what is there. */
  function DecodeStreamItemFields(entries: seq<(string, Json)>): (r: Result<StreamItemFields, DecodeError>)
    ensures r.Ok? <==> (
         && OptionalStringShape(Get(entries, "invocation_id"))
         && Get(entries, "item").Some?)
    ensures r.Ok? ==> (
         && Accepts(Get(entries, "invocation_id"), OptionalJson(r.value.invocationId))
         && Get(entries, "item") == Some(r.value.item))
    ensures r.Err? ==> r.error == MalformedField
  {
    var id :- OptionalString(entries, "invocation_id");
    var item :- RequiredValue(entries, "item");
    Ok(StreamItemFields(id, item))
  }

  /** The fields of a Completion: optional strings `invocation_id` and
      `error`, and any `result`. Decoding succeeds exactly when each key
      holds what its field accepts, and then yields what is there. */
  function DecodeCompletionFields(entries: seq<(string, Json)>): (r: Result<CompletionFields, DecodeError>)
    ensures r.Ok? <==> (
         && OptionalStringShape(Get(entries, "invocation_id"))
         && OptionalStringShape(Get(entries, "error"))
         && Get(entries, "result").Some?)
    ensures r.Ok? ==> (
         && Accepts(Get(entries, "invocation_id"), OptionalJson(r.value.invocationId))
         && Accepts(Get(entries, "error"), OptionalJson(r.value.error))
         && Get(entries, "result") == Some(r.value.result))
    ensures r.Err? ==> r.error == MalformedField
  {
    var id :- OptionalString(entries, "invocation_id");
    var error :- OptionalString(entries, "error");
    var result :- RequiredValue(entries, "result");
    Ok(CompletionFields(id, error, result))
  }

  /** The fields of a StreamInvocation, shaped as an Invocation. Decoding
      succeeds exactly when each key holds what its field accepts, and then
      yields what is there. */
  function DecodeStreamInvocationFields(entries: seq<(string, Json)>): (r: Result<StreamInvocationFields, DecodeError>)
    ensures r.Ok? <==> (
         && OptionalStringShape(Get(entries, "invocation_id"))
         && StringShape(Get(entries, "target"))
         && Get(entries, "arguments").Some?)
    ensures r.Ok? ==> (
         && Accepts(Get(entries, "invocation_id"), OptionalJson(r.value.invocationId))
         && Get(entries, "target") == Some(Str(r.value.target))
         && Get(entries, "arguments") == Some(r.value.arguments))
    ensures r.Err? ==> r.error == MalformedField
  {
    var id :- OptionalString(entries, "invocation_id");
    var target :- RequiredString(entries, "target");
    var arguments :- RequiredValue(entries, "arguments");
    Ok(StreamInvocationFields(id, target, arguments))
  }

  /** The fields of a CancelInvokation: an optional string `invocation_id`.
      Decoding succeeds exactly when each key holds what its field accepts,
      and then yields what is there. */
  function DecodeCancelInvokationFields(entries: seq<(string, Json)>): (r: Result<CancelInvokationFields, DecodeError>)
    ensures r.Ok? <==> OptionalStringShape(Get(entries, "invocation_id"))
    ensures r.Ok? ==> Accepts(Get(entries, "invocation_id"), OptionalJson(r.value.invocationId))
    ensures r.Err? ==> r.error == MalformedField
  {
    var id :- OptionalString(entries, "invocation_id");
    Ok(CancelInvokationFields(id))
  }

  /** The fields of a Close: an optional string `error`. Decoding succeeds
      exactly when each key holds what its field accepts, and then yields
      what is there. */
  function DecodeCloseFields(entries: seq<(string, Json)>): (r: Result<CloseFields, DecodeError>)
    ensures r.Ok? <==> OptionalStringShape(Get(entries, "error"))
    ensures r.Ok? ==> Accepts(Get(entries, "error"), OptionalJson(r.value.error))
    ensures r.Err? ==> r.error == MalformedField
  {
    var error :- OptionalString(entries, "error");
    Ok(CloseFields(error))
  }

  /** The `type` key read as an unsigned integer, when it can be. */
  function TypeTag(j: Json): (t: Option<U64>)
    ensures t.Some? <==> (
         && j.Obj? && Get(j.entries, "type").Some? && Get(j.entries, "type").value.Int?
         && 0 <= Get(j.entries, "type").value.i < U64_LIMIT)
    ensures t.Some? ==> Get(j.entries, "type") == Some(Int(t.value))
  {
    match Lookup(j, "type")
    case Some(v) => AsU64(v)
    case None => None
  }

  /** Decode a document into a message. `MissingType` exactly when `type`
      is not an unsigned integer, `UnsupportedType(n)` exactly when it is an
      `n` outside 1..7, and a decoded message always carries the tag read. */
  function Decode(j: Json): (r: Result<Message, DecodeError>)
    ensures r == Err(MissingType) <==> TypeTag(j).None?
    ensures r.Err? && r.error.UnsupportedType? <==> TypeTag(j).Some? && !(1 <= TypeTag(j).value <= 7)
    ensures r.Err? && r.error.UnsupportedType? ==> r.error.n == TypeTag(j).value
    ensures r.Ok? ==> TypeTag(j) == Some(Tag(r.value))
  {
    match TypeTag(j)
    case None => Err(MissingType)
    case Some(t) =>
      var entries := j.entries;
      if t == 1 then
        var f :- DecodeInvocationFields(entries); Ok(Invocation(f))
      else if t == 2 then
        var f :- DecodeStreamItemFields(entries); Ok(StreamItem(f))
      else if t == 3 then
        var f :- DecodeCompletionFields(entries); Ok(Completion(f))
      else if t == 4 then
        var f :- DecodeStreamInvocationFields(entries); Ok(StreamInvocation(f))
      else if t == 5 then
        var f :- DecodeCancelInvokationFields(entries); Ok(CancelInvokation(f))
      else if t == 6 then
        Ok(Ping)
      else if t == 7 then
        var f :- DecodeCloseFields(entries); Ok(Close(f))
      else
        Err(UnsupportedType(t))
  }
}
