# SignalR hub-message codec and handshake errors, in Dafny

This project models the message codec of a Rust SignalR client and proves what it guarantees.

A hub message is one of seven kinds: Invocation, StreamItem, Completion, StreamInvocation, CancelInvokation, Ping and Close. The source spells CancelInvokation that way, and so does the model. On the wire each kind has an integer tag from 1 to 7. The numbering follows the JSON encoding of the ASP.NET Core SignalR Hub Protocol.

- **Encoding.** A message is written as one JSON object. The key `type` comes first and holds the tag. The kind's fields follow it, flattened into the same object in declaration order. An optional field (`invocation_id`, or `error` on Completion and Close) is left out when it is None. `Ping` is the bare object `{"type":6}`. Field names are written literally (`invocation_id`), not in camel case.
- **Decoding.** The decoder reads `type` as an unsigned 64-bit integer and decodes the matching kind's fields from the same object. The source panics at three kinds of place. The model returns an error value at each of them instead:
  - `MissingType` for the `unwrap` of the tag at `serializer_test/src/main.rs:104`;
  - `MalformedField` for the `unwrap`s of the field decoders at `:105-111`;
  - `UnsupportedType(n)` for the `panic!` at `:112`.

The client's `Error` value is a message string. The model has its two constructors for handshake failures.

Files:
- `wrappers.dfy` holds the `Option` and `Result` datatypes.
- `json.dfy` holds JSON documents as values. An object is the ordered list of its entries. A lookup takes the last binding of a key, which is what a parsed document keeps when a key repeats. The codec only looks up keys of the top-level object. It also models `Value::as_u64`.
- `hub_messages.dfy` holds the message records, the union, `Encode` and `Decode`. It also holds a reference view of each message, key by key: `WireField` says what the encoding holds under each key. `Represents(j, m)` says that document `j` stands for message `m`.
- `hub_message_properties.dfy` holds the properties of the codec.
- `error.dfy` holds the error constructors.

The field decoders follow what serde's derived deserialization does for each field type:
- An `Option<String>` field that is absent or `null` decodes to None. A string decodes to Some. Any other value is malformed.
- A `String` field must be present and a string.
- A `serde_json::Value` field must be present, but may hold any value, including `null`.
- Keys that a record does not declare are ignored.

## Model

| member | source | states |
|---|---|---|
| `HubMessages.Tag` | serializer_test/src/main.rs:86-94 | every message kind has a tag in 1..7 |
| `HubMessages.Encode` | serializer_test/src/main.rs:60-97 | the encoding is an object whose first entry is `type` holding the kind's tag, and no key occurs twice in it |
| `HubMessages.OptionalString` | serializer_test/src/main.rs:17-18 | an `Option<String>` field decodes to a value acceptable for what the document holds (absent or `null` is None, a string is Some); any failure is `MalformedField` |
| `HubMessages.RequiredString` | serializer_test/src/main.rs:19 | a `String` field decodes if and only if the key holds a string, and yields that string; otherwise `MalformedField` |
| `HubMessages.RequiredValue` | serializer_test/src/main.rs:20 | a `Value` field decodes if and only if the key is present, and yields its value, `null` included; otherwise `MalformedField` |
| `Json.Lookup` | serializer_test/src/main.rs:104 | a key is found if and only if the document is an object binding it, and what is found is bound to the key in the object |
| `HubMessages.DecodeInvocationFields` | serializer_test/src/main.rs:105 | the Invocation fields decode if and only if `invocation_id` is absent, `null` or a string, `target` is a string and `arguments` is present, and then each field is what the object holds; otherwise `MalformedField` |
| `HubMessages.DecodeStreamItemFields` | serializer_test/src/main.rs:106 | the StreamItem fields decode if and only if `invocation_id` is absent, `null` or a string and `item` is present, and then each field is what the object holds; otherwise `MalformedField` |
| `HubMessages.DecodeCompletionFields` | serializer_test/src/main.rs:107 | the Completion fields decode if and only if `invocation_id` and `error` are each absent, `null` or a string and `result` is present, and then each field is what the object holds; otherwise `MalformedField` |
| `HubMessages.DecodeStreamInvocationFields` | serializer_test/src/main.rs:108 | the StreamInvocation fields decode if and only if `invocation_id` is absent, `null` or a string, `target` is a string and `arguments` is present, and then each field is what the object holds; otherwise `MalformedField` |
| `HubMessages.DecodeCancelInvokationFields` | serializer_test/src/main.rs:109 | the CancelInvokation fields decode if and only if `invocation_id` is absent, `null` or a string, and then it is what the object holds; otherwise `MalformedField` |
| `HubMessages.DecodeCloseFields` | serializer_test/src/main.rs:111 | the Close fields decode if and only if `error` is absent, `null` or a string, and then it is what the object holds; otherwise `MalformedField` |
| `HubMessages.TypeTag` | serializer_test/src/main.rs:104 | a tag is read if and only if the document is an object whose `type` entry is an integer in [0, 2^64), and the tag is that integer |
| `HubMessages.Decode` | serializer_test/src/main.rs:99-115 | `MissingType` exactly when `type` is absent or not an unsigned integer; `UnsupportedType(n)` exactly when it is an `n` outside 1..7, and it carries that `n`; a decoded message's tag is the tag read |
| `HubMessages.OptionalEntry` | serializer_test/src/main.rs:17-18 | an optional field is written as one entry under its key holding the string when present, and as no entry when absent |
| `HubMessages.InvocationEntries` | serializer_test/src/main.rs:15-21 | an Invocation's fields bind `invocation_id` (only when present), `target` and `arguments`, each once, to the field values |
| `HubMessages.StreamItemEntries` | serializer_test/src/main.rs:23-28 | a StreamItem's fields bind `invocation_id` (only when present) and `item`, each once, to the field values |
| `HubMessages.CompletionEntries` | serializer_test/src/main.rs:30-37 | a Completion's fields bind `invocation_id` and `error` (each only when present) and always `result`, each once, to the field values |
| `HubMessages.StreamInvocationEntries` | serializer_test/src/main.rs:39-45 | a StreamInvocation's fields bind `invocation_id` (only when present), `target` and `arguments`, each once, to the field values |
| `HubMessages.CancelInvokationEntries` | serializer_test/src/main.rs:47-51 | a CancelInvokation's fields bind `invocation_id` once when present and nothing otherwise |
| `HubMessages.CloseEntries` | serializer_test/src/main.rs:53-57 | a Close's fields bind `error` once when present and nothing otherwise |
| `HubMessages.Body` | serializer_test/src/main.rs:82-94 | the flattened fields never repeat a key, bind only keys the kind declares, and never bind `type`; `Ping` has none |
| `Json.AsU64` | serializer_test/src/main.rs:104 | a value reads as `u64` if and only if it is an integer in [0, 2^64), and then it is that integer |
| `HubMessageProperties.BodyField` | serializer_test/src/main.rs:15-57 | a key other than `type` is in a message's flattened fields exactly when the kind declares it and the field is present, and it holds the field's value |
| `HubMessageProperties.EncodeFields` | serializer_test/src/main.rs:60-97 | under every key, the encoding holds exactly what the key-by-key reference view `WireField` says |
| `HubMessageProperties.EncodeTags` | serializer_test/src/main.rs:86-94 | `type` is 1..7 for the kinds in declaration order, and two encodings have the same `type` if and only if the messages are of the same kind |
| `HubMessageProperties.EncodePing` | serializer_test/src/main.rs:82-92 | `Ping` encodes to the object whose only key is `type`, holding 6 |
| `HubMessageProperties.EncodeOmitsAbsentOptionals` | serializer_test/src/main.rs:15-57 | `invocation_id` and `error` are in the encoding if and only if they are Some, hold the string when present, and are never written as `null` |
| `HubMessageProperties.EncodeRequiredFields` | serializer_test/src/main.rs:15-45 | `target`, `arguments`, `item` and `result` are always in the encoding with their values; Completion's `result` is there even when `error` is set |
| `HubMessageProperties.EncodeRepresents` | serializer_test/src/main.rs:60-97 | the encoding of a message stands for that message |
| `HubMessageProperties.DecodeRepresents` | serializer_test/src/main.rs:104-111 | a message that a document decodes to is one the document stands for |
| `HubMessageProperties.OptionalStringAccepts` | serializer_test/src/main.rs:17-18 | an optional field decodes to `v` whenever the entry is acceptable for `v` |
| `HubMessageProperties.RepresentsDecodes` | serializer_test/src/main.rs:104-111 | a document that stands for `m` decodes to `m` |
| `HubMessageProperties.DecodeExactly` | serializer_test/src/main.rs:99-115 | a document decodes to `m` if and only if it stands for `m` |
| `HubMessageProperties.RoundTrip` | serializer_test/src/main.rs:60-115 | decoding the encoding of any message gives that message back, for every kind and every optional field present or absent |
| `HubMessageProperties.DecodeDispatch` | serializer_test/src/main.rs:104-111 | a tag in 1..7 yields a message of that kind or `MalformedField`; tag 6 yields `Ping` whatever else the object holds |
| `HubMessageProperties.DecodeMalformedExactly` | serializer_test/src/main.rs:105-111 | for a tag in 1..7, the result is `MalformedField` if and only if the document stands for no message |
| `HubMessageProperties.MissingTargetRejected` | serializer_test/src/main.rs:105-108 | an Invocation or StreamInvocation document without a string `target` is `MalformedField` |
| `HubMessageProperties.DecodeReadsOnlyKnownKeys` | serializer_test/src/main.rs:103-113 | two objects that agree on the seven known keys decode alike |
| `HubMessageProperties.DecodeIgnoresUnknownKeys` | serializer_test/src/main.rs:105-111 | inserting an entry under an unknown key anywhere in an object does not change what it decodes to |
| `HubMessageProperties.DemoInvocationEncoding` | serializer_test/src/main.rs:118-124 | the demonstration Invocation encodes to `type`, `invocation_id`, `target`, `arguments` in that order |
| `HubMessageProperties.DemoDecodings` | serializer_test/src/main.rs:129-137 | `{"type":1,"target":"ReceiveMessage","arguments":["Hello"]}` decodes to an Invocation with `invocation_id` None, and `{"type": 6}` decodes to `Ping` |
| `HubMessageProperties.RejectedTags` | serializer_test/src/main.rs:104-112 | tag 99 gives `UnsupportedType(99)`; a missing, negative or string `type`, or a non-object, gives `MissingType` |
| `HubMessageProperties.RejectedMissingTarget` | serializer_test/src/main.rs:105 | `{"type":1,"arguments":null}` gives `MalformedField` |
| `HubMessageProperties.CompletionErrorRejected` | serializer_test/src/main.rs:107 | a Completion document whose `error` is present but neither `null` nor a string gives `MalformedField`, whatever else it holds |
| `HubMessageProperties.CompletionNullErrorAccepted` | serializer_test/src/main.rs:107 | `{"type":3,"error":null,"result":null}` decodes to a Completion whose `error` is None, since `null` reads as an absent optional |
| `HubMessageProperties.RejectedCompletionError` | serializer_test/src/main.rs:107 | a Completion whose `error` is `true` (neither absent, `null` nor a string) gives `MalformedField` |
| `Errors.HandshakeError` | signalr-rs/src/error/mod.rs:6-10 | the message is the 24-character prefix `"Handshake failed, inner "` followed by exactly `inner` |
| `Errors.HandshakeErrorSimple` | signalr-rs/src/error/mod.rs:12-16 | the message is exactly `"Handshake failed"` |
| `Errors.BothStartWithHandshakeFailed` | signalr-rs/src/error/mod.rs:6-16 | both constructors' messages start with `"Handshake failed"` |
| `Errors.HandshakeErrorInjective` | signalr-rs/src/error/mod.rs:8 | two `handshake_error` values are equal if and only if their inner strings are |
| `Errors.HandshakeErrorsDiffer` | signalr-rs/src/error/mod.rs:6-16 | no `handshake_error` equals `handshake_error_simple` |

## Left out

- JSON text. Parsing with `from_str` and printing with `to_string` belong to the JSON library. The model works on JSON values.
- JSON floating-point numbers. Numbers are integers only, and unbounded. `serde_json` holds an integer only in [-2^63, 2^64) and reads a larger literal as a float. No property here depends on that, because `AsU64` accepts only [0, 2^64) either way.
- Normalisation of nested objects. The `Value` fields (`arguments`, `item`, `result`) are kept as the document writes them, with repeated keys and key order. `serde_json::Value` keeps one binding per key in a sorted map. So two nested objects that differ only in key order, or in an overwritten duplicate, are different values in the model but equal in the source. Only the top-level object is read with last-binding-wins lookup.
- Key order after the demonstration's `json!` call. That call converts the message to a `Value` map, which stores keys in sorted order unless the library's `preserve_order` feature is on. The model keeps the order in which `Serialize` writes the keys.
- The ASCII record separator (0x1E) after each frame. The SignalR JSON protocol ends every message with it, but the encoder in `serializer_test/src/main.rs` does not append it. The model follows the code.
- Encode errors. `Serialize` returns a `Result`, but it cannot fail for these field types, so `Encode` is total.
- Panics. The code panics on a document it cannot decode, which unwinds the calling thread, and ends the process when that thread is the main one. The model returns an error value instead, one kind per panic site, so that a malformed peer message ends only its own decode.
- The text of serde's error messages. Every field-level failure is `MalformedField`. Which field serde would report first is not modelled.
- Decoding a record from a JSON array, which serde also allows. It cannot happen here, because the tag lookup already requires an object.
- The `main` demonstration (`serializer_test/src/main.rs:117-143`). It only writes to the console. Its literals are the documents in the `Demo*` lemmas.
- HTTP negotiation (`signalr-rs/src/protocol/mod.rs`) and its data-transfer structs (`signalr-rs/src/protocol/responses.rs`). These are a network call and structs with no behaviour.
- The connection builder (`signalr-rs/src/lib.rs`). It is unfinished stub code around an HTTP client.
- `signalr-rs-func-test/src/main.rs`. It is an entry point only.
- The handshake exchange and the reader, writer, heartbeat and dispatcher loops and their channels. None of them has code in the files modelled.
