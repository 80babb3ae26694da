/** JSON documents as values. Numbers are integers only. An object is the
    ordered list of its entries, so that the order in which a serializer
    emits keys is visible. A lookup in an object takes the LAST binding of a
    key, which is what `serde_json` keeps when a parsed object repeats a
    key; the codec only ever looks up keys of the top-level object.
    Nested objects are kept as written: two objects with the same bindings
    in a different order are different values here. */
module Json {
  import opened Wrappers

  datatype Json =
    | Null
    | Bool(b: bool)
    | Int(i: int)
    | Str(s: string)
    | Arr(items: seq<Json>)
    | Obj(entries: seq<(string, Json)>)

  /** Largest value plus one of Rust's `u64`. */
  const U64_LIMIT: int := 0x1_0000_0000_0000_0000

  type U64 = n: int | 0 <= n < U64_LIMIT

  /** The set of keys bound in an entry list. */
  function Keys(entries: seq<(string, Json)>): set<string> {
    set i | 0 <= i < |entries| :: entries[i].0
  }

  /** No key is bound twice. */
  predicate DistinctKeys(entries: seq<(string, Json)>) {
    forall i, j :: 0 <= i < j < |entries| ==> entries[i].0 != entries[j].0
  }

  /** The value bound to `key`, the last binding winning. */
  function Get(entries: seq<(string, Json)>, key: string): (r: Option<Json>)
    ensures r.Some? <==> key in Keys(entries)
    ensures r.Some? ==> (key, r.value) in entries
    decreases |entries|
  {
    if |entries| == 0 then None
    else
      var last := entries[|entries| - 1];
      var front := entries[..|entries| - 1];
      assert Keys(entries) == Keys(front) + {last.0} by {
        assert forall i :: 0 <= i < |front| ==> front[i] == entries[i];
      }
      if last.0 == key then Some(last.1) else Get(front, key)
  }

  /** `Value::get` with a string index: the entry of an object, nothing for
      any other kind of value. */
  function Lookup(j: Json, key: string): (r: Option<Json>)
    ensures r.Some? <==> j.Obj? && key in Keys(j.entries)
    ensures r.Some? ==> (key, r.value) in j.entries
  {
    match j
    case Obj(entries) => Get(entries, key)
    case _ => None
  }

  /** `Value::as_u64`: a number that is a non-negative integer below 2^64. */
  function AsU64(j: Json): (r: Option<U64>)
    ensures r.Some? <==> j.Int? && 0 <= j.i < U64_LIMIT
    ensures r.Some? ==> r.value == j.i
  {
    match j
    case Int(i) => if 0 <= i < U64_LIMIT then Some(i) else None
    case _ => None
  }

  /** A lookup in a concatenation looks in the second part first. */
  lemma {:induction false} GetAppend(a: seq<(string, Json)>, b: seq<(string, Json)>, key: string)
    ensures Get(a + b, key) == if Get(b, key).Some? then Get(b, key) else Get(a, key)
    decreases |b|
  {
    if |b| > 0 {
      var ab := a + b;
      assert ab[..|ab| - 1] == a + b[..|b| - 1];
      assert ab[|ab| - 1] == b[|b| - 1];
      GetAppend(a, b[..|b| - 1], key);
    } else {
      assert a + b == a;
    }
  }

  /** In an entry list without repeated keys, every entry is what a lookup of
      its key finds. */
  lemma {:induction false} GetDistinct(entries: seq<(string, Json)>, key: string, v: Json)
    requires DistinctKeys(entries)
    requires (key, v) in entries
    ensures Get(entries, key) == Some(v)
    decreases |entries|
  {
    var n := |entries|;
    var front := entries[..n - 1];
    if entries[n - 1].0 != key {
      var i :| 0 <= i < n && entries[i] == (key, v);
      assert i < n - 1 && front[i] == (key, v);
      GetDistinct(front, key, v);
    }
  }

  /** The keys of a concatenation are the keys of its parts. */
  lemma KeysAppend(a: seq<(string, Json)>, b: seq<(string, Json)>)
    ensures Keys(a + b) == Keys(a) + Keys(b)
  {
    var ab := a + b;
    forall k | k in Keys(a) + Keys(b) ensures k in Keys(ab) {
      if k in Keys(a) {
        var i :| 0 <= i < |a| && a[i].0 == k;
        assert ab[i] == a[i];
      } else {
        var i :| 0 <= i < |b| && b[i].0 == k;
        assert ab[|a| + i] == b[i];
      }
    }
  }

  /** Two entry lists without repeated keys and with no key in common
      concatenate to one without repeated keys. */
  lemma DistinctAppend(a: seq<(string, Json)>, b: seq<(string, Json)>)
    requires DistinctKeys(a) && DistinctKeys(b)
    requires Keys(a) !! Keys(b)
    ensures DistinctKeys(a + b)
  {
    var ab := a + b;
    forall i, j | 0 <= i < j < |ab| ensures ab[i].0 != ab[j].0 {
      if j < |a| {
        assert ab[i] == a[i] && ab[j] == a[j];
      } else if i >= |a| {
        assert ab[i] == b[i - |a|] && ab[j] == b[j - |a|];
      } else {
        assert ab[i] == a[i] && ab[j] == b[j - |a|];
        assert ab[i].0 in Keys(a) && ab[j].0 in Keys(b);
      }
    }
  }
}
