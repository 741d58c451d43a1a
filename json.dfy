/** JSON values as the client sends and receives them, with the Python operations the client applies
    to them: truthiness (`if value:` and `value or {}`), key lookup (`value[key]`) and `str(value)`. */
module Json {
  import opened Wrappers
  import opened Text

  /** A decoded JSON document. Objects keep their keys in insertion order, as Python dictionaries do. */
  datatype Json =
    | JNull
    | JBool(b: bool)
    | JInt(i: int)
    | JString(s: string)
    | JArray(items: seq<Json>)
    | JObject(fields: seq<(string, Json)>)

  /** The empty dictionary `{}`. */
  const EmptyObject: Json := JObject([])

  /** Python's `bool(value)`: `None`, `False`, `0`, `""`, `[]` and `{}` are false, everything else true. */
  predicate Truthy(j: Json) {
    match j
    case JNull => false
    case JBool(b) => b
    case JInt(i) => i != 0
    case JString(s) => s != ""
    case JArray(items) => items != []
    case JObject(fields) => fields != []
  }

  /** `value[key]` on a dictionary: the value stored under the key, or none when the key is absent or the
      value is not a dictionary (where Python raises). */
  function Field(j: Json, key: string): (r: Option<Json>)
    ensures r.Some? ==> j.JObject?
  {
    if j.JObject? then Lookup(j.fields, key) else None
  }

  /** The keys of a dictionary, in insertion order; none for any other value. */
  function Keys(j: Json): (ks: seq<string>)
    ensures j.JObject? ==> |ks| == |j.fields| && forall k | 0 <= k < |ks| :: ks[k] == j.fields[k].0
    ensures !j.JObject? ==> ks == []
  {
    if j.JObject? then seq(|j.fields|, k requires 0 <= k < |j.fields| => j.fields[k].0) else []
  }

  function Lookup(fields: seq<(string, Json)>, key: string): Option<Json>
    decreases |fields|
  {
    if fields == [] then None
    else if fields[0].0 == key then Some(fields[0].1)
    else Lookup(fields[1..], key)
  }

  /** A key no field carries is not found. */
  lemma {:induction false} LookupAbsent(fields: seq<(string, Json)>, key: string)
    requires forall k | 0 <= k < |fields| :: fields[k].0 != key
    ensures Lookup(fields, key) == None
    decreases |fields|
  {
    if fields != [] {
      LookupAbsent(fields[1..], key);
    }
  }

  /** Lookup finds a key exactly when some field carries it, and then a value stored under it. */
  lemma {:induction false} LookupFinds(fields: seq<(string, Json)>, key: string)
    ensures Lookup(fields, key).Some? <==> exists k | 0 <= k < |fields| :: fields[k].0 == key
    ensures Lookup(fields, key).Some? ==>
              exists k | 0 <= k < |fields| :: fields[k] == (key, Lookup(fields, key).value)
    decreases |fields|
  {
    if fields != [] && fields[0].0 != key {
      LookupFinds(fields[1..], key);
      if exists k | 0 <= k < |fields| :: fields[k].0 == key {
        var k :| 0 <= k < |fields| && fields[k].0 == key;
        assert fields[1..][k - 1].0 == key;
      }
      if Lookup(fields, key).Some? {
        var k :| 0 <= k < |fields[1..]| && fields[1..][k] == (key, Lookup(fields, key).value);
        assert fields[k + 1] == (key, Lookup(fields, key).value);
      }
    }
  }

  /** The value stored under the first occurrence of a key is what lookup finds. */
  lemma {:induction false} LookupAt(fields: seq<(string, Json)>, key: string, k: nat)
    requires k < |fields| && fields[k].0 == key
    requires forall j | 0 <= j < k :: fields[j].0 != key
    ensures Lookup(fields, key) == Some(fields[k].1)
    decreases k
  {
    if k > 0 {
      LookupAt(fields[1..], key, k - 1);
    }
  }

  /** Python's `repr(value)` for the decoded document, which is also how `str` writes the members of a
      list or dictionary: `None`, `True`, `False`, integers in decimal, strings in single quotes, lists
      in brackets and dictionaries in braces, members separated by ", ". */
  function Repr(j: Json): string
    decreases j
  {
    match j
    case JNull => "None"
    case JBool(b) => if b then "True" else "False"
    case JInt(i) => IntToDecimal(i)
    case JString(s) => "'" + s + "'"
    case JArray(items) =>
      "[" + Join(seq(|items|, k requires 0 <= k < |items| => Repr(items[k])), ", ") + "]"
    case JObject(fields) =>
      "{" + Join(seq(|fields|, k requires 0 <= k < |fields| =>
                   assert fields[k].1 < fields[k];
                   "'" + fields[k].0 + "': " + Repr(fields[k].1)), ", ") + "}"
  }

  /** Python's `str(value)`, as an f-string writes it: a string is itself, anything else its `repr`. */
  function Str(j: Json): string {
    if j.JString? then j.s else Repr(j)
  }
}
