/**
  Decoded JSON values, as they arrive in a request body and as tools receive
  them, and Python's `str()`/`repr()` of them where the handler puts a value
  into an error message.  Objects keep their members in order, as Python dicts do.
 */
module Values {
  import opened Wrappers
  import opened Strings

  datatype Json =
    | JNull
    | JBool(b: bool)
    | JInt(i: int)
    | JStr(s: string)
    | JArray(items: seq<Json>)
    | JObject(members: seq<(string, Json)>)

  /** Python's `d.get(key)` on a decoded object: the value bound to `key`, if any. */
  function Lookup(members: seq<(string, Json)>, key: string): (r: Option<Json>)
    ensures r.Some? <==> exists i :: 0 <= i < |members| && members[i].0 == key
    ensures r.Some? ==> (key, r.value) in members
  {
    if members == [] then None
    else if members[0].0 == key then Some(members[0].1)
    else Lookup(members[1..], key)
  }

  /**
    A Python dict never holds a key twice: every object inside the value has
    distinct member keys.
   */
  predicate DistinctKeys(j: Json)
    decreases j
  {
    match j
    case JObject(ms) =>
      (forall p, q :: 0 <= p < q < |ms| ==> ms[p].0 != ms[q].0)
      && forall p :: 0 <= p < |ms| ==> DistinctKeys(ms[p].1)
    case JArray(xs) => forall p :: 0 <= p < |xs| ==> DistinctKeys(xs[p])
    case _ => true
  }

  /** With distinct keys, looking up a member's key finds that member's own value. */
  lemma {:induction false} LookupDistinct(members: seq<(string, Json)>, i: nat)
    requires i < |members|
    requires forall p, q :: 0 <= p < q < |members| ==> members[p].0 != members[q].0
    ensures Lookup(members, members[i].0) == Some(members[i].1)
    decreases i
  {
    if i > 0 {
      LookupDistinct(members[1..], i - 1);
    }
  }

  /** Python's `d.get(key, default)`. */
  function LookupOr(members: seq<(string, Json)>, key: string, default: Json): Json {
    Lookup(members, key).GetOr(default)
  }

  /** A dict or list cannot be a dict key or be looked up in one (Python raises TypeError). */
  predicate Unhashable(j: Json) {
    j.JArray? || j.JObject?
  }

  /** Python's `repr()` of the decoded value (string escapes are not modelled). */
  function Repr(j: Json): string {
    match j
    case JNull => "None"
    case JBool(b) => if b then "True" else "False"
    case JInt(n) => IntToString(n)
    case JStr(s) => "'" + s + "'"
    case JArray(items) =>
      "[" + Join(seq(|items|, i requires 0 <= i < |items| => Repr(items[i])), ", ") + "]"
    case JObject(ms) =>
      "{" + Join(seq(|ms|, i requires 0 <= i < |ms| => "'" + ms[i].0 + "': " + Repr(ms[i].1)), ", ") + "}"
  }

  /** Python's `str()` of the decoded value; `str(None)` for a missing one. */
  function PyStr(j: Option<Json>): string {
    match j
    case None => "None"
    case Some(JStr(s)) => s
    case Some(v) => Repr(v)
  }

  /** Python's `type(v).__name__` of the decoded value. */
  function PyTypeName(j: Json): string {
    match j
    case JNull => "NoneType"
    case JBool(_) => "bool"
    case JInt(_) => "int"
    case JStr(_) => "str"
    case JArray(_) => "list"
    case JObject(_) => "dict"
  }
}
