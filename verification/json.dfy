/** Decoded JSON replies and the Python subscripting the core applies to them. */
module Json {
  import opened Wrappers

  /** A value produced by `response.json()`; numbers are taken to be integers. */
  datatype Json =
    | JNull
    | JBool(b: bool)
    | JNumber(n: int)
    | JString(s: string)
    | JArray(items: seq<Json>)
    | JObject(fields: map<string, Json>)

  /** Python's `j[key]`: `None` where Python raises `KeyError` or `TypeError`. */
  function Field(j: Json, key: string): (r: Option<Json>)
    ensures r.Some? <==> j.JObject? && key in j.fields
    ensures r.Some? ==> r.value == j.fields[key]
  {
    match j
    case JObject(fields) => if key in fields then Some(fields[key]) else None
    case _ => None
  }

  /** Python's `j[i]` for a non-negative index: lists and strings can be indexed,
      a dict decoded from JSON has only string keys, anything else raises. */
  function Index(j: Json, i: nat): (r: Option<Json>)
    ensures j.JArray? ==> (r.Some? <==> i < |j.items|)
    ensures j.JArray? && i < |j.items| ==> r == Some(j.items[i])
    ensures j.JString? && i < |j.s| ==> r == Some(JString([j.s[i]]))
    ensures !j.JArray? && !j.JString? ==> r.None?
  {
    match j
    case JArray(items) => if i < |items| then Some(items[i]) else None
    case JString(s) => if i < |s| then Some(JString([s[i]])) else None
    case _ => None
  }

  /** One subscript: `[key]` or `[index]`. */
  datatype Step = Key(key: string) | At(index: nat)

  /** A chain of subscripts, failing at the first that raises. */
  function Lookup(j: Json, path: seq<Step>): (r: Option<Json>)
    decreases |path|
  {
    if path == [] then Some(j)
    else
      var next := match path[0]
        case Key(k) => Field(j, k)
        case At(i) => Index(j, i);
      match next
      case None => None
      case Some(v) => Lookup(v, path[1..])
  }

  /** Following `p` then `q` is following `p + q`: a chain of subscripts fails
      exactly when its first failing part does. */
  lemma {:induction false} LookupAppend(j: Json, p: seq<Step>, q: seq<Step>)
    ensures Lookup(j, p + q) ==
      match Lookup(j, p)
      case None => None
      case Some(v) => Lookup(v, q)
    decreases |p|
  {
    if p != [] {
      assert (p + q)[0] == p[0];
      assert (p + q)[1..] == p[1..] + q;
      var next := match p[0]
        case Key(k) => Field(j, k)
        case At(i) => Index(j, i);
      if next.Some? {
        LookupAppend(next.value, p[1..], q);
      }
    } else {
      assert p + q == q;
    }
  }
}
