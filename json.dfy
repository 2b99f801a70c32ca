/**
 * Untyped JSON values as `serde_json::Value` holds them, with the accessors
 * the program uses: `get`, `as_str`, `as_array`, `as_object` and the
 * panicking `v["k"] = x` assignment.
 */
module JsonValues {
  import opened Wrappers

  /** Numbers are kept as integers: no code modelled here inspects one. */
  datatype Json =
    | Null
    | Bool(b: bool)
    | Number(n: int)
    | Str(s: string)
    | Array(items: seq<Json>)
    | Object(fields: map<string, Json>)

  /** `v.get(key)`: the member of an object, and nothing for any other value. */
  function Get(v: Json, key: string): (r: Option<Json>)
    ensures r.Some? <==> v.Object? && key in v.fields
    ensures r.Some? ==> r.value == v.fields[key]
  {
    if v.Object? && key in v.fields then Some(v.fields[key]) else None
  }

  /** `v.get(key).and_then(|x| x.as_str())`. */
  function GetStr(v: Json, key: string): (r: Option<string>)
    ensures r.Some? <==> Get(v, key).Some? && Get(v, key).value.Str?
    ensures r.Some? ==> Get(v, key) == Some(Str(r.value))
  {
    match Get(v, key)
    case Some(Str(s)) => Some(s)
    case _ => None
  }

  /** `v.get(key).and_then(|x| x.as_array())`. */
  function GetArray(v: Json, key: string): (r: Option<seq<Json>>)
    ensures r.Some? <==> Get(v, key).Some? && Get(v, key).value.Array?
    ensures r.Some? ==> Get(v, key) == Some(Array(r.value))
  {
    match Get(v, key)
    case Some(Array(a)) => Some(a)
    case _ => None
  }

  /** Values on which `v[key] = x` does not panic: objects, and null, which becomes `{}` first. */
  predicate Indexable(v: Json) {
    v.Object? || v.Null?
  }

  /** `v[key] = x`: inserts or replaces one member and keeps every other one. */
  function Set(v: Json, key: string, x: Json): (r: Json)
    requires Indexable(v)
    ensures r.Object? && key in r.fields && r.fields[key] == x
    ensures forall k :: k != key ==> Get(r, k) == Get(v, k)
  {
    match v
    case Object(f) => Object(f[key := x])
    case Null => Object(map[key := x])
  }
}
