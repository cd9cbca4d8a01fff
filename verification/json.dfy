/** The part of `serde_json::Value` the adapters read: arrays, strings and
    indexing. Numbers are kept as their literal text. */
module Json {
  import opened Types

  datatype Value =
    | Null
    | Bool(b: bool)
    | Number(text: string)
    | Str(str: string)
    | Array(items: seq<Value>)
    | Object(fields: map<string, Value>)

  /** `Value::as_array`: the elements, for an array only. */
  function AsArray(v: Value): (r: Option<seq<Value>>)
    ensures r.Some? <==> v.Array?
    ensures r.Some? ==> r.value == v.items
  {
    if v.Array? then Some(v.items) else None
  }

  /** `Value::as_str`. */
  function AsStr(v: Value): Option<string>
  {
    if v.Str? then Some(v.str) else None
  }

  /** `v[i]` through `Index<usize>`: the element of an array, and `Null` for
      a non-array or an index out of range. */
  function At(v: Value, i: nat): Value
  {
    if v.Array? && i < |v.items| then v.items[i] else Null
  }
}
