/**
  The fragment of `serde_json::Value` the agent uses: a JSON tree, indexing by key
  and by position (which yield `Null` when the key or position is absent, or when
  the value has the wrong shape), and the `as_str` / `as_array` views.
  Numbers are kept as integers: no part of the model looks at them.
 */
module Json {
  import opened Wrappers

  datatype Value =
    | Null
    | Bool(b: bool)
    | Number(n: int)
    | Str(s: string)
    | Array(items: seq<Value>)
    | Object(fields: map<string, Value>)

  /** `v[key]`: the field, or `Null` when `v` is not an object or has no such key. */
  function Get(v: Value, key: string): Value {
    if v.Object? && key in v.fields then v.fields[key] else Null
  }

  /** `v[i]`: the element, or `Null` when `v` is not an array or `i` is out of range. */
  function At(v: Value, i: nat): Value {
    if v.Array? && i < |v.items| then v.items[i] else Null
  }

  /** `v.as_str()`. */
  function AsStr(v: Value): Option<string> {
    if v.Str? then Some(v.s) else None
  }

  /** `v.as_array()`. */
  function AsArray(v: Value): Option<seq<Value>> {
    if v.Array? then Some(v.items) else None
  }
}
