/**
 * JSON-shaped values: the payloads that the dispatch layer, the tool servers and
 * the pending store pass around as Python dictionaries and lists.
 */
module Json {
  import opened Wrappers

  datatype Value =
    | Null
    | Bool(b: bool)
    | Int(i: int)
    | Real(r: real)
    | Str(s: string)
    | List(items: seq<Value>)
    | Object(fields: map<string, Value>)

  /** Python truthiness of a value: None, False, 0, 0.0, "", [] and {} are false. */
  predicate Truthy(v: Value) {
    match v
    case Null => false
    case Bool(b) => b
    case Int(i) => i != 0
    case Real(r) => r != 0.0
    case Str(s) => s != ""
    case List(items) => items != []
    case Object(fields) => fields != map[]
  }

  /**
   * `v[key]`: a value for a dictionary that has the key; None where Python
   * raises (the key is missing, or `v` is not a dictionary).
   */
  function Get(v: Value, key: string): (r: Option<Value>)
    ensures r.Some? <==> v.Object? && key in v.fields
    ensures r.Some? ==> r.value == v.fields[key]
  {
    if v.Object? && key in v.fields then Some(v.fields[key]) else None
  }

  /**
   * `v.get(key, default)`: the stored value or the default for a dictionary;
   * None where Python raises because `v` has no `get`.
   */
  function GetOr(v: Value, key: string, default: Value): (r: Option<Value>)
    ensures r.Some? <==> v.Object?
    ensures v.Object? && key in v.fields ==> r == Some(v.fields[key])
    ensures v.Object? && key !in v.fields ==> r == Some(default)
  {
    if !v.Object? then None
    else if key in v.fields then Some(v.fields[key])
    else Some(default)
  }

  /**
   * Reading back a dictionary after `d[key] = x`: the key gives `x`, with or
   * without a default, and every other key reads as before.
   */
  lemma GetAfterSet(fields: map<string, Value>, key: string, x: Value, other: string, default: Value)
    ensures Get(Object(fields[key := x]), key) == Some(x)
    ensures GetOr(Object(fields[key := x]), key, default) == Some(x)
    ensures other != key ==> Get(Object(fields[key := x]), other) == Get(Object(fields), other)
    ensures other != key ==> GetOr(Object(fields[key := x]), other, default) == GetOr(Object(fields), other, default)
  {
  }

  /** `d.get(key, default)` of a dictionary is `d[key]` where that succeeds, and the default exactly where it raises. */
  lemma GetOrIsGetWithDefault(v: Value, key: string, default: Value)
    requires v.Object?
    ensures GetOr(v, key, default) == Some(if Get(v, key).Some? then Get(v, key).value else default)
  {
  }

  /** The value of an optional string field, JSON null when absent. */
  function OptStr(s: Option<string>): Value {
    if s.Some? then Str(s.value) else Null
  }
}
