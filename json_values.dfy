/** JSON values as they appear in a normalized Apollo cache snapshot, and the
    JavaScript notions (truthiness, `a || b`, optional property access) that
    the client bootstrap code applies to them. */
module JsonValues {

  datatype Option<+T> = None | Some(value: T)

  /** A JSON value. Numbers are modelled as integers. Object key order is not
      modelled: an object is a map from property names to values. */
  datatype Json =
    | Null
    | Bool(b: bool)
    | Num(n: int)
    | Str(s: string)
    | Arr(items: seq<Json>)
    | Obj(fields: map<string, Json>)

  /** A normalized cache snapshot (`NormalizedCacheObject`): record key to record. */
  type Snapshot = map<string, Json>

  /** JavaScript truthiness of a JSON value. */
  predicate Truthy(v: Json)
  {
    match v
    case Null => false
    case Bool(b) => b
    case Num(n) => n != 0
    case Str(s) => s != ""
    case Arr(_) => true
    case Obj(_) => true
  }

  /** `v?.name`: the property `name` of `v` when `v` is an object that has it,
      `undefined` (None) otherwise. */
  function Property(v: Json, name: string): Option<Json>
  {
    if v.Obj? && name in v.fields then Some(v.fields[name]) else None
  }

  /** `p || fallback` where `p` may be `undefined`. */
  function OrElse(p: Option<Json>, fallback: Json): Json
  {
    if p.Some? && Truthy(p.value) then p.value else fallback
  }
}
