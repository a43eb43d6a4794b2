/**
 * The dynamically typed values that cross the Flutter method channels and
 * NotificationCenter: the `Any` in `[String: Any]` and `[AnyHashable: Any]`.
 * Only the shapes the core casts to are told apart; the rest is `VOther`.
 */
module Values {
  import opened Wrappers

  datatype Value =
    | VNull
    | VBool(b: bool)
    | VInt(i: int)
    | VDouble(d: real)
    | VString(s: string)
    | VMap(m: map<string, Value>)
    | VOther

  /** `dict[key] as? String`: the string stored under `key`, if any. */
  function StringAt(m: map<string, Value>, key: string): (r: Option<string>)
    ensures r.Some? <==> key in m && m[key].VString?
    ensures r.Some? ==> m[key] == VString(r.value)
  {
    if key in m && m[key].VString? then Some(m[key].s) else None
  }

  /** `dict[key] as? Bool`. */
  function BoolAt(m: map<string, Value>, key: string): (r: Option<bool>)
    ensures r.Some? <==> key in m && m[key].VBool?
    ensures r.Some? ==> m[key] == VBool(r.value)
  {
    if key in m && m[key].VBool? then Some(m[key].b) else None
  }

  /** `dict[key] as? Double`. */
  function DoubleAt(m: map<string, Value>, key: string): (r: Option<real>)
    ensures r.Some? <==> key in m && m[key].VDouble?
    ensures r.Some? ==> m[key] == VDouble(r.value)
  {
    if key in m && m[key].VDouble? then Some(m[key].d) else None
  }
}
