/** JavaScript values as this application sees them: `undefined` as an absent
    option, parsed JSON bodies as a JSON value, and JavaScript's truthiness,
    which every "is it present" test in the application relies on. */
module JsValues {

  /** `None` stands for `undefined` (a missing property or argument). */
  datatype Option<+T> = None | Some(value: T)

  /** A parsed JSON value. JSON numbers are finite, so NaN never occurs. */
  datatype Json =
    | JNull
    | JBool(b: bool)
    | JNum(n: real)
    | JStr(s: string)
    | JArr(items: seq<Json>)
    | JObj(fields: map<string, Json>)

  /** Property access `v[key]`: `undefined` unless `v` is an object holding `key`. */
  function Get(v: Json, key: string): Option<Json>
  {
    if v.JObj? && key in v.fields then Some(v.fields[key]) else None
  }

  /** JavaScript truthiness of a possibly-undefined JSON value: `undefined`,
      `null`, `false`, `0` and `''` are falsy, everything else is truthy. */
  predicate Truthy(v: Option<Json>)
  {
    match v
    case None => false
    case Some(JNull) => false
    case Some(JBool(b)) => b
    case Some(JNum(n)) => n != 0.0
    case Some(JStr(s)) => s != ""
    case Some(JArr(_)) => true
    case Some(JObj(_)) => true
  }

  /** Truthiness of an optional string field: present and not `''`. */
  predicate Filled(s: Option<string>)
  {
    s.Some? && s.value != ""
  }

  /** `a || b` on optional strings: `a` when it is truthy, otherwise `b`. */
  function OrElse(a: Option<string>, b: Option<string>): (r: Option<string>)
    ensures Filled(r) <==> Filled(a) || Filled(b)
    ensures Filled(a) ==> r == a
    ensures !Filled(a) ==> r == b
  {
    if Filled(a) then a else b
  }

  /** A JSON object whose properties are `undefined` are dropped when it is
      serialised; this builds the key/value pair only when the value is present. */
  function OptionalField(key: string, v: Option<string>): (m: map<string, Json>)
    ensures key in m <==> v.Some?
    ensures v.Some? ==> m[key] == JStr(v.value)
    ensures m.Keys <= {key}
  {
    if v.Some? then map[key := JStr(v.value)] else map[]
  }
}
