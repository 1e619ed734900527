/**
 * The values a JSON request body or a JSON-decoded message payload can hold,
 * with JavaScript's property access and truthiness on them.
 * Numbers are integers here: fractional numbers are not modelled.
 */
module JsonValues {
  import opened Wrappers

  datatype Json =
    | Null
    | Bool(b: bool)
    | Num(n: int)
    | Str(s: string)
    | Arr(items: seq<Json>)
    | Obj(fields: map<string, Json>)

  /** `v[k]` on a plain object; `None` stands for `undefined`. */
  function Field(v: Json, k: string): (r: Option<Json>)
    ensures r.Some? <==> v.Obj? && k in v.fields
  {
    if v.Obj? && k in v.fields then Some(v.fields[k]) else None
  }

  /** Property access through a value that may itself be `undefined`. */
  function Member(v: Option<Json>, k: string): (r: Option<Json>)
    ensures r.Some? ==> v.Some? && v.value.Obj?
  {
    match v
    case Some(o) => Field(o, k)
    case None => None
  }

  /** `k in v`: the key is an own member of the object `v`. */
  predicate HasKey(v: Option<Json>, k: string) {
    Member(v, k).Some?
  }

  /**
   * JavaScript truthiness of a value that may be `undefined`: `undefined`,
   * `null`, `false`, `0` and `""` are falsy; arrays and objects are truthy.
   */
  predicate JsTruthy(v: Option<Json>) {
    match v
    case None => false
    case Some(Null) => false
    case Some(Bool(b)) => b
    case Some(Num(n)) => n != 0
    case Some(Str(s)) => s != ""
    case Some(Arr(_)) => true
    case Some(Obj(_)) => true
  }

  /** What `v || null` stores: the value itself when it is truthy, `null` (None) otherwise. */
  predicate IsOrNull(stored: Option<Json>, v: Option<Json>) {
    (stored.Some? <==> JsTruthy(v)) && (stored.Some? ==> stored == v)
  }

  /** `v || null` on a value read untyped. */
  function OrNullJson(v: Option<Json>): (r: Option<Json>)
    ensures IsOrNull(r, v)
  {
    if JsTruthy(v) then v else None
  }

  /** JavaScript truthiness of an optional string (`undefined` and `""` are falsy). */
  predicate Truthy(s: Option<string>) {
    s.Some? && s.value != ""
  }

  /** The JSON value `s || null` stores for a field that holds a string or null. */
  function StoredString(s: Option<string>): (r: Option<Json>)
    ensures r.Some? <==> Truthy(s)
    ensures r.Some? ==> r == Some(Str(s.value))
  {
    if Truthy(s) then Some(Str(s.value)) else None
  }
}
