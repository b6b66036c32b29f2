/** The plain JavaScript objects that the JSON-file stores read, change and
    write back. A record is a map from property names to JSON values, so the
    object spread `{...a, ...b}` is Dafny's map union `a + b`: on a shared
    key the right-hand side wins. */
module Json {

  /** A JSON value. Numbers are exact reals: no floating-point rounding. */
  datatype Json =
    | Null
    | Bool(b: bool)
    | Num(n: real)
    | Str(s: string)
    | Arr(items: seq<Json>)
    | Obj(fields: map<string, Json>)

  type Object = map<string, Json>

  /** JavaScript truthiness: `null`, `false`, `0` and `""` are falsy. */
  predicate Truthy(v: Json)
  {
    match v
    case Null => false
    case Bool(b) => b
    case Num(n) => n != 0.0
    case Str(s) => s != ""
    case _ => true
  }

  /** `{...a, ...b}`. */
  function Spread(a: Object, b: Object): (r: Object)
    ensures r.Keys == a.Keys + b.Keys
    ensures forall k :: k in b ==> r[k] == b[k]
    ensures forall k :: k in a && k !in b ==> r[k] == a[k]
  {
    a + b
  }

  /** `record.key === value` with JavaScript's strict equality on numbers and strings. */
  predicate FieldIs(record: Object, key: string, value: Json)
  {
    key in record && record[key] == value
  }
}
