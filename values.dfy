/** The JSON-like values the assistant keeps in session state, in the session
    history and in the event log. */
module Values {
  import opened DateTimes

  datatype Value =
    | Null
    | Bool(b: bool)
    | Int(i: int)
    | Str(s: string)
      /** A `datetime` object, kept as the instant it denotes. */
    | When(t: DateTime)
    | List(items: seq<Value>)
    | Object(fields: map<string, Value>)

  /** Python's `bool(v)`. */
  predicate Truthy(v: Value) {
    match v
    case Null => false
    case Bool(b) => b
    case Int(i) => i != 0
    case Str(s) => s != ""
    case When(_) => true
    case List(items) => items != []
    case Object(fields) => fields != map[]
  }

  /** `d.get(k)` used as a condition: the key is present with a truthy value. */
  predicate Filled(d: map<string, Value>, k: string) {
    k in d && Truthy(d[k])
  }
}
