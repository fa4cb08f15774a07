/** The values JSON.parse can produce, with the JavaScript semantics the service relies on:
    truthiness, property access and the `length > 0` test. */
module Json {
  import opened Outcomes

  datatype Json =
    | JNull
    | JBool(b: bool)
    | JNum(n: real)
    | JStr(s: string)
    | JArr(items: seq<Json>)
    | JObj(fields: map<string, Json>)

  /** The falsy values JSON.parse can produce: NaN and undefined never come out of it, and -0
      is the same number as 0. */
  const Falsy: set<Json> := {JNull, JBool(false), JNum(0.0), JStr("")}

  /** JavaScript truthiness of a parsed value. */
  predicate Truthy(v: Json): (truthy: bool)
    ensures truthy <==> v !in Falsy
  {
    match v
    case JNull => false
    case JBool(b) => b
    case JNum(n) => n != 0.0
    case JStr(s) => s != ""
    case JArr(_) => true
    case JObj(_) => true
  }

  /** Truthiness of a property read, where `None` is `undefined`. */
  predicate TruthyOpt(v: Option<Json>): (truthy: bool)
    ensures truthy <==> v != None && v.value !in Falsy
  {
    v.Some? && Truthy(v.value)
  }

  /** `v.key` for a key that no built-in prototype defines ("exists", "valuation", "sectors"):
      reading it from `null` throws, from any other non-object it is `undefined`. */
  function Member(v: Json, key: string): (r: Result<Option<Json>>)
    ensures r.Err? <==> v.JNull?
    ensures r.Ok? && r.value.Some? <==> v.JObj? && key in v.fields
    ensures r.Ok? && r.value.Some? ==> r.value.value == v.fields[key]
  {
    match v
    case JNull => Err(TypeError)
    case JObj(fields) => Ok(if key in fields then Some(fields[key]) else None)
    case _ => Ok(None)
  }

  /** JavaScript `x || fallback` for a property read `x`. */
  function OrElse(x: Option<Json>, fallback: Json): (r: Json)
    ensures TruthyOpt(x) ==> r == x.value
    ensures !TruthyOpt(x) ==> r == fallback
  {
    if TruthyOpt(x) then x.value else fallback
  }

  /** `v.length > 0`: arrays and strings compare their length; an object compares its own
      `length` member when that is a number or a boolean; anything else reads `undefined`. */
  predicate PositiveLength(v: Json): (positive: bool)
    ensures positive ==> Truthy(v)
    ensures v.JStr? ==> (positive <==> Truthy(v))
    ensures v.JArr? ==> (positive <==> v != JArr([]))
    ensures v.JNull? || v.JBool? || v.JNum? ==> !positive
  {
    match v
    case JArr(items) => |items| > 0
    case JStr(s) => |s| > 0
    case JObj(fields) =>
      "length" in fields &&
      (match fields["length"]
       case JNum(n) => n > 0.0
       case JBool(b) => b
       case _ => false)
    case _ => false
  }
}
