/**
 * The values JSON.parse produces, and the few JavaScript operations the
 * application applies to them: property lookup, truthiness and `typeof`.
 */
module Json {
  import opened Wrappers

  datatype Json =
    | JNull
    | JBool(b: bool)
    | JNumber(n: real)
    | JString(s: string)
    | JArray(items: seq<Json>)
    | JObject(fields: map<string, Json>)

  /** What JSON.parse does with one text: a value, or a SyntaxError with its message. */
  datatype ParseResult = Parsed(value: Json) | SyntaxError(message: string)

  /** `v[key]`; None stands for undefined. Only objects carry the named keys
      the application reads (none of them is an array index or "length"). */
  function Get(v: Json, key: string): Option<Json> {
    if v.JObject? && key in v.fields then Some(v.fields[key]) else None
  }

  /** JavaScript truthiness of a parsed value (JSON has no NaN). */
  predicate Truthy(v: Json) {
    match v
    case JNull => false
    case JBool(b) => b
    case JNumber(n) => n != 0.0
    case JString(s) => s != ""
    case JArray(_) => true
    case JObject(_) => true
  }

  /** `typeof v === 'object'`: true for null, arrays and objects. */
  predicate TypeofObject(v: Json) {
    v.JNull? || v.JArray? || v.JObject?
  }

  /** `!v || typeof v !== 'object'` fails exactly for everything but arrays and objects. */
  lemma ObjectLike(v: Json)
    ensures (Truthy(v) && TypeofObject(v)) <==> (v.JArray? || v.JObject?)
  {
  }
}
