/**
 * JSON documents as the handlers see them after `JSON.parse`, and the
 * parts of JavaScript's object semantics the senders use on them.
 * Serialising and parsing are supplied from outside as a `JsonCodec`.
 */
module Json {
  import opened Wrappers

  /** A parsed JSON value (numbers are integers in this model). */
  datatype Json =
    | JNull
    | JBool(b: bool)
    | JNumber(n: int)
    | JString(s: string)
    | JArray(items: seq<Json>)
    | JObject(fields: map<string, Json>)

  const EmptyObject: Json := JObject(map[])

  /** JavaScript truthiness of a parsed value, as used by `x || fallback` and `if (x)`. */
  predicate Truthy(j: Json) {
    match j
    case JNull => false
    case JBool(b) => b
    case JNumber(n) => n != 0
    case JString(s) => s != ""
    case JArray(_) => true
    case JObject(_) => true
  }

  /** `if (body.x)`: the field is present and truthy. */
  predicate Given(v: Option<Json>) {
    v.Some? && Truthy(v.value)
  }

  /** The text of the TypeError that `Object.keys(null)` throws (its wording depends on the engine). */
  const NullToObjectMessage: string := "Cannot convert undefined or null to object"

  /**
   * `Object.keys(j).length`: the members of an object, the indices of an
   * array or string, none for numbers and booleans; `null` throws.
   */
  function KeyCount(j: Json): (r: Result<nat, Exception>)
    ensures r.Err? <==> j.JNull?
    ensures j.JObject? ==> r == Ok(|j.fields|)
    ensures (j.JBool? || j.JNumber?) ==> r == Ok(0)
  {
    match j
    case JNull => Err(Error(NullToObjectMessage))
    case JBool(_) => Ok(0)
    case JNumber(_) => Ok(0)
    case JString(s) => Ok(|s|)
    case JArray(items) => Ok(|items|)
    case JObject(fields) => Ok(|fields|)
  }

  /** Reading `j.name`: present only on an object that has that member. */
  function Member(j: Json, name: string): Option<Json> {
    if j.JObject? && name in j.fields then Some(j.fields[name]) else None
  }

  /**
   * `JSON.stringify(v)`, `JSON.parse(text)` (which may throw a SyntaxError)
   * and `JSON.stringify(v, null, 2)`.
   */
  datatype JsonCodec = JsonCodec(
    stringify: Json -> string,
    parse: string -> Result<Json, Exception>,
    prettyPrint: Json -> string)
}
