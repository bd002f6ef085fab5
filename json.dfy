/** A JSON value as `JSON.parse` produces it. The parser itself is not modelled: the
    request handler takes it as a parameter `string -> Option<Json>`, where `None` stands
    for the `SyntaxError` that `JSON.parse` throws. */
module Json {

  datatype Json =
    | JNull
    | JBool(b: bool)
    | JNumber(n: real)
    | JString(s: string)
    | JArray(elements: seq<Json>)
    | JObject(members: seq<(string, Json)>)

  /** `Array.isArray(v) && v.length !== 0`: `null`, booleans, numbers, strings, objects and
      the empty array all fail it; an array with an element passes. */
  predicate IsNonEmptyArray(v: Json)
    ensures !v.JArray? ==> !IsNonEmptyArray(v)
    ensures v == JArray([]) ==> !IsNonEmptyArray(v)
    ensures v.JArray? && |v.elements| > 0 ==> IsNonEmptyArray(v)
  {
    v.JArray? && |v.elements| != 0
  }
}
