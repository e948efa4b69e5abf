/**
 * A JSON value as produced by decoding a response body. Only the shape of the
 * value matters to the model; numbers are kept as integers because no number
 * is ever inspected.
 */
module Json {

  datatype Json =
    | JNull
    | JBool(b: bool)
    | JNumber(n: int)
    | JString(s: string)
    | JArray(elems: seq<Json>)
    | JObject(fields: map<string, Json>)

  /** Go's `map[string]interface{}` lookup: an absent key reads as nil, exactly like an explicit null. */
  function Field(data: map<string, Json>, key: string): (v: Json)
    ensures key !in data ==> v == JNull
    ensures key in data ==> v == data[key]
  {
    if key in data then data[key] else JNull
  }
}
