/**
 * JSON values as Python's `json` module produces and accepts them, their Python
 * truthiness, and the serializer pair `json.dumps` / `json.loads`, which the model
 * takes as a parameter rather than reimplementing.
 */
module Json {
  import opened Wrappers

  datatype Json =
    | JNull
    | JBool(b: bool)
    | JNumber(n: real)
    | JString(s: string)
    | JArray(items: seq<Json>)
    | JObject(fields: map<string, Json>)

  /** Python truthiness: None, False, 0, "", [] and {} are false, everything else is true. */
  predicate Truthy(v: Json) {
    match v
    case JNull => false
    case JBool(b) => b
    case JNumber(n) => n != 0.0
    case JString(s) => s != ""
    case JArray(items) => items != []
    case JObject(fields) => fields != map[]
  }

  /** `json.dumps` and `json.loads`; `loads` gives None where Python raises JSONDecodeError. */
  datatype Codec = Codec(dumps: Json -> string, loads: string -> Option<Json>)

  /**
   * `json.loads(json.dumps(v)) == v` for the one value `v`, and `json.dumps(v)` is not
   * the empty string (the shortest JSON document is one character long).
   */
  predicate RoundTripsOn(codec: Codec, v: Json) {
    codec.loads(codec.dumps(v)) == Some(v) && codec.dumps(v) != ""
  }
}
