/** Decoded JSON, as Go's encoding/json leaves it in an `interface{}`:
    nil, bool, float64, string, []interface{} or map[string]interface{}. */
module Json {

  datatype JsonValue =
    | JNull
    | JBool(b: bool)
    | JNumber(n: real)
    | JString(s: string)
    | JArray(items: seq<JsonValue>)
    | JObject(fields: map<string, JsonValue>)
}
