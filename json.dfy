/** A decoded JSON document, as `json.loads` and `response.json()` hand it to the bot. */
module Json {

  /** JSON numbers are kept as integers: the bot never computes with them. */
  datatype Value =
    | JNull
    | JBool(b: bool)
    | JNumber(n: int)
    | JString(s: string)
    | JArray(items: seq<Value>)
    | JObject(fields: map<string, Value>)
}
