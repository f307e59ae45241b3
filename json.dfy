/** JSON values, as `json.loads` returns them. */
module Json {
  import opened Python

  datatype JsonValue =
    | JNull
    | JBool(b: bool)
    | JNumber(n: real)
    | JString(s: string)
    | JArray(items: seq<JsonValue>)
    | JObject(members: seq<(string, JsonValue)>)

  /** The signature of `json.loads`: `None` stands for a `JSONDecodeError`.
      The parser itself is not modelled; it is passed in where it is used. */
  type Loads = string -> Option<JsonValue>

  /** Holds when the text parsed to a list with at least one element. */
  predicate IsNonEmptyList(parsed: Option<JsonValue>) {
    parsed.Some? && parsed.value.JArray? && |parsed.value.items| > 0
  }
}
