/** The JSON values that the handlers build and echo. Encoding and decoding
    are library calls and are passed to the handlers as oracles. */
module Json {

  datatype JsonValue =
    | Null
    | Bool(b: bool)
    | Number(n: real)
    | Str(s: string)
    | Array(items: seq<JsonValue>)
    | Object(fields: map<string, JsonValue>)

  /** What `json.Unmarshal` / `Decoder.Decode` into a `map[string]interface{}`
      produce: a JSON object, or nothing when the text is not one. */
  type JsonObject = map<string, JsonValue>

  /** The fixed payload of `GET /data`: items "item1".."item3" and count 3. */
  const SampleData: JsonValue :=
    Object(map["items" := Array([Str("item1"), Str("item2"), Str("item3")]), "count" := Number(3.0)])
}
