/** The decoded JSON payloads the transit-schedule API returns, and the lenient body decoder. */
module Json {

  /** A JSON value. Numbers are integers; floating point is not part of this model. */
  datatype Json =
    | JNull
    | JBool(b: bool)
    | JInt(i: int)
    | JStr(s: string)
    | JArr(items: seq<Json>)
    | JObj(fields: map<string, Json>)

  /** A response body as the transport hands it over: decodable JSON, or text that is not JSON. */
  datatype Body = Decodable(json: Json) | Undecodable(text: string)

  const DecodeErrorText: string := "Failed to decode JSON"

  /**
   * `_parse_json_response_sync`: the decoded JSON, or, when the body does not decode,
   * an object `{"error": "Failed to decode JSON", "raw": <text>}` instead of an exception.
   */
  function DecodeBody(b: Body): (j: Json)
    ensures b.Decodable? ==> j == b.json
    ensures b.Undecodable? ==>
      && j.JObj? && j.fields.Keys == {"error", "raw"}
      && j.fields["error"] == JStr(DecodeErrorText) && j.fields["raw"] == JStr(b.text)
  {
    match b
    case Decodable(json) => json
    case Undecodable(text) => JObj(map["error" := JStr(DecodeErrorText), "raw" := JStr(text)])
  }
}
