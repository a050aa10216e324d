/** The JSON values that travel through the two handlers, and the HTTP replies built from them. */
module JsonValue {

  /**
   * A JSON value as Python's json module yields it. Objects are maps because
   * the web framework serialises them with sorted keys, so member order is
   * never observable. A number is held as text, and how `json.loads` and
   * `jsonify` read and write it back is not modelled, because the parser is
   * a parameter.
   */
  datatype Json =
    | JNull
    | JBool(b: bool)
    | JNumber(literal: string)
    | JString(s: string)
    | JArray(items: seq<Json>)
    | JObject(members: map<string, Json>)

  /** `isinstance(v, dict) and key in v` */
  predicate HasKey(v: Json, key: string)
  {
    v.JObject? && key in v.members
  }
}

module Http {
  import opened JsonValue

  /** An HTTP reply: status code and JSON body, as returned by a handler. */
  datatype Response = Response(status: int, body: Json)

  /** What the external text-generation call gives back: its text, or the message of the exception it raised. */
  datatype Upstream = Replied(text: string) | Raised(message: string)

  /** The `{"error": message}` reply both handlers use for every failure. */
  function ErrorResponse(status: int, message: string): (r: Response)
    ensures r.status == status
    ensures HasKey(r.body, "error") && r.body.members["error"] == JString(message)
    ensures r.body.members.Keys == {"error"}
  {
    Response(status, JObject(map["error" := JString(message)]))
  }
}
