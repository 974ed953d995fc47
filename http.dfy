/** What a Flask view returns: a JSON body and an HTTP status. */
module Http {
  import opened PyJson

  /** `jsonify(body), status`; a bare `jsonify(body)` has status 200. */
  datatype Reply = Reply(body: Json, status: int)

  /** The body `{"error": message}` that both handlers use for a rejection. */
  function ErrorBody(message: string): Json {
    Obj(map["error" := Str(message)])
  }

  const NoTextProvided := "No text provided"

  /** `data.get("text", "")` once the body is known to be a dict. */
  function TextOf(data: map<string, Json>): Json {
    if "text" in data then data["text"] else Str("")
  }
}
