/**
 * The `fetch` interface as the client code uses it: the requests it shapes,
 * and the outcome of one request, which the model takes as an oracle input.
 */
module Http {

  import opened Wrappers
  import opened Js

  datatype Method = GET | POST

  /** One request as handed to `fetch`: the body is the value whose
      `JSON.stringify` text is sent. */
  datatype Request = Request(verb: Method, url: string, headers: map<string, string>, body: Option<Value>)

  /** What `response.json()` yields. */
  datatype Body = Parsed(value: Value) | Unparsable(detail: string)

  /** The outcome of one `fetch`: its promise rejects, or a response arrives
      with a status, its body text and the result of parsing that text. */
  datatype Outcome =
    | NetworkFailure(detail: string)
    | Response(status: int, text: string, body: Body)
  {
    /** `response.ok`. */
    predicate Ok()
      requires Response?
    {
      200 <= status <= 299
    }
  }

  const JsonContentType: map<string, string> := map["Content-Type" := "application/json"]

  /** The `Authorization` header value built from a token (`Bearer ${token}`). */
  function Bearer(token: Value): string {
    "Bearer " + ToStr(token)
  }

  /** The headers of an authorized JSON request. */
  function AuthorizedJson(token: Value): (h: map<string, string>)
    ensures h.Keys == {"Content-Type", "Authorization"}
    ensures h["Content-Type"] == "application/json" && h["Authorization"] == "Bearer " + ToStr(token)
  {
    JsonContentType["Authorization" := Bearer(token)]
  }
}
