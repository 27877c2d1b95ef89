/** What the code sees of an HTTP exchange made with `fetch`. No traffic is
    modelled: each exchange is an oracle value, chosen by whoever states a
    property, saying how the server (or the network) answered. */
module Http {
  import opened Wrappers
  import opened Decimal

  /** `response.ok` holds exactly for the statuses 200 to 299. */
  type OkStatus = s: int | 200 <= s <= 299 witness 200
  type ErrorStatus = s: int | s < 200 || 299 < s witness 500

  /** The string-valued fields of a JSON object body, as read through
      `errorData.message` and `errorData.error`. */
  type JsonObject = map<string, string>

  /** `o.name` where an absent field (undefined) and "" are both falsy. */
  function Field(o: JsonObject, name: string): (v: string)
    ensures name !in o ==> v == ""
  {
    if name in o then o[name] else ""
  }

  /** The outcome of `response.json()`: the body parses, or the call rejects
      with a SyntaxError carrying `reason`. */
  datatype Parsed<T> = NotJson(reason: string) | Json(value: T)

  /** A response that reached the page: a 2xx one, whose body is read as the
      expected payload, or any other one, whose body is read as an error
      object. */
  datatype Response<B> =
    | Accepted(okStatus: OkStatus, body: Parsed<B>)
    | Refused(errorStatus: ErrorStatus, errorBody: Parsed<JsonObject>)
  {
    /** `response.status`. */
    function Status(): int {
      if Accepted? then okStatus else errorStatus
    }
  }

  /** The promise returned by `fetch` rejects (a TypeError carrying `reason`)
      or resolves to a response. */
  datatype Reply<B> = NetworkFailure(reason: string) | Received(response: Response<B>)

  /** `await response.json().catch(() => ({}))` on an error response. */
  function ErrorFields(body: Parsed<JsonObject>): JsonObject {
    match body
    case NotJson(_) => map[]
    case Json(o) => o
  }

  /** JavaScript `a || b` on strings: `b` when `a` is empty. */
  function OrElse(a: string, b: string): (r: string)
    ensures a != "" ==> r == a
    ensures a == "" ==> r == b
  {
    if a != "" then a else b
  }

  /** `errorData.message || errorData.error || fallback`, the message most
      handlers raise for an error response. */
  function MessageOrError(body: Parsed<JsonObject>, fallback: string): (m: string)
    ensures Field(ErrorFields(body), "message") != "" ==> m == Field(ErrorFields(body), "message")
    ensures Field(ErrorFields(body), "message") == "" && Field(ErrorFields(body), "error") != "" ==>
              m == Field(ErrorFields(body), "error")
    ensures Field(ErrorFields(body), "message") == "" && Field(ErrorFields(body), "error") == "" ==>
              m == fallback
  {
    var o := ErrorFields(body);
    OrElse(Field(o, "message"), OrElse(Field(o, "error"), fallback))
  }

  /** A request as `fetch` receives it. The body is kept as the JSON object it
      serialises; `JSON.stringify` itself is not modelled. */
  datatype Request = Request(url: string, verb: string, headers: map<string, string>, body: Option<JsonObject>)

  /** `Content-Type: application/json`, the only header the services set
      besides `Authorization`. */
  const JsonHeaders: map<string, string> := map["Content-Type" := "application/json"]

  /** The value of an `Authorization` header carrying a bearer token, as in
      section 2.1 of RFC 6750. */
  function Bearer(token: string): (h: string)
    ensures |h| == 7 + |token| && h[..7] == "Bearer " && h[7..] == token
  {
    "Bearer " + token
  }

  /** `Erreur ${status}`: the status written in decimal after "Erreur ". */
  function StatusMessage(status: int): (m: string)
    ensures |m| > 7 && m[..7] == "Erreur " && ParseInt(m[7..]) == Some(status)
  {
    ParseIntToString(status);
    "Erreur " + IntToString(status)
  }
}
