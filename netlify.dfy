/**
 * The pieces the three serverless functions share: the request event, the
 * response record with its CORS header set, the preflight answer, and the
 * status check on the upstream response.
 */
module Netlify {
  import opened Wrappers
  import opened JsValue
  import opened Fetch

  /** `event.httpMethod` and `event.queryStringParameters` (which may be null). */
  datatype Event = Event(httpMethod: string, query: Option<map<string, string>>)

  /** A response body: literal text, or `JSON.stringify` of a value. */
  datatype Payload = Text(text: string) | JsonText(value: Json)

  datatype HttpResponse = HttpResponse(statusCode: nat, headers: map<string, string>, body: Payload)

  /** The response, and the upstream URL requested on the way (`None` when no call was made). */
  datatype HandlerResult = HandlerResult(response: HttpResponse, upstreamUrl: Option<string>)

  const CorsHeaders: map<string, string> := map[
    "Access-Control-Allow-Origin" := "*",
    "Access-Control-Allow-Headers" := "Content-Type",
    "Access-Control-Allow-Methods" := "GET, OPTIONS",
    "Content-Type" := "application/json"
  ]

  /** The answer to an OPTIONS preflight request. */
  const Preflight: HttpResponse := HttpResponse(200, CorsHeaders, Text(""))

  /** `(event.queryStringParameters || {})[name]`. */
  function Param(event: Event, name: string): (r: Option<string>)
    ensures r.Some? <==> event.query.Some? && name in event.query.value
    ensures r.Some? ==> r.value == event.query.value[name]
  {
    if event.query.Some? && name in event.query.value then Some(event.query.value[name]) else None
  }

  /** A destructured parameter with a default: the default replaces only an absent value. */
  function ParamOr(event: Event, name: string, default: string): (r: string)
    ensures Param(event, name).None? ==> r == default
    ensures Param(event, name).Some? ==> r == Param(event, name).value
  {
    Param(event, name).GetOr(default)
  }

  /** A JSON error body `{ error, message }`. */
  function ErrorBody(error: string, message: string): Json {
    JObj(map["error" := JStr(error), "message" := JStr(message)])
  }

  /** A response with the CORS headers. */
  function Respond(statusCode: nat, body: Payload): HttpResponse {
    HttpResponse(statusCode, CorsHeaders, body)
  }

  /**
   * The upstream call inside the handlers' `try`: a rejected fetch or a body
   * that does not parse throws its own message, a status outside 200-299
   * throws "Swiggy API returned <status>", otherwise the parsed data is used.
   */
  function ReadSwiggy(upstream: FetchOutcome): (r: Result<Json, string>)
    ensures r.Success? <==> upstream.Ok() && upstream.body.Parsed?
    ensures r.Success? ==> r.value == upstream.body.json
    ensures upstream.Response? && !upstream.Ok() ==>
      r == Failure("Swiggy API returned " + NatToString(upstream.status))
  {
    match upstream
    case NetworkError(m) => Failure(m)
    case Response(status, body) =>
      if !upstream.Ok() then Failure("Swiggy API returned " + NatToString(status))
      else
        match body
        case Parsed(data) => Success(data)
        case Malformed(m) => Failure(m)
  }

  /**
   * The fetch outcome a client sees for a response of these functions: the
   * same status, and a body that parses back to the value that was sent.
   * The only text body the functions send is the empty preflight body,
   * which `response.json()` rejects.
   */
  function Delivered(r: HttpResponse): FetchOutcome {
    match r.body
    case JsonText(v) => Response(r.statusCode, Parsed(v))
    case Text(_) => Response(r.statusCode, Malformed("Unexpected end of JSON input"))
  }
}
