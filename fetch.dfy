/**
 * What a `fetch` call gives back, taken as an input: either the promise
 * rejects (no response reached), or a response arrives with a status and a
 * body that `response.json()` either parses or rejects.
 */
module Fetch {
  import opened JsValue

  datatype Body = Parsed(json: Json) | Malformed(message: string)

  datatype FetchOutcome =
    | NetworkError(message: string)
    | Response(status: nat, body: Body)
  {
    /** `response.ok`: a status in the range 200-299. */
    predicate Ok() {
      Response? && 200 <= status <= 299
    }
  }
}
