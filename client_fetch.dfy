/**
 * How the client hooks read a response from their own serverless
 * functions: a status outside 200-299 throws "API error! status: <status>",
 * a body whose `error` field is truthy throws its `message` (or "API
 * returned an error"), otherwise the parsed body is used.
 */
module ClientFetch {
  import opened Wrappers
  import opened JsValue
  import opened Fetch

  const ApiReturnedError := "API returned an error"

  /** The message of `new Error(data.message || "API returned an error")`. */
  function ErrorText(message: Option<Json>): (r: string)
    ensures !Truthy(message) ==> r == ApiReturnedError
    ensures Truthy(message) && message.value.JStr? ==> r == message.value.s
  {
    if Truthy(message) then JsString(message.value) else ApiReturnedError
  }

  /** `if (data.error) throw ...`: a `null` body throws a TypeError on the read itself. */
  function CheckErrorField(data: Json): (r: Result<Json, string>)
    ensures r.Success? ==> r.value == data
    ensures r.Success? <==> !data.JNull? && !Truthy(Lookup(Some(data), [Key("error")]))
    ensures data.JNull? ==> r == Failure("Cannot read properties of null (reading 'error')")
    ensures !data.JNull? && Truthy(Lookup(Some(data), [Key("error")])) ==>
      r == Failure(ErrorText(Lookup(Some(data), [Key("message")])))
  {
    assert TypeErrorMessage(Some(JNull), Key("error")) == "Cannot read properties of null (reading 'error')";
    match Eval(Some(data), [Plain(Key("error"))])
    case Failure(e) => Failure(e)
    case Success(err) =>
      if Truthy(err) then Failure(ErrorText(Member(data, Key("message")))) else Success(data)
  }

  function ReadApi(outcome: FetchOutcome): (r: Result<Json, string>)
    ensures r.Success? ==> outcome.Ok() && outcome.body == Parsed(r.value)
    ensures outcome.Response? && !outcome.Ok() ==>
      r == Failure("API error! status: " + NatToString(outcome.status))
    ensures outcome.NetworkError? ==> r == Failure(outcome.message)
    ensures outcome.Ok() && outcome.body.Malformed? ==> r == Failure(outcome.body.message)
    ensures outcome.Ok() && outcome.body.Parsed? ==> r == CheckErrorField(outcome.body.json)
  {
    match outcome
    case NetworkError(m) => Failure(m)
    case Response(status, body) =>
      if !outcome.Ok() then Failure("API error! status: " + NatToString(status))
      else
        match body
        case Malformed(m) => Failure(m)
        case Parsed(data) => CheckErrorField(data)
  }
}
