/** The serverless function that relays search results. */
module SearchResultsFunction {
  import opened Wrappers
  import opened JsValue
  import opened JsText
  import opened Fetch
  import opened Netlify

  const FailureTitle := "Failed to fetch search results"
  const MissingQuery := "Search string is required"
  const InvalidResults := "Invalid search results data"

  /** The query parameters after their defaults have been applied. */
  datatype SearchParams = SearchParams(
    lat: string, lng: string, str: string, trackingId: string,
    queryUniqueId: string, metaData: string, submitAction: string)

  function ParamsOf(event: Event): SearchParams {
    SearchParams(
      ParamOr(event, "lat", "23.1793"),
      ParamOr(event, "lng", "75.7849"),
      ParamOr(event, "str", ""),
      ParamOr(event, "trackingId", "undefined"),
      ParamOr(event, "queryUniqueId", ""),
      ParamOr(event, "metaData", ""),
      ParamOr(event, "submitAction", "ENTER"))
  }

  /** The part of the search URL that is always present; `str` is URI-encoded. */
  function FixedUrl(p: SearchParams, encode: string -> string): string {
    "https://www.swiggy.com/dapi/restaurants/search/v3?lat=" + p.lat + "&lng=" + p.lng
    + "&str=" + encode(p.str) + "&trackingId=" + p.trackingId + "&submitAction=" + p.submitAction
  }

  /** The fixed part, then `queryUniqueId` if non-empty, then the encoded `metaData` if non-empty. */
  function SearchUrl(p: SearchParams, encode: string -> string): string {
    FixedUrl(p, encode)
    + (if p.queryUniqueId != "" then "&queryUniqueId=" + p.queryUniqueId else "")
    + (if p.metaData != "" then "&metaData=" + encode(p.metaData) else "")
  }

  /** Builds the URL the way the function does: a `let` extended by conditional appends. */
  method BuildSearchUrl(p: SearchParams, encode: string -> string) returns (url: string)
    ensures url == SearchUrl(p, encode)
  {
    url := FixedUrl(p, encode);
    if p.queryUniqueId != "" {
      url := url + "&queryUniqueId=" + p.queryUniqueId;
    }
    if p.metaData != "" {
      url := url + "&metaData=" + encode(p.metaData);
    }
  }

  /**
   * The optional parameters only ever extend the fixed URL, and they extend
   * it exactly when one of them is non-empty.
   */
  lemma OptionalParametersExtend(p: SearchParams, encode: string -> string)
    ensures FixedUrl(p, encode) <= SearchUrl(p, encode)
    ensures SearchUrl(p, encode) == FixedUrl(p, encode) <==> p.queryUniqueId == "" && p.metaData == ""
  {
    var fixed := FixedUrl(p, encode);
    var q := if p.queryUniqueId != "" then "&queryUniqueId=" + p.queryUniqueId else "";
    var m := if p.metaData != "" then "&metaData=" + encode(p.metaData) else "";
    assert SearchUrl(p, encode) == fixed + (q + m);
    assert |SearchUrl(p, encode)| == |fixed| + |q| + |m|;
  }

  /** `!str || str.trim().length === 0`. */
  predicate BlankQuery(str: string) {
    str == "" || |Trim(str)| == 0
  }

  function Handler(event: Event, upstream: FetchOutcome, encode: string -> string): (r: HandlerResult)
    ensures r.response.headers == CorsHeaders
    ensures r.response.statusCode in {200, 400, 500}
    ensures event.httpMethod == "OPTIONS" ==> r == HandlerResult(Preflight, None)
    ensures event.httpMethod != "OPTIONS" ==>
      (r.upstreamUrl.None? <==> AllSpace(ParamsOf(event).str))
    ensures event.httpMethod != "OPTIONS" && AllSpace(ParamsOf(event).str) ==>
      r.response == Respond(400, JsonText(JObj(map["error" := JStr(MissingQuery)])))
    ensures event.httpMethod != "OPTIONS" && !AllSpace(ParamsOf(event).str) ==>
      r.upstreamUrl == Some(SearchUrl(ParamsOf(event), encode))
    ensures event.httpMethod != "OPTIONS" && r.response.statusCode == 200 ==>
      upstream.Ok() && upstream.body.Parsed?
      && Truthy(Lookup(Some(upstream.body.json), [Key("data")]))
      && r.response.body == JsonText(upstream.body.json)
  {
    var p := ParamsOf(event);
    TrimEmptyIffAllSpace(p.str);
    if event.httpMethod == "OPTIONS" then HandlerResult(Preflight, None)
    else if BlankQuery(p.str) then
      HandlerResult(Respond(400, JsonText(JObj(map["error" := JStr(MissingQuery)]))), None)
    else HandlerResult(Answer(upstream), Some(SearchUrl(p, encode)))
  }

  /** The answer built from the upstream outcome once the query is known to be non-blank. */
  function Answer(upstream: FetchOutcome): (r: HttpResponse)
    ensures r.headers == CorsHeaders && r.statusCode in {200, 500}
    ensures r.statusCode == 200 <==>
      upstream.Ok() && upstream.body.Parsed? && Truthy(Lookup(Some(upstream.body.json), [Key("data")]))
    ensures r.statusCode == 200 ==> r.body == JsonText(upstream.body.json)
    ensures upstream.NetworkError? ==> r == Respond(500, JsonText(ErrorBody(FailureTitle, upstream.message)))
    ensures upstream.Response? && !upstream.Ok() ==>
      r == Respond(500, JsonText(ErrorBody(FailureTitle, "Swiggy API returned " + NatToString(upstream.status))))
    ensures upstream.Ok() && upstream.body.Malformed? ==>
      r == Respond(500, JsonText(ErrorBody(FailureTitle, upstream.body.message)))
    ensures upstream.Ok() && upstream.body.Parsed? && !Truthy(Lookup(Some(upstream.body.json), [Key("data")])) ==>
      r == Respond(500, JsonText(ErrorBody(FailureTitle, InvalidResults)))
  {
    match ReadSwiggy(upstream)
    case Failure(message) => Respond(500, JsonText(ErrorBody(FailureTitle, message)))
    case Success(data) =>
      if !Truthy(Some(data)) || !Truthy(Member(data, Key("data"))) then
        Respond(500, JsonText(ErrorBody(FailureTitle, InvalidResults)))
      else Respond(200, JsonText(data))
  }

  /** Every parameter the request leaves out takes its default. */
  lemma DefaultParameters(event: Event)
    requires event.query.None?
    ensures ParamsOf(event) == SearchParams("23.1793", "75.7849", "", "undefined", "", "", "ENTER")
  {
  }

  /**
   * A status outside 200-299, or a payload without `data`, is a 500 "Failed
   * to fetch search results" whose message names the status, or says the
   * data is invalid.
   */
  lemma UpstreamFailure(event: Event, upstream: FetchOutcome, encode: string -> string)
    requires event.httpMethod != "OPTIONS" && !AllSpace(ParamsOf(event).str)
    requires !upstream.Ok() || (upstream.body.Parsed? && !Truthy(Lookup(Some(upstream.body.json), [Key("data")])))
    ensures Handler(event, upstream, encode).response.statusCode == 500
    ensures Handler(event, upstream, encode).response.body.value.fields["error"] == JStr("Failed to fetch search results")
    ensures upstream.Response? && !upstream.Ok() ==>
      Handler(event, upstream, encode).response ==
        Respond(500, JsonText(ErrorBody(FailureTitle, "Swiggy API returned " + NatToString(upstream.status))))
    ensures upstream.Ok() ==>
      Handler(event, upstream, encode).response == Respond(500, JsonText(ErrorBody(FailureTitle, InvalidResults)))
  {
    TrimEmptyIffAllSpace(ParamsOf(event).str);
    assert !BlankQuery(ParamsOf(event).str);
    assert Handler(event, upstream, encode).response == Answer(upstream);
    if !upstream.Ok() {
      assert ReadSwiggy(upstream).Failure?;
    } else {
      var data := upstream.body.json;
      assert ReadSwiggy(upstream) == Success(data);
      assert !Truthy(Some(data)) || !Truthy(Member(data, Key("data")));
    }
  }

  /** A payload with a truthy `data` field goes back unchanged. */
  lemma PassesResultsThrough(event: Event, status: nat, data: Json, encode: string -> string)
    requires event.httpMethod != "OPTIONS" && !AllSpace(ParamsOf(event).str)
    requires 200 <= status <= 299
    requires Truthy(Lookup(Some(data), [Key("data")]))
    ensures Handler(event, Response(status, Parsed(data)), encode).response == Respond(200, JsonText(data))
  {
  }
}
