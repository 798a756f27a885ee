/** The serverless function that relays one restaurant's menu. */
module RestaurantMenuFunction {
  import opened Wrappers
  import opened JsValue
  import opened Fetch
  import opened Netlify
  import MenuEnvelope

  const FailureTitle := "Failed to fetch restaurant menu"
  const MissingId := "Restaurant ID is required"

  /** The menu URL with the restaurant id spliced in. */
  function MenuUrl(id: string): string {
    "https://www.swiggy.com/dapi/menu/pl?page-type=REGULAR_MENU&complete-menu=true&lat=23.1793&lng=75.7849&restaurantId="
    + id + "&catalog_qa=undefined&submitAction=ENTER"
  }

  /** `!id`: the parameter is absent or empty. */
  predicate MissingIdParam(event: Event) {
    Param(event, "id").None? || Param(event, "id").value == ""
  }

  function Handler(event: Event, upstream: FetchOutcome): (r: HandlerResult)
    ensures r.response.headers == CorsHeaders
    ensures r.response.statusCode in {200, 400, 500}
    ensures event.httpMethod == "OPTIONS" ==> r == HandlerResult(Preflight, None)
    ensures event.httpMethod != "OPTIONS" ==>
      (r.upstreamUrl.None? <==> MissingIdParam(event))
    ensures event.httpMethod != "OPTIONS" && MissingIdParam(event) ==>
      r.response == Respond(400, JsonText(JObj(map["error" := JStr(MissingId)])))
    ensures event.httpMethod != "OPTIONS" && !MissingIdParam(event) ==>
      r.upstreamUrl == Some(MenuUrl(Param(event, "id").value))
    ensures event.httpMethod != "OPTIONS" && r.response.statusCode == 200 ==>
      upstream.Ok() && upstream.body.Parsed?
      && MenuEnvelope.Check(upstream.body.json).Success?
      && r.response.body == JsonText(upstream.body.json)
  {
    if event.httpMethod == "OPTIONS" then HandlerResult(Preflight, None)
    else if MissingIdParam(event) then
      HandlerResult(Respond(400, JsonText(JObj(map["error" := JStr(MissingId)]))), None)
    else
      var url := MenuUrl(Param(event, "id").value);
      var response :=
        match ReadSwiggy(upstream)
        case Failure(message) => Respond(500, JsonText(ErrorBody(FailureTitle, message)))
        case Success(data) =>
          match MenuEnvelope.Check(data)
          case Failure(message) => Respond(500, JsonText(ErrorBody(FailureTitle, message)))
          case Success(_) => Respond(200, JsonText(data));
      HandlerResult(response, Some(url))
  }

  /** Fewer than five sections is "Invalid or incomplete menu data". */
  lemma TooFewSections(event: Event, status: nat, data: Json)
    requires event.httpMethod != "OPTIONS" && !MissingIdParam(event)
    requires 200 <= status <= 299
    requires !IsArray(MenuEnvelope.Sections(data)) || |MenuEnvelope.Sections(data).value.elems| < 5
    ensures Handler(event, Response(status, Parsed(data))).response ==
      Respond(500, JsonText(ErrorBody("Failed to fetch restaurant menu", "Invalid or incomplete menu data")))
  {
  }

  /** Five sections but no info or no REGULAR card array is "Missing menu information or categories". */
  lemma MissingInfoOrCategories(event: Event, status: nat, data: Json)
    requires event.httpMethod != "OPTIONS" && !MissingIdParam(event)
    requires 200 <= status <= 299
    requires IsArray(MenuEnvelope.Sections(data)) && |MenuEnvelope.Sections(data).value.elems| >= 5
    requires !Truthy(MenuEnvelope.InfoOf(data)) || !IsArray(MenuEnvelope.RegularCardsOf(data))
    ensures Handler(event, Response(status, Parsed(data))).response ==
      Respond(500, JsonText(ErrorBody("Failed to fetch restaurant menu", "Missing menu information or categories")))
  {
  }

  /** A status outside 200-299 is reported as a 500 naming that status. */
  lemma NonOkStatus(event: Event, status: nat, body: Body)
    requires event.httpMethod != "OPTIONS" && !MissingIdParam(event)
    requires !(200 <= status <= 299)
    ensures Handler(event, Response(status, body)).response ==
      Respond(500, JsonText(ErrorBody("Failed to fetch restaurant menu", "Swiggy API returned " + NatToString(status))))
  {
  }

  /** An accepted payload goes back unchanged: the categories are not filtered here. */
  lemma PassesMenuThrough(event: Event, status: nat, data: Json)
    requires event.httpMethod != "OPTIONS" && !MissingIdParam(event)
    requires 200 <= status <= 299
    requires MenuEnvelope.Check(data).Success?
    ensures Handler(event, Response(status, Parsed(data))).response == Respond(200, JsonText(data))
  {
  }

  /** A 200 answer is always the upstream payload itself. */
  lemma AnswerOf200(event: Event, status: nat, data: Json)
    requires Handler(event, Response(status, Parsed(data))).response.statusCode == 200
    ensures event.httpMethod != "OPTIONS" ==>
      Handler(event, Response(status, Parsed(data))).response == Respond(200, JsonText(data))
  {
    if event.httpMethod != "OPTIONS" {
      assert !MissingIdParam(event);
      PassesMenuThrough(event, status, data);
    }
  }
}
