/** The serverless function that relays the restaurant listing. */
module RestaurantsFunction {
  import opened Wrappers
  import opened JsValue
  import opened Fetch
  import opened Netlify

  const DefaultLat := "23.1793"
  const DefaultLng := "75.7849"
  const FailureTitle := "Failed to fetch restaurants"
  const NoRestaurants := "No restaurant data found"

  /** The listing URL, with `lat` and `lng` spliced in as given. */
  function ListUrl(lat: string, lng: string): string {
    "https://www.swiggy.com/dapi/restaurants/list/v5?offset=0&is-seo-homepage-enabled=true&lat="
    + lat + "&lng=" + lng + "&carousel=true&third_party_vendor=1"
  }

  /** `data?.data?.cards?.[1]?.card?.card?.gridElements?.infoWithStyle?.restaurants`. */
  function RestaurantsOf(data: Json): Option<Json> {
    Lookup(Some(data), [Key("data"), Key("cards"), Index(1), Key("card"), Key("card"),
                        Key("gridElements"), Key("infoWithStyle"), Key("restaurants")])
  }

  /** The payload holds a non-empty array of restaurants at the listing path. */
  predicate HasRestaurants(data: Json) {
    IsArray(RestaurantsOf(data)) && |RestaurantsOf(data).value.elems| > 0
  }

  /** The request's URL once `lat` and `lng` have taken their defaults. */
  function RequestUrl(event: Event): string {
    ListUrl(ParamOr(event, "lat", DefaultLat), ParamOr(event, "lng", DefaultLng))
  }

  function Handler(event: Event, upstream: FetchOutcome): (r: HandlerResult)
    ensures r.response.headers == CorsHeaders
    ensures r.response.statusCode == 200 || r.response.statusCode == 500
    ensures event.httpMethod == "OPTIONS" ==> r == HandlerResult(Preflight, None)
    ensures event.httpMethod != "OPTIONS" ==> r.upstreamUrl == Some(RequestUrl(event))
    ensures event.httpMethod != "OPTIONS" && r.response.statusCode == 200 ==>
      upstream.Ok() && upstream.body.Parsed? && HasRestaurants(upstream.body.json)
      && r.response.body == JsonText(upstream.body.json)
  {
    if event.httpMethod == "OPTIONS" then HandlerResult(Preflight, None)
    else
      var url := RequestUrl(event);
      var response :=
        match ReadSwiggy(upstream)
        case Failure(message) => Respond(500, JsonText(ErrorBody(FailureTitle, message)))
        case Success(data) =>
          if !HasRestaurants(data) then Respond(500, JsonText(ErrorBody(FailureTitle, NoRestaurants)))
          else Respond(200, JsonText(data));
      HandlerResult(response, Some(url))
  }

  /** Absent `lat` and `lng` take the default coordinates. */
  lemma DefaultCoordinates(event: Event, upstream: FetchOutcome)
    requires event.httpMethod != "OPTIONS"
    requires Param(event, "lat").None? && Param(event, "lng").None?
    ensures Handler(event, upstream).upstreamUrl == Some(ListUrl("23.1793", "75.7849"))
  {
  }

  /** A status outside 200-299 is reported as a 500 naming that status. */
  lemma NonOkStatus(event: Event, status: nat, body: Body)
    requires event.httpMethod != "OPTIONS"
    requires !(200 <= status <= 299)
    ensures Handler(event, Response(status, body)).response ==
      Respond(500, JsonText(ErrorBody("Failed to fetch restaurants", "Swiggy API returned " + NatToString(status))))
  {
  }

  /** A parsed payload is passed through exactly when it lists at least one restaurant. */
  lemma AcceptsIffRestaurants(event: Event, status: nat, data: Json)
    requires event.httpMethod != "OPTIONS"
    requires 200 <= status <= 299
    ensures HasRestaurants(data) ==>
      Handler(event, Response(status, Parsed(data))).response == Respond(200, JsonText(data))
    ensures !HasRestaurants(data) ==>
      Handler(event, Response(status, Parsed(data))).response ==
        Respond(500, JsonText(ErrorBody("Failed to fetch restaurants", "No restaurant data found")))
  {
  }
}
