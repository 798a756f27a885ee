/**
 * The client hook that loads the home-page restaurant listing straight from
 * Swiggy through public CORS proxies: the first proxy, and the second one
 * only when the first gives no usable JSON.
 */
module RestaurantsHook {
  import opened Wrappers
  import opened JsValue
  import opened Fetch

  const ListingUrl :=
    "https://www.swiggy.com/dapi/restaurants/list/v5?offset=0&is-seo-homepage-enabled=true&lat=19.0759837&lng=72.8776559&carousel=true&third_party_vendor=1"

  const LoadFailed := "Failed to load restaurants. Please try again later."

  /** The first proxy takes the listing URL percent-encoded by `encode`. */
  function FirstProxyUrl(encode: string -> string): string {
    "https://api.allorigins.win/raw?url=" + encode(ListingUrl)
  }

  /** The second proxy takes the listing URL as it is. */
  const SecondProxyUrl := "https://thingproxy.freeboard.io/fetch/" + ListingUrl

  /**
   * The first attempt: anything but an ok response with a parsable body
   * (a network error, a bad status, a body `json()` rejects) falls back.
   */
  function FirstJson(first: FetchOutcome): (r: Option<Json>)
    ensures r.Some? <==> first.Ok() && first.body.Parsed?
    ensures r.Some? ==> first.body == Parsed(r.value)
  {
    if first.Ok() && first.body.Parsed? then Some(first.body.json) else None
  }

  /** The fallback attempt: its failures are not caught before the outer handler. */
  function SecondJson(second: FetchOutcome): (r: Result<Json, string>)
    ensures r.Success? <==> second.Ok() && second.body.Parsed?
    ensures r.Success? ==> second.body == Parsed(r.value)
    ensures second.Response? && !second.Ok() ==> r == Failure("Failed to fetch: " + NatToString(second.status))
  {
    match second
    case NetworkError(m) => Failure(m)
    case Response(status, body) =>
      if !second.Ok() then Failure("Failed to fetch: " + NatToString(status))
      else
        match body
        case Malformed(m) => Failure(m)
        case Parsed(json) => Success(json)
  }

  /** The URLs fetched during one load, in order. */
  function Requested(first: FetchOutcome, encode: string -> string): (urls: seq<string>)
    ensures 1 <= |urls| <= 2 && urls[0] == FirstProxyUrl(encode)
    ensures |urls| == 1 <==> FirstJson(first).Some?
    ensures |urls| == 2 <==> FirstJson(first).None?
    ensures |urls| == 2 ==> urls[1] == SecondProxyUrl
  {
    if FirstJson(first).Some? then [FirstProxyUrl(encode)] else [FirstProxyUrl(encode), SecondProxyUrl]
  }

  /** What a load stores: the carousel, the header title and the restaurant list. */
  datatype Listing = Listing(carousel: Json, header: Json, restaurants: Json)

  const CarouselPath: seq<Access> :=
    [Opt(Key("data")), Opt(Key("cards")), Plain(Index(0)), Opt(Key("card")), Opt(Key("card"))]
  const HeaderPath: seq<Access> :=
    [Opt(Key("data")), Opt(Key("cards")), Plain(Index(1)), Opt(Key("card")), Opt(Key("card")),
     Opt(Key("header")), Opt(Key("title"))]
  const RestaurantsPath: seq<Access> :=
    [Opt(Key("data")), Opt(Key("cards")), Plain(Index(1)), Opt(Key("card")), Opt(Key("card")),
     Opt(Key("gridElements")), Opt(Key("infoWithStyle")), Opt(Key("restaurants"))]

  /**
   * The three reads of the payload. Each chain indexes `cards` with a plain
   * `[n]`, so a payload whose `data` is present but has no `cards` throws.
   */
  function Extract(json: Json): Result<Listing, string> {
    match Eval(Some(json), CarouselPath)
    case Failure(e) => Failure(e)
    case Success(carousel) =>
      match Eval(Some(json), HeaderPath)
      case Failure(e) => Failure(e)
      case Success(header) =>
        match Eval(Some(json), RestaurantsPath)
        case Failure(e) => Failure(e)
        case Success(restaurants) =>
          Success(Listing(Or(carousel, JArr([])), Or(header, JStr("")), Or(restaurants, JArr([]))))
  }

  /** `data` is there and not null, but `data.cards` is missing or null. */
  predicate CardsMissing(json: Json) {
    !Nullish(Lookup(Some(json), [Key("data")])) && Nullish(Lookup(Some(json), [Key("data"), Key("cards")]))
  }

  /** The reads through `cards[n]` throw exactly when `cards` is missing below a present `data`. */
  lemma {:induction false} IndexedChainThrows(json: Json, path: seq<Access>)
    requires |path| >= 3 && path[0] == Opt(Key("data")) && path[1] == Opt(Key("cards")) && path[2].Plain?
    requires forall i :: 3 <= i < |path| ==> path[i].Opt?
    ensures Eval(Some(json), path).Failure? <==> CardsMissing(json)
  {
    var data := Lookup(Some(json), [Key("data")]);
    var cards := Lookup(Some(json), [Key("data"), Key("cards")]);
    if json.JNull? {
      assert Eval(Some(json), path) == Success(None);
    } else {
      assert Eval(Some(json), path) == Eval(Member(json, Key("data")), path[1..]);
      assert data == Member(json, Key("data"));
      if Nullish(data) {
        assert Eval(data, path[1..]) == Success(None);
      } else {
        assert cards == Member(data.value, Key("cards"));
        assert Eval(data, path[1..]) == Eval(cards, path[2..]);
        if !Nullish(cards) {
          OptionalTailNeverThrows(Member(cards.value, path[2].step), path[3..]);
        }
      }
    }
  }

  /** A chain of `?.` links only, however it is spelled, does not throw. */
  lemma {:induction false} OptionalTailNeverThrows(v: Option<Json>, path: seq<Access>)
    requires forall i :: 0 <= i < |path| ==> path[i].Opt?
    ensures Eval(v, path).Success?
    decreases |path|
  {
    if path != [] && !Nullish(v) {
      OptionalTailNeverThrows(Member(v.value, path[0].step), path[1..]);
    }
  }

  /** `Extract` fails exactly on a payload with `data` but no `cards`. */
  lemma ExtractFailsIffCardsMissing(json: Json)
    ensures Extract(json).Failure? <==> CardsMissing(json)
  {
    IndexedChainThrows(json, CarouselPath);
    IndexedChainThrows(json, HeaderPath);
    IndexedChainThrows(json, RestaurantsPath);
  }

  /** A successful extraction never stores a falsy value: each one is replaced by its default. */
  lemma ExtractedValuesAreTruthyOrDefault(json: Json)
    requires Extract(json).Success?
    ensures var l := Extract(json).value;
      && (Truthy(Some(l.carousel)) || l.carousel == JArr([]))
      && (Truthy(Some(l.header)) || l.header == JStr(""))
      && (Truthy(Some(l.restaurants)) || l.restaurants == JArr([]))
  {
  }

  /** An empty `cards` array yields the empty listing, not an error. */
  lemma EmptyCardsGiveEmptyListing()
    ensures Extract(JObj(map["data" := JObj(map["cards" := JArr([])])])) == Success(Listing(JArr([]), JStr(""), JArr([])))
  {
    var json := JObj(map["data" := JObj(map["cards" := JArr([])])]);
    assert !CardsMissing(json) by {
      assert Lookup(Some(json), [Key("data"), Key("cards")]) == Some(JArr([]));
    }
    ExtractFailsIffCardsMissing(json);
    var cards := Some(JArr([]));
    assert Eval(Some(json), CarouselPath) == Eval(cards, CarouselPath[2..]);
    assert Eval(Some(json), HeaderPath) == Eval(cards, HeaderPath[2..]);
    assert Eval(Some(json), RestaurantsPath) == Eval(cards, RestaurantsPath[2..]);
  }

  /** One whole load: the proxies in order, then the three reads. */
  function LoadListing(first: FetchOutcome, second: FetchOutcome): (r: Result<Listing, string>)
    ensures FirstJson(first).Some? ==> r == Extract(FirstJson(first).value)
    ensures FirstJson(first).None? && SecondJson(second).Success? ==> r == Extract(SecondJson(second).value)
    ensures FirstJson(first).None? && SecondJson(second).Failure? ==> r == Failure(SecondJson(second).error)
  {
    match FirstJson(first)
    case Some(json) => Extract(json)
    case None =>
      match SecondJson(second)
      case Failure(e) => Failure(e)
      case Success(json) => Extract(json)
  }

  /** When the first proxy delivers, what the second would have answered does not matter. */
  lemma SecondProxyUnusedAfterFirst(first: FetchOutcome, second: FetchOutcome, other: FetchOutcome)
    requires first.Ok() && first.body.Parsed?
    ensures LoadListing(first, second) == LoadListing(first, other)
  {
  }

  /**
   * The URLs fetched are exactly the answers the load depends on: with one
   * request the second proxy's answer is irrelevant, and with two the first
   * proxy's failure is swallowed, so any other failed first attempt gives
   * the same result.
   */
  lemma RequestedProxiesDecideLoad(first: FetchOutcome, second: FetchOutcome, other: FetchOutcome,
                                   encode: string -> string)
    ensures |Requested(first, encode)| == 1 ==> LoadListing(first, second) == LoadListing(first, other)
    ensures |Requested(first, encode)| == 2 && !(other.Ok() && other.body.Parsed?) ==>
              LoadListing(first, second) == LoadListing(other, second)
  {
  }

  /** A load fails exactly when neither proxy delivers JSON, or the JSON has `data` without `cards`. */
  lemma LoadFailsIff(first: FetchOutcome, second: FetchOutcome)
    ensures LoadListing(first, second).Failure? <==>
      if first.Ok() && first.body.Parsed? then CardsMissing(first.body.json)
      else !(second.Ok() && second.body.Parsed?) || CardsMissing(second.body.json)
  {
    if FirstJson(first).Some? {
      ExtractFailsIffCardsMissing(first.body.json);
    } else if SecondJson(second).Success? {
      ExtractFailsIffCardsMissing(second.body.json);
    }
  }

  /** The state the hook exposes. */
  class ListingState {
    var originalRestaurants: Json
    var restaurants: Json
    var carouselItems: Json
    var headerTitle: Json
    var searchText: string
    var isLoading: bool
    var error: Option<string>

    /** The first render; the mount effect then starts `GetRestaurant`. */
    constructor ()
      ensures originalRestaurants == JArr([]) && restaurants == JArr([]) && carouselItems == JArr([])
      ensures headerTitle == JStr("") && searchText == "" && isLoading && error.None?
    {
      originalRestaurants := JArr([]);
      restaurants := JArr([]);
      carouselItems := JArr([]);
      headerTitle := JStr("");
      searchText := "";
      isLoading := true;
      error := None;
    }

    /** The start of a load (also exposed as `refetch`): a previous error stays until a success. */
    method GetRestaurant()
      modifies this
      ensures isLoading
      ensures originalRestaurants == old(originalRestaurants) && restaurants == old(restaurants)
      ensures carouselItems == old(carouselItems) && headerTitle == old(headerTitle)
      ensures searchText == old(searchText) && error == old(error)
    {
      isLoading := true;
    }

    /** The end of a load, given what each proxy would answer; returns the URLs fetched. */
    method Settle(first: FetchOutcome, second: FetchOutcome, encode: string -> string) returns (requested: seq<string>)
      modifies this
      ensures requested == Requested(first, encode)
      ensures !isLoading && searchText == old(searchText)
      ensures LoadListing(first, second).Success? ==>
        var l := LoadListing(first, second).value;
        && carouselItems == l.carousel && headerTitle == l.header
        && restaurants == l.restaurants && originalRestaurants == l.restaurants
        && error.None?
      ensures LoadListing(first, second).Failure? ==>
        && originalRestaurants == old(originalRestaurants) && restaurants == old(restaurants)
        && carouselItems == old(carouselItems) && headerTitle == old(headerTitle)
        && error == Some(LoadFailed)
    {
      var json: Json;
      requested := [FirstProxyUrl(encode)];
      if first.Ok() && first.body.Parsed? {
        json := first.body.json;
      } else {
        requested := requested + [SecondProxyUrl];
        var fallback := SecondJson(second);
        if fallback.Failure? {
          error := Some(LoadFailed);
          isLoading := false;
          return;
        }
        json := fallback.value;
      }
      var listing := Extract(json);
      if listing.Success? {
        carouselItems := listing.value.carousel;
        headerTitle := listing.value.header;
        restaurants := listing.value.restaurants;
        originalRestaurants := listing.value.restaurants;
        error := None;
      } else {
        error := Some(LoadFailed);
      }
      isLoading := false;
    }

    /** The exposed `setSearchText` setter. */
    method SetSearchText(text: string)
      modifies this
      ensures searchText == text
      ensures originalRestaurants == old(originalRestaurants) && restaurants == old(restaurants)
      ensures carouselItems == old(carouselItems) && headerTitle == old(headerTitle)
      ensures isLoading == old(isLoading) && error == old(error)
    {
      searchText := text;
    }

    /** The exposed `setRestaurants` setter: the unfiltered copy is left alone. */
    method SetRestaurants(list: Json)
      modifies this
      ensures restaurants == list
      ensures originalRestaurants == old(originalRestaurants) && searchText == old(searchText)
      ensures carouselItems == old(carouselItems) && headerTitle == old(headerTitle)
      ensures isLoading == old(isLoading) && error == old(error)
    {
      restaurants := list;
    }
  }
}
