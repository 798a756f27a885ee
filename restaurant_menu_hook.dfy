/**
 * The client hook that loads one restaurant's menu through the serverless
 * menu function. A load is split in two: `GetRestaurantInfo` is what runs
 * before the `await` (flags, counter, request), `Settle` is what runs when
 * the fetch outcome arrives.
 */
module RestaurantMenuHook {
  import opened Wrappers
  import opened JsValue
  import opened Fetch
  import opened ClientFetch
  import MenuEnvelope
  import Netlify
  import RestaurantMenuFunction

  const ItemCategoryType := "type.googleapis.com/swiggy.presentation.food.v2.ItemCategory"

  /** `cat.card.card["@type"]`, read with plain member access. */
  function TypeTag(category: Json): Result<Option<Json>, string> {
    Eval(Some(category), [Plain(Key("card")), Plain(Key("card")), Plain(Key("@type"))])
  }

  predicate IsItemCategory(category: Json) {
    TypeTag(category) == Success(Some(JStr(ItemCategoryType)))
  }

  /** Reading the tag throws exactly when the entry has no `card.card`. */
  lemma TypeTagThrowsIffNoInnerCard(category: Json)
    ensures TypeTag(category).Failure? <==> Nullish(Lookup(Some(category), [Key("card"), Key("card")]))
  {
  }

  /**
   * `menuCategories.filter(cat => cat.card.card["@type"] === ItemCategoryType)`:
   * the first entry whose tag cannot be read aborts the whole filter.
   */
  function FilterCategories(cards: seq<Json>): (r: Result<seq<Json>, string>)
    ensures r.Success? <==> forall i :: 0 <= i < |cards| ==> TypeTag(cards[i]).Success?
    ensures r.Success? ==> |r.value| <= |cards|
    ensures r.Success? ==> forall c :: c in r.value ==> c in cards && IsItemCategory(c)
    ensures r.Success? ==> forall c :: c in cards && IsItemCategory(c) ==> c in r.value
    ensures r.Failure? ==>
      exists i :: 0 <= i < |cards| && TypeTag(cards[i]) == Failure(r.error)
                  && forall j :: 0 <= j < i ==> TypeTag(cards[j]).Success?
  {
    if cards == [] then Success([])
    else
      match TypeTag(cards[0])
      case Failure(e) =>
        assert TypeTag(cards[0]) == Failure(e);
        Failure(e)
      case Success(tag) =>
        match FilterCategories(cards[1..])
        case Failure(e) =>
          FailureInTail(cards, e);
          Failure(e)
        case Success(rest) =>
          var kept := if tag == Some(JStr(ItemCategoryType)) then [cards[0]] + rest else rest;
          KeptFromTail(cards, tag, rest);
          Success(kept)
  }

  /** A failure in the tail, behind a readable head, is the first failure of the whole list. */
  lemma FailureInTail(cards: seq<Json>, e: string)
    requires |cards| > 0 && TypeTag(cards[0]).Success?
    requires exists i :: 0 <= i < |cards[1..]| && TypeTag(cards[1..][i]) == Failure(e)
                         && forall j :: 0 <= j < i ==> TypeTag(cards[1..][j]).Success?
    ensures exists i :: 0 <= i < |cards| && TypeTag(cards[i]) == Failure(e)
                        && forall j :: 0 <= j < i ==> TypeTag(cards[j]).Success?
  {
    var i :| 0 <= i < |cards[1..]| && TypeTag(cards[1..][i]) == Failure(e)
             && forall j :: 0 <= j < i ==> TypeTag(cards[1..][j]).Success?;
    forall j | 0 <= j < i + 1 ensures TypeTag(cards[j]).Success? {
      if j > 0 { assert cards[j] == cards[1..][j - 1]; }
    }
    assert TypeTag(cards[i + 1]) == Failure(e);
  }

  /** Keeping a readable head when it is an item category extends the tail's result. */
  lemma KeptFromTail(cards: seq<Json>, tag: Option<Json>, rest: seq<Json>)
    requires |cards| > 0 && TypeTag(cards[0]) == Success(tag)
    requires forall i :: 0 <= i < |cards[1..]| ==> TypeTag(cards[1..][i]).Success?
    requires |rest| <= |cards[1..]|
    requires forall c :: c in rest ==> c in cards[1..] && IsItemCategory(c)
    requires forall c :: c in cards[1..] && IsItemCategory(c) ==> c in rest
    ensures var kept := if tag == Some(JStr(ItemCategoryType)) then [cards[0]] + rest else rest;
      && (forall i :: 0 <= i < |cards| ==> TypeTag(cards[i]).Success?)
      && |kept| <= |cards|
      && (forall c :: c in kept ==> c in cards && IsItemCategory(c))
      && (forall c :: c in cards && IsItemCategory(c) ==> c in kept)
  {
    var kept := if tag == Some(JStr(ItemCategoryType)) then [cards[0]] + rest else rest;
    forall i | 0 <= i < |cards| ensures TypeTag(cards[i]).Success? {
      if i > 0 { assert cards[i] == cards[1..][i - 1]; }
    }
    forall c | c in kept ensures c in cards && IsItemCategory(c) {
      if c in rest { assert c in cards[1..]; }
    }
    forall c | c in cards && IsItemCategory(c) ensures c in kept {
      if c != cards[0] { assert c in cards[1..]; }
    }
  }

  /** Filtering keeps the kept entries in their original order. */
  lemma {:induction false} FilterCategoriesConcat(a: seq<Json>, b: seq<Json>)
    requires FilterCategories(a).Success? && FilterCategories(b).Success?
    ensures FilterCategories(a + b) == Success(FilterCategories(a).value + FilterCategories(b).value)
    decreases |a|
  {
    if a == [] {
      assert a + b == b;
      assert FilterCategories(a).value == [];
      assert [] + FilterCategories(b).value == FilterCategories(b).value;
    } else {
      var tail := a[1..];
      assert (a + b)[1..] == tail + b;
      assert (a + b)[0] == a[0];
      assert TypeTag(a[0]).Success?;
      assert FilterCategories(tail).Success? by {
        forall i | 0 <= i < |tail| ensures TypeTag(tail[i]).Success? { assert tail[i] == a[i + 1]; }
      }
      FilterCategoriesConcat(tail, b);
      var keep := TypeTag(a[0]).value == Some(JStr(ItemCategoryType));
      assert FilterCategories(a).value ==
        (if keep then [a[0]] + FilterCategories(tail).value else FilterCategories(tail).value);
      assert FilterCategories(a + b).value ==
        (if keep then [a[0]] + FilterCategories(tail + b).value else FilterCategories(tail + b).value);
      if keep {
        assert [a[0]] + FilterCategories(tail).value + FilterCategories(b).value
            == [a[0]] + (FilterCategories(tail).value + FilterCategories(b).value);
      }
    }
  }

  /** A single entry is kept exactly when it is an item category. */
  lemma FilterCategoriesSingle(c: Json)
    requires TypeTag(c).Success?
    ensures FilterCategories([c]) == Success(if IsItemCategory(c) then [c] else [])
  {
    assert [c][1..] == [];
    assert [c][0] == c;
    assert FilterCategories([]) == Success([]);
    assert [c] + [] == [c];
  }

  /** What a settled load produces: the menu and its item categories, or the message thrown. */
  function LoadMenu(outcome: FetchOutcome): (r: Result<MenuEnvelope.Menu, string>)
    ensures r.Success? ==>
      outcome.Ok() && outcome.body.Parsed?
      && MenuEnvelope.Check(outcome.body.json).Success?
      && r.value.info == MenuEnvelope.Check(outcome.body.json).value.info
      && FilterCategories(MenuEnvelope.Check(outcome.body.json).value.categories) == Success(r.value.categories)
    ensures ReadApi(outcome).Failure? ==> r == Failure(ReadApi(outcome).error)
    ensures ReadApi(outcome).Success? && MenuEnvelope.Check(ReadApi(outcome).value).Failure? ==>
      r == Failure(MenuEnvelope.Check(ReadApi(outcome).value).error)
    ensures ReadApi(outcome).Success? && MenuEnvelope.Check(ReadApi(outcome).value).Success?
            && FilterCategories(MenuEnvelope.Check(ReadApi(outcome).value).value.categories).Failure? ==>
      r == Failure(FilterCategories(MenuEnvelope.Check(ReadApi(outcome).value).value.categories).error)
  {
    match ReadApi(outcome)
    case Failure(e) => Failure(e)
    case Success(data) =>
      match MenuEnvelope.Check(data)
      case Failure(e) => Failure(e)
      case Success(menu) =>
        match FilterCategories(menu.categories)
        case Failure(e) => Failure(e)
        case Success(items) => Success(MenuEnvelope.Menu(menu.info, items))
  }

  /** The text stored in `error` after a failed load. */
  function FailureMessage(attemptsSeen: nat, message: string): string {
    "Failed to load restaurant menu (Attempt " + NatToString(attemptsSeen) + "): " + message
  }

  /** One load in flight: the URL requested and the `attempts` value its closure read at the start. */
  datatype Cycle = Cycle(url: string, attemptsSeen: nat)

  /**
   * A function response that is not 200 reaches the hook as a bare status:
   * the function's own error message is not read.
   */
  lemma FunctionFailureSeenAsStatus(event: Netlify.Event, upstream: FetchOutcome)
    requires event.httpMethod != "OPTIONS"
    ensures var response := RestaurantMenuFunction.Handler(event, upstream).response;
            response.statusCode != 200 ==>
              LoadMenu(Netlify.Delivered(response)) == Failure("API error! status: " + NatToString(response.statusCode))
  {
    NonOkResponseSeenAsStatus(RestaurantMenuFunction.Handler(event, upstream).response);
  }

  /** Any of the function's statuses other than 200 fails the load with its bare status. */
  lemma NonOkResponseSeenAsStatus(response: Netlify.HttpResponse)
    requires response.statusCode in {200, 400, 500}
    ensures response.statusCode != 200 ==>
      LoadMenu(Netlify.Delivered(response)) == Failure("API error! status: " + NatToString(response.statusCode))
  {
    if response.statusCode != 200 {
      var o := Netlify.Delivered(response);
      assert o.Response? && o.status == response.statusCode && !o.Ok();
    }
  }

  /** A structurally accepted payload that arrives with status 200. */
  lemma AcceptedPayloadLoads(data: Json)
    requires MenuEnvelope.Check(data).Success?
    ensures LoadMenu(Netlify.Delivered(Netlify.Respond(200, Netlify.JsonText(data)))).Success?
            <==> !Truthy(Lookup(Some(data), [Key("error")]))
                 && FilterCategories(MenuEnvelope.Check(data).value.categories).Success?
  {
    if data.JNull? {
      assert false;
    }
    assert Netlify.Delivered(Netlify.Respond(200, Netlify.JsonText(data))) == Response(200, Parsed(data));
  }

  /**
   * When the function passes a menu through, the hook accepts it unless the
   * payload has a truthy `error` field or a REGULAR entry without `card.card`.
   */
  lemma FunctionSuccessSeenAsMenu(event: Netlify.Event, status: nat, data: Json)
    requires event.httpMethod != "OPTIONS"
    requires RestaurantMenuFunction.Handler(event, Response(status, Parsed(data))).response.statusCode == 200
    ensures MenuEnvelope.Check(data).Success?
    ensures LoadMenu(Netlify.Delivered(RestaurantMenuFunction.Handler(event, Response(status, Parsed(data))).response)).Success?
            <==> !Truthy(Lookup(Some(data), [Key("error")]))
                 && FilterCategories(MenuEnvelope.Check(data).value.categories).Success?
  {
    RestaurantMenuFunction.AnswerOf200(event, status, data);
    AcceptedPayloadLoads(data);
  }

  /** `${id}` in a template literal: a missing route parameter is written "undefined". */
  function IdText(id: Option<string>): string {
    if id.Some? then id.value else "undefined"
  }

  /** `if (id)`: the route parameter is present and not empty. */
  predicate HasId(id: Option<string>) {
    id.Some? && id.value != ""
  }

  /** `${apiBaseUrl}/restaurant-menu?id=${id}`. */
  function RequestUrl(apiBaseUrl: string, id: Option<string>): string {
    apiBaseUrl + "/restaurant-menu?id=" + IdText(id)
  }

  /** The GET request the menu function receives for that URL, its query read back as written. */
  function RequestEvent(id: Option<string>): Netlify.Event {
    Netlify.Event("GET", Some(map["id" := IdText(id)]))
  }

  /**
   * A request the hook sends reaches Swiggy unless the id is the empty
   * string: a missing id is sent as the text "undefined", which the
   * function takes for a real id, although the mount effect never loads
   * without an id.
   */
  lemma RequestReachesSwiggy(id: Option<string>, upstream: FetchOutcome)
    ensures var r := RestaurantMenuFunction.Handler(RequestEvent(id), upstream);
      && (r.upstreamUrl.None? <==> id == Some(""))
      && (id.None? ==> r.upstreamUrl == Some(RestaurantMenuFunction.MenuUrl("undefined")) && !HasId(id))
  {
    assert Netlify.Param(RequestEvent(id), "id") == Some(IdText(id));
  }

  /** The state the hook exposes. `id` is the route parameter, `None` when it is missing. */
  class MenuState {
    const id: Option<string>
    const apiBaseUrl: string
    var isLoading: bool
    var restaurantMenu: Json
    var menuItems: seq<Json>
    var error: Option<string>
    var attempts: nat

    /** Every stored menu entry is an item category. */
    predicate Valid()
      reads this
    {
      forall c :: c in menuItems ==> IsItemCategory(c)
    }

    constructor (id: Option<string>, apiBaseUrl: string)
      ensures this.id == id && this.apiBaseUrl == apiBaseUrl
      ensures isLoading && restaurantMenu == EmptyObject && menuItems == []
      ensures error.None? && attempts == 0
      ensures Valid()
    {
      this.id := id;
      this.apiBaseUrl := apiBaseUrl;
      isLoading := true;
      restaurantMenu := EmptyObject;
      menuItems := [];
      error := None;
      attempts := 0;
    }

    /** The mount effect: a load starts only when there is an id. */
    method Mount() returns (cycle: Option<Cycle>)
      requires Valid()
      modifies this
      ensures Valid()
      ensures !HasId(id) ==> cycle.None? && unchanged(this)
      ensures HasId(id) ==> cycle == Some(Cycle(RequestUrl(apiBaseUrl, id), old(attempts)))
      ensures HasId(id) ==> isLoading && error.None? && attempts == old(attempts) + 1
      ensures restaurantMenu == old(restaurantMenu) && menuItems == old(menuItems)
    {
      if HasId(id) {
        var c := GetRestaurantInfo();
        cycle := Some(c);
      } else {
        cycle := None;
      }
    }

    /** The start of a load (also exposed as `refetch`): it runs whatever the state. */
    method GetRestaurantInfo() returns (cycle: Cycle)
      requires Valid()
      modifies this
      ensures Valid()
      ensures isLoading && error.None? && attempts == old(attempts) + 1
      ensures restaurantMenu == old(restaurantMenu) && menuItems == old(menuItems)
      ensures cycle == Cycle(RequestUrl(apiBaseUrl, id), old(attempts))
    {
      cycle := Cycle(RequestUrl(apiBaseUrl, id), attempts);
      isLoading := true;
      error := None;
      attempts := attempts + 1;
    }

    /** `retry`: starts a load only when none is marked in progress. */
    method Retry() returns (cycle: Option<Cycle>)
      requires Valid()
      modifies this
      ensures Valid()
      ensures old(isLoading) ==> cycle.None? && unchanged(this)
      ensures !old(isLoading) ==>
        && cycle == Some(Cycle(RequestUrl(apiBaseUrl, id), old(attempts)))
        && isLoading && error.None? && attempts == old(attempts) + 1
        && restaurantMenu == old(restaurantMenu) && menuItems == old(menuItems)
    {
      if !isLoading {
        var c := GetRestaurantInfo();
        cycle := Some(c);
      } else {
        cycle := None;
      }
    }

    /** The end of a load, when its fetch outcome arrives. */
    method Settle(cycle: Cycle, outcome: FetchOutcome)
      requires Valid()
      modifies this
      ensures Valid()
      ensures !isLoading && attempts == old(attempts)
      ensures LoadMenu(outcome).Success? ==>
        && restaurantMenu == LoadMenu(outcome).value.info
        && menuItems == LoadMenu(outcome).value.categories
        && error == old(error)
      ensures LoadMenu(outcome).Failure? ==>
        && restaurantMenu == EmptyObject && menuItems == []
        && error == Some(FailureMessage(cycle.attemptsSeen, LoadMenu(outcome).error))
    {
      var loaded := LoadMenu(outcome);
      if loaded.Success? {
        restaurantMenu := loaded.value.info;
        menuItems := loaded.value.categories;
        isLoading := false;
      } else {
        error := Some(FailureMessage(cycle.attemptsSeen, loaded.error));
        restaurantMenu := EmptyObject;
        menuItems := [];
        isLoading := false;
      }
    }
  }
}
