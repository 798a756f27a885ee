/**
 * The client hook behind the search page: debounced suggestions while the
 * user types, a search request on submit or on a suggestion click, and the
 * list of the last five distinct successful searches.
 */
module SearchHook {
  import opened Wrappers
  import opened JsValue
  import opened JsText
  import opened Fetch
  import opened ClientFetch

  const DefaultLat := "23.1793"
  const DefaultLng := "75.7849"
  const MaxRecent := 5

  /**
   * A coordinate from the geolocation hook, as the text `String(x)` gives
   * for it; `None` stands for every falsy value (`null`, `0`), which
   * `lat || defaultLat` replaces.
   */
  function Coordinate(v: Option<string>, default: string): (r: string)
    ensures v.None? ==> r == default
    ensures v.Some? ==> r == v.value
  {
    v.GetOr(default)
  }

  // ---------------------------------------------------------------------
  // Recent searches
  // ---------------------------------------------------------------------

  /** `prev.filter(q => q !== query)`. */
  function Others(prev: seq<string>, query: string): (r: seq<string>)
    ensures query !in r
    ensures forall x :: x in r <==> x in prev && x != query
    ensures |r| <= |prev|
    ensures query !in prev ==> r == prev
  {
    if prev == [] then []
    else if prev[0] == query then Others(prev[1..], query)
    else [prev[0]] + Others(prev[1..], query)
  }

  predicate NoDuplicates(xs: seq<string>) {
    forall i, j :: 0 <= i < j < |xs| ==> xs[i] != xs[j]
  }

  /** `[query, ...filtered].slice(0, 5)`. */
  function RecentAfter(prev: seq<string>, query: string): (r: seq<string>)
    ensures 1 <= |r| <= MaxRecent
    ensures r[0] == query && query !in r[1..]
    ensures forall x :: x in r ==> x == query || x in prev
  {
    var all := [query] + Others(prev, query);
    if |all| <= MaxRecent then all else all[..MaxRecent]
  }

  /** Filtering keeps the survivors' order, so it keeps them distinct. */
  lemma {:induction false} OthersNoDuplicates(prev: seq<string>, query: string)
    requires NoDuplicates(prev)
    ensures NoDuplicates(Others(prev, query))
    ensures query in prev ==> |Others(prev, query)| == |prev| - 1
  {
    if prev != [] {
      var tail := prev[1..];
      assert NoDuplicates(tail) by {
        forall i, j | 0 <= i < j < |tail| ensures tail[i] != tail[j] {
          assert tail[i] == prev[i + 1] && tail[j] == prev[j + 1];
        }
      }
      OthersNoDuplicates(tail, query);
      if prev[0] != query {
        assert prev[0] !in tail;
        var r := [prev[0]] + Others(tail, query);
        forall i, j | 0 <= i < j < |r| ensures r[i] != r[j] {
          if i == 0 { assert r[j] in Others(tail, query); }
          else { assert r[i] == Others(tail, query)[i - 1] && r[j] == Others(tail, query)[j - 1]; }
        }
        if query in prev { assert query in tail; }
      } else {
        assert query !in tail;
      }
    }
  }

  /** Filtering distributes over concatenation, so it keeps the survivors in their original order. */
  lemma {:induction false} OthersConcat(a: seq<string>, b: seq<string>, query: string)
    ensures Others(a + b, query) == Others(a, query) + Others(b, query)
    decreases |a|
  {
    if a == [] {
      assert a + b == b;
    } else {
      assert (a + b)[0] == a[0];
      assert (a + b)[1..] == a[1..] + b;
      OthersConcat(a[1..], b, query);
      if a[0] != query {
        assert [a[0]] + Others(a[1..], query) + Others(b, query)
            == [a[0]] + (Others(a[1..], query) + Others(b, query));
      }
    }
  }

  /** Behind the new head come the earlier queries other than it, in order, cut to four. */
  lemma RecentAfterTail(prev: seq<string>, query: string)
    ensures var rest := Others(prev, query);
            RecentAfter(prev, query)[1..] == if |rest| < MaxRecent then rest else rest[..MaxRecent - 1]
  {
    var rest := Others(prev, query);
    var all := [query] + rest;
    assert all[1..] == rest;
    if |all| > MaxRecent {
      assert all[..MaxRecent][1..] == rest[..MaxRecent - 1];
    }
  }

  /** The list stays at most five distinct queries, the newest first. */
  lemma RecentAfterNoDuplicates(prev: seq<string>, query: string)
    requires NoDuplicates(prev)
    ensures NoDuplicates(RecentAfter(prev, query))
  {
    OthersNoDuplicates(prev, query);
    var all := [query] + Others(prev, query);
    forall i, j | 0 <= i < j < |all| ensures all[i] != all[j] {
      if i == 0 { assert all[j] in Others(prev, query); }
      else { assert all[i] == Others(prev, query)[i - 1] && all[j] == Others(prev, query)[j - 1]; }
    }
  }

  /**
   * Searching again for a listed query moves it to the front without
   * growing the list; a new query grows it until it holds five.
   */
  lemma RecentAfterLength(prev: seq<string>, query: string)
    requires NoDuplicates(prev) && |prev| <= MaxRecent
    ensures query in prev ==> |RecentAfter(prev, query)| == |prev|
    ensures query !in prev ==> |RecentAfter(prev, query)| == if |prev| < MaxRecent then |prev| + 1 else MaxRecent
  {
    OthersNoDuplicates(prev, query);
  }

  /** Every earlier query that is not pushed out keeps its relative order behind the new one. */
  lemma RecentAfterKeepsOrder(prev: seq<string>, query: string)
    requires query !in prev && |prev| < MaxRecent
    ensures RecentAfter(prev, query) == [query] + prev
  {
  }

  // ---------------------------------------------------------------------
  // Request URLs
  // ---------------------------------------------------------------------

  /**
   * `!searchQuery || searchQuery.trim().length < 2`: no suggestions are
   * asked for. `length` counts UTF-16 code units (the empty query has 0).
   */
  predicate SuggestionsGated(query: string) {
    Utf16Length(Trim(query)) < 2
  }

  /**
   * The gate holds exactly for a query that trims to nothing or to a single
   * character of the Basic Multilingual Plane: one emoji is long enough.
   */
  lemma SuggestionsGatedIff(query: string)
    ensures SuggestionsGated(query) <==>
      (Trim(query) == [] || (|Trim(query)| == 1 && Trim(query)[0] < '\U{10000}'))
  {
    var t := Trim(query);
    if |t| == 1 {
      assert t[1..] == [];
    } else if |t| >= 2 {
      assert Utf16Length(t) >= |t|;
    }
  }

  /** A query of one non-BMP character, such as U+1F600, does ask for suggestions. */
  lemma AstralCharacterNotGated(c: char)
    requires c >= '\U{10000}'
    ensures !SuggestionsGated([c])
  {
    assert !IsSpace(c);
    assert [c][0] == c && !AllSpace([c]);
    TrimEmptyIffAllSpace([c]);
    SuggestionsGatedIff([c]);
  }

  function SuggestionsUrl(base: string, lat: Option<string>, lng: Option<string>, query: string,
                          encode: string -> string): string {
    base + "/search-suggestions?lat=" + Coordinate(lat, DefaultLat) + "&lng=" + Coordinate(lng, DefaultLng)
    + "&str=" + encode(query)
  }

  /** The part of the search URL every request has. */
  function FixedSearchUrl(base: string, lat: Option<string>, lng: Option<string>, query: string,
                          action: string, encode: string -> string): string {
    base + "/search-results?lat=" + Coordinate(lat, DefaultLat) + "&lng=" + Coordinate(lng, DefaultLng)
    + "&str=" + encode(query) + "&submitAction=" + action
  }

  /** The search URL: the optional parameters are appended only when their values are truthy. */
  function SearchRequestUrl(base: string, lat: Option<string>, lng: Option<string>, query: string,
                            metadata: Json, queryUniqueId: Json, action: string,
                            encode: string -> string): string {
    FixedSearchUrl(base, lat, lng, query, action, encode)
    + (if Truthy(Some(queryUniqueId)) then "&queryUniqueId=" + JsString(queryUniqueId) else "")
    + (if Truthy(Some(metadata)) then "&metaData=" + encode(JsString(metadata)) else "")
  }

  /**
   * The optional parameters only extend the fixed URL, and a plain submit
   * (both of them `""`) sends the fixed URL alone.
   */
  lemma SearchRequestUrlExtends(base: string, lat: Option<string>, lng: Option<string>, query: string,
                                metadata: Json, queryUniqueId: Json, action: string, encode: string -> string)
    ensures FixedSearchUrl(base, lat, lng, query, action, encode)
            <= SearchRequestUrl(base, lat, lng, query, metadata, queryUniqueId, action, encode)
    ensures !Truthy(Some(metadata)) && !Truthy(Some(queryUniqueId)) ==>
            SearchRequestUrl(base, lat, lng, query, metadata, queryUniqueId, action, encode)
            == FixedSearchUrl(base, lat, lng, query, action, encode)
    ensures Truthy(Some(metadata)) || Truthy(Some(queryUniqueId)) ==>
            |SearchRequestUrl(base, lat, lng, query, metadata, queryUniqueId, action, encode)|
            > |FixedSearchUrl(base, lat, lng, query, action, encode)|
  {
    var fixed := FixedSearchUrl(base, lat, lng, query, action, encode);
    var q := if Truthy(Some(queryUniqueId)) then "&queryUniqueId=" + JsString(queryUniqueId) else "";
    var m := if Truthy(Some(metadata)) then "&metaData=" + encode(JsString(metadata)) else "";
    assert SearchRequestUrl(base, lat, lng, query, metadata, queryUniqueId, action, encode) == fixed + (q + m);
  }

  /** What the view hands to `handleSuggestionClick`. */
  datatype Suggestion = Suggestion(text: string, metadata: Option<Json>, queryUniqueId: Option<Json>)

  /** One search request in flight: its URL and the query it will record. */
  datatype SearchCycle = SearchCycle(url: string, query: string)

  const SuggestionsFailed := "Failed to load suggestions: "
  const ResultsFailed := "Failed to load search results: "

  /** The suggestions a successful answer stores: `data?.data?.suggestions || []`. */
  function SuggestionsOf(data: Json): (r: Json)
    ensures Truthy(Lookup(Some(data), [Key("data"), Key("suggestions")])) ==>
              Some(r) == Lookup(Some(data), [Key("data"), Key("suggestions")])
    ensures !Truthy(Lookup(Some(data), [Key("data"), Key("suggestions")])) ==> r == JArr([])
  {
    Or(Lookup(Some(data), [Key("data"), Key("suggestions")]), JArr([]))
  }

  /** The state the hook exposes, with the coordinates and base URL it reads. */
  class SearchState {
    const apiBaseUrl: string
    const lat: Option<string>
    const lng: Option<string>
    const encode: string -> string
    var searchQuery: string
    var suggestions: Json
    var searchResults: Option<Json>
    var isLoadingSuggestions: bool
    var isLoadingResults: bool
    var error: Option<string>
    var recentSearches: seq<string>
    var activeTab: string

    /** At most five recent searches, all distinct. */
    predicate Valid()
      reads this
    {
      |recentSearches| <= MaxRecent && NoDuplicates(recentSearches)
    }

    /** The first render, after the mount effects (both leave the initial values as they are). */
    constructor (apiBaseUrl: string, lat: Option<string>, lng: Option<string>, encode: string -> string)
      ensures this.apiBaseUrl == apiBaseUrl && this.lat == lat && this.lng == lng && this.encode == encode
      ensures searchQuery == "" && suggestions == JArr([]) && searchResults.None?
      ensures !isLoadingSuggestions && !isLoadingResults && error.None?
      ensures recentSearches == [] && activeTab == "DISH"
      ensures Valid()
    {
      this.apiBaseUrl := apiBaseUrl;
      this.lat := lat;
      this.lng := lng;
      this.encode := encode;
      searchQuery := "";
      suggestions := JArr([]);
      searchResults := None;
      isLoadingSuggestions := false;
      isLoadingResults := false;
      error := None;
      recentSearches := [];
      activeTab := "DISH";
    }

    /**
     * `setSearchQuery` followed by the effect keyed on `searchQuery`: a short
     * query clears the suggestions, a longer one schedules a suggestions
     * request (returned); an unchanged query does not re-run the effect.
     */
    method SetSearchQuery(query: string) returns (scheduled: Option<string>)
      requires Valid()
      modifies this
      ensures Valid()
      ensures query == old(searchQuery) ==> scheduled.None? && unchanged(this)
      ensures query != old(searchQuery) ==>
        && searchQuery == query
        && (SuggestionsGated(query) ==> scheduled.None? && suggestions == JArr([]))
        && (!SuggestionsGated(query) ==> scheduled == Some(query) && suggestions == old(suggestions))
      ensures searchResults == old(searchResults) && error == old(error)
      ensures isLoadingSuggestions == old(isLoadingSuggestions) && isLoadingResults == old(isLoadingResults)
      ensures recentSearches == old(recentSearches) && activeTab == old(activeTab)
    {
      scheduled := None;
      if query != searchQuery {
        searchQuery := query;
        if SuggestionsGated(query) {
          suggestions := JArr([]);
        } else {
          scheduled := Some(query);
        }
      }
    }

    /** The start of `fetchSuggestions` when its timer fires; returns the URL requested. */
    method FetchSuggestions(query: string) returns (url: string)
      requires Valid()
      modifies this
      ensures Valid()
      ensures url == SuggestionsUrl(apiBaseUrl, lat, lng, query, encode)
      ensures isLoadingSuggestions && error.None?
      ensures searchQuery == old(searchQuery) && suggestions == old(suggestions)
      ensures searchResults == old(searchResults) && isLoadingResults == old(isLoadingResults)
      ensures recentSearches == old(recentSearches) && activeTab == old(activeTab)
    {
      isLoadingSuggestions := true;
      error := None;
      url := SuggestionsUrl(apiBaseUrl, lat, lng, query, encode);
    }

    /** The end of `fetchSuggestions`, when its fetch outcome arrives. */
    method SettleSuggestions(outcome: FetchOutcome)
      requires Valid()
      modifies this
      ensures Valid()
      ensures !isLoadingSuggestions
      ensures ReadApi(outcome).Success? ==>
        suggestions == SuggestionsOf(ReadApi(outcome).value) && error == old(error)
      ensures ReadApi(outcome).Failure? ==>
        suggestions == JArr([]) && error == Some(SuggestionsFailed + ReadApi(outcome).error)
      ensures searchQuery == old(searchQuery) && searchResults == old(searchResults)
      ensures isLoadingResults == old(isLoadingResults)
      ensures recentSearches == old(recentSearches) && activeTab == old(activeTab)
    {
      var read := ReadApi(outcome);
      if read.Success? {
        suggestions := SuggestionsOf(read.value);
      } else {
        error := Some(SuggestionsFailed + read.error);
        suggestions := JArr([]);
      }
      isLoadingSuggestions := false;
    }

    /** The start of `performSearch`: clears the previous results and builds the URL step by step. */
    method PerformSearch(query: string, metadata: Json, queryUniqueId: Json, submitAction: string)
      returns (cycle: SearchCycle)
      requires Valid()
      modifies this
      ensures Valid()
      ensures cycle == SearchCycle(
        SearchRequestUrl(apiBaseUrl, lat, lng, query, metadata, queryUniqueId, submitAction, encode), query)
      ensures isLoadingResults && error.None? && searchResults.None?
      ensures searchQuery == old(searchQuery) && suggestions == old(suggestions)
      ensures isLoadingSuggestions == old(isLoadingSuggestions)
      ensures recentSearches == old(recentSearches) && activeTab == old(activeTab)
    {
      isLoadingResults := true;
      error := None;
      searchResults := None;
      var url := FixedSearchUrl(apiBaseUrl, lat, lng, query, submitAction, encode);
      if Truthy(Some(queryUniqueId)) {
        url := url + ("&queryUniqueId=" + JsString(queryUniqueId));
      }
      if Truthy(Some(metadata)) {
        url := url + ("&metaData=" + encode(JsString(metadata)));
      }
      cycle := SearchCycle(url, query);
    }

    /** The end of `performSearch`: a success stores the data and records the query. */
    method SettleSearch(cycle: SearchCycle, outcome: FetchOutcome)
      requires Valid()
      modifies this
      ensures Valid()
      ensures !isLoadingResults
      ensures ReadApi(outcome).Success? ==>
        && searchResults == Some(ReadApi(outcome).value) && error == old(error)
        && recentSearches == RecentAfter(old(recentSearches), cycle.query)
      ensures ReadApi(outcome).Failure? ==>
        && searchResults.None? && error == Some(ResultsFailed + ReadApi(outcome).error)
        && recentSearches == old(recentSearches)
      ensures searchQuery == old(searchQuery) && suggestions == old(suggestions)
      ensures isLoadingSuggestions == old(isLoadingSuggestions) && activeTab == old(activeTab)
    {
      var read := ReadApi(outcome);
      if read.Success? {
        searchResults := Some(read.value);
        isLoadingResults := false;
        RecentAfterNoDuplicates(recentSearches, cycle.query);
        recentSearches := RecentAfter(recentSearches, cycle.query);
      } else {
        error := Some(ResultsFailed + read.error);
        searchResults := None;
        isLoadingResults := false;
      }
    }

    /**
     * A click on a suggestion: its text becomes the query (which may
     * schedule a suggestions request of its own) and is searched for with
     * the suggestion's metadata and id.
     */
    method HandleSuggestionClick(s: Suggestion) returns (cycle: SearchCycle, scheduled: Option<string>)
      requires Valid()
      modifies this
      ensures Valid()
      ensures searchQuery == s.text && suggestions == JArr([])
      ensures scheduled == if s.text != old(searchQuery) && !SuggestionsGated(s.text) then Some(s.text) else None
      ensures cycle == SearchCycle(
        SearchRequestUrl(apiBaseUrl, lat, lng, s.text, Or(s.metadata, JStr("")), Or(s.queryUniqueId, JStr("")),
                         "SUGGESTION", encode), s.text)
      ensures isLoadingResults && error.None? && searchResults.None?
      ensures isLoadingSuggestions == old(isLoadingSuggestions)
      ensures recentSearches == old(recentSearches) && activeTab == old(activeTab)
    {
      var metadata := Or(s.metadata, JStr(""));
      var queryUniqueId := Or(s.queryUniqueId, JStr(""));
      scheduled := SetSearchQuery(s.text);
      suggestions := JArr([]);
      cycle := PerformSearch(s.text, metadata, queryUniqueId, "SUGGESTION");
    }

    /** `handleSearchSubmit`: a query that is only white space does nothing. */
    method HandleSearchSubmit() returns (cycle: Option<SearchCycle>)
      requires Valid()
      modifies this
      ensures Valid()
      ensures Trim(old(searchQuery)) == "" ==> cycle.None? && unchanged(this)
      ensures Trim(old(searchQuery)) != "" ==>
        && cycle == Some(SearchCycle(
             SearchRequestUrl(apiBaseUrl, lat, lng, searchQuery, JStr(""), JStr(""), "ENTER", encode), searchQuery))
        && suggestions == JArr([]) && isLoadingResults && error.None? && searchResults.None?
        && isLoadingSuggestions == old(isLoadingSuggestions)
      ensures searchQuery == old(searchQuery)
      ensures recentSearches == old(recentSearches) && activeTab == old(activeTab)
    {
      if |Trim(searchQuery)| > 0 {
        suggestions := JArr([]);
        var c := PerformSearch(searchQuery, JStr(""), JStr(""), "ENTER");
        cycle := Some(c);
      } else {
        cycle := None;
      }
    }

    /** `clearSearch`; the query effect then finds an empty query and schedules nothing. */
    method ClearSearch()
      requires Valid()
      modifies this
      ensures Valid()
      ensures searchQuery == "" && suggestions == JArr([]) && searchResults.None? && error.None?
      ensures isLoadingSuggestions == old(isLoadingSuggestions) && isLoadingResults == old(isLoadingResults)
      ensures recentSearches == old(recentSearches) && activeTab == old(activeTab)
    {
      searchQuery := "";
      suggestions := JArr([]);
      searchResults := None;
      error := None;
    }

    method ClearRecentSearches()
      requires Valid()
      modifies this
      ensures Valid()
      ensures recentSearches == []
      ensures searchQuery == old(searchQuery) && suggestions == old(suggestions)
      ensures searchResults == old(searchResults) && error == old(error)
      ensures isLoadingSuggestions == old(isLoadingSuggestions) && isLoadingResults == old(isLoadingResults)
      ensures activeTab == old(activeTab)
    {
      recentSearches := [];
    }

    /** The exposed `setActiveTab` setter. */
    method SetActiveTab(tab: string)
      requires Valid()
      modifies this
      ensures Valid()
      ensures activeTab == tab
      ensures searchQuery == old(searchQuery) && suggestions == old(suggestions)
      ensures searchResults == old(searchResults) && error == old(error)
      ensures isLoadingSuggestions == old(isLoadingSuggestions) && isLoadingResults == old(isLoadingResults)
      ensures recentSearches == old(recentSearches)
    {
      activeTab := tab;
    }
  }
}
