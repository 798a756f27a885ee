# SpoonSwift data layer, modelled in Dafny

SpoonSwift is a food-ordering front end. It reads Swiggy's catalogue (the
restaurant listing, restaurant menus and search results). Swiggy blocks
cross-origin calls, so the catalogue is reached through three serverless
functions (`restaurants`, `restaurant-menu`, `search-results`) and, for the
home listing, through two public CORS proxies. This project models:

- the **cart ledger**: the Redux cart slice, with its five reducers. Two
  folds read it: the price total of the order summary and the item count
  of the cart page.
- the **three serverless handlers**. Each takes the request event and the
  upstream fetch outcome and gives the HTTP response and the upstream URL it
  requested. The structural menu check is shared with the client hook.
- the **three client hooks**, as classes whose fields are the hook state:
  - `useRestaurantMenu`: attempts counter, retry guard, `@type` filter;
  - `useRestaurants`: the two-proxy fallback and the path extraction;
  - `useSearch`: suggestion gating, search URL assembly, the recent-search
    history.
  Every `await` splits an operation in two. One method runs up to the
  `await` and returns the request it makes. A second method takes the fetch
  outcome and applies the rest.
- the **search page**: the `{{`/`}}` highlight rewrite and the display
  conditions.

Parsed JSON is the datatype `JsValue.Json`. Property reads follow JavaScript:
- a plain `.x` or `[i]` on `null`/`undefined` throws a TypeError, with V8's
  message;
- `?.` short-circuits the rest of the chain;
- `||` picks its left operand by truthiness;
- `String(x)` and `trim()` are modelled as the language defines them.

A fetch outcome is `Fetch.FetchOutcome`: either a network error, or a status
with a body that either parsed or failed to parse.

## Model

| member | source | states |
|---|---|---|
| JsValue.NatToString | netlify/functions/restaurants.js:41 | a status is written as its decimal digits: they spell the number, with no leading zero except for 0 itself |
| JsValue.OptionalChainNeverThrows | netlify/functions/restaurant-menu.js:63-65 | a chain written entirely with `?.` never throws, and it yields exactly the value of the reference path lookup |
| JsValue.ThrowsOnlyAtPlainLink | src/utils/useRestaurants.jsx:66 | a property chain can throw only if it has a plain (non-optional) link |
| JsText.TrimStart | netlify/functions/search-results.js:24 | the result is the suffix left after a run of white space, and it does not start with white space |
| JsText.TrimEnd | netlify/functions/search-results.js:24 | the result is the prefix before a run of white space, and it does not end with white space |
| JsText.Trim | src/utils/useSearch.jsx:33 | `trim()` is the part of the input between a leading and a trailing run of white space, and it neither starts nor ends with white space |
| JsText.TrimEmptyIffAllSpace | netlify/functions/search-results.js:24 | a string trims to empty exactly when it is all white space |
| JsText.TrimIdempotent | src/utils/useSearch.jsx:156 | trimming twice is trimming once |
| JsText.Utf16Length | src/utils/useSearch.jsx:33 | a string's `length` lies between its character count and twice that, and equals the character count exactly when every character is in the Basic Multilingual Plane |
| RestaurantsFunction.Handler | netlify/functions/restaurants.js:11-72 | every response has the CORS headers and status 200 or 500. OPTIONS gives the preflight with no upstream call. Otherwise the URL is the listing URL with the coordinates. A 200 passes the parsed upstream body through, and only when it holds restaurants |
| RestaurantsFunction.DefaultCoordinates | netlify/functions/restaurants.js:21-26 | absent `lat`/`lng` request the listing at 23.1793, 75.7849 |
| RestaurantsFunction.NonOkStatus | netlify/functions/restaurants.js:40-42 | a status outside 200-299 gives 500 with {error: "Failed to fetch restaurants", message: "Swiggy API returned <status>"} |
| RestaurantsFunction.AcceptsIffRestaurants | netlify/functions/restaurants.js:47-61 | a parsed payload goes back unchanged with 200 when the restaurants path holds a non-empty array; otherwise the answer is 500 "No restaurant data found" |
| MenuEnvelope.Check | netlify/functions/restaurant-menu.js:54-69 | accepts exactly when `data.cards` is an array of at least 5 sections, `cards[2].card.card.info` is truthy and the REGULAR cards are an array. Failures give "Invalid or incomplete menu data" or "Missing menu information or categories" |
| MenuEnvelope.IncompleteReadsSections | netlify/functions/restaurant-menu.js:54-61 | the four-part first guard fails exactly when `data.data.cards` is not an array of at least five sections |
| RestaurantMenuFunction.Handler | netlify/functions/restaurant-menu.js:11-88 | CORS headers; status 200, 400 or 500. OPTIONS gives the preflight. A missing or empty `id` gives 400 "Restaurant ID is required" with no upstream call. Otherwise the menu URL for the id is requested. A 200 only passes a payload that passes `Check` |
| RestaurantMenuFunction.TooFewSections | netlify/functions/restaurant-menu.js:54-61 | fewer than five sections (or none) gives 500 "Invalid or incomplete menu data" |
| RestaurantMenuFunction.MissingInfoOrCategories | netlify/functions/restaurant-menu.js:63-69 | five sections but no info or no REGULAR cards array gives 500 "Missing menu information or categories" |
| RestaurantMenuFunction.NonOkStatus | netlify/functions/restaurant-menu.js:47-49 | a status outside 200-299 gives 500 naming the status |
| RestaurantMenuFunction.PassesMenuThrough | netlify/functions/restaurant-menu.js:73-77 | an accepted payload goes back unchanged, with its categories unfiltered |
| RestaurantMenuFunction.AnswerOf200 | netlify/functions/restaurant-menu.js:73-77 | every non-preflight 200 answer is exactly the upstream payload |
| SearchResultsFunction.BuildSearchUrl | netlify/functions/search-results.js:34-44 | the URL built by conditional appends equals the declarative search URL |
| SearchResultsFunction.OptionalParametersExtend | netlify/functions/search-results.js:38-44 | the optional parameters only extend the fixed URL, and they extend it exactly when `queryUniqueId` or `metaData` is non-empty |
| SearchResultsFunction.Handler | netlify/functions/search-results.js:9-84 | CORS headers; status 200, 400 or 500. OPTIONS gives the preflight. A `str` of white space only gives 400 "Search string is required" with no upstream call. Otherwise the search URL is requested. A 200 passes the payload through only when its `data` is truthy |
| SearchResultsFunction.Answer | netlify/functions/search-results.js:46-84 | after the blank check, the answer is 200 exactly when the upstream status is 200-299, the body parses and its `data` is truthy, and the 200 answer carries that body. Every other answer is the whole 500 `{error: "Failed to fetch search results", message}`, where message is the network or parse message, "Swiggy API returned <status>", or "Invalid search results data" |
| SearchResultsFunction.DefaultParameters | netlify/functions/search-results.js:14-22 | with no query parameters the defaults are 23.1793, 75.7849, "", "undefined", "", "", "ENTER" |
| SearchResultsFunction.UpstreamFailure | netlify/functions/search-results.js:57-84 | a bad status gives the whole 500 response with message "Swiggy API returned <status>". A payload without truthy `data` gives it with "Invalid search results data". Both carry error "Failed to fetch search results" |
| SearchResultsFunction.PassesResultsThrough | netlify/functions/search-results.js:69-73 | a payload with truthy `data` goes back unchanged with 200 |
| CartSlice.IndexOf | src/utils/cartSlice.jsx:11-13 | `find` gives the first line with the id, or reports that no line has it |
| CartSlice.Without | src/utils/cartSlice.jsx:23-27 | the filter keeps exactly the lines whose id differs |
| CartSlice.WithoutAbsent | src/utils/cartSlice.jsx:23-27 | removing an id no line carries leaves the list unchanged |
| CartSlice.WithoutConcat | src/utils/cartSlice.jsx:24-26 | the filter works piecewise over concatenation, so the kept lines stay in their original order |
| CartSlice.WithoutKeepsUnique | src/utils/cartSlice.jsx:23-27 | removing lines keeps the ids unique |
| CartSlice.WithoutUniqueRemovesOne | src/utils/cartSlice.jsx:23-27 | in a cart with unique ids, removal deletes exactly the matching line and keeps the rest in order |
| CartSlice.AddNewAppends | src/utils/cartSlice.jsx:18-21 | adding a new id appends one line with quantity 1, whatever quantity the payload had |
| CartSlice.AddExistingIncrements | src/utils/cartSlice.jsx:11-17 | adding a present id adds 1 to that line; the length and all other lines stay the same |
| CartSlice.IncreaseExistingIncrements | src/utils/cartSlice.jsx:28-35 | `increaseQuantity` adds 1 to the matching line only |
| CartSlice.IncreaseAbsentNoOp | src/utils/cartSlice.jsx:28-35 | `increaseQuantity` of an absent id is a no-op |
| CartSlice.DecreaseAboveOneDecrements | src/utils/cartSlice.jsx:36-41 | `decreaseQuantity` on a quantity above 1 subtracts 1 from that line only |
| CartSlice.DecreaseAbsentNoOp | src/utils/cartSlice.jsx:36-48 | `decreaseQuantity` of an absent id leaves the cart unchanged |
| CartSlice.DecreaseLastRemoves | src/utils/cartSlice.jsx:40-47 | `decreaseQuantity` on quantity 1 deletes that line and keeps the others in order |
| CartSlice.AddedWellFormed | src/utils/cartSlice.jsx:9-22 | `addItems` keeps ids unique and quantities at least 1 |
| CartSlice.IncreasedWellFormed | src/utils/cartSlice.jsx:28-35 | `increaseQuantity` keeps the cart invariant |
| CartSlice.DecreasedWellFormed | src/utils/cartSlice.jsx:36-48 | `decreaseQuantity` keeps the cart invariant |
| CartSlice.WithoutWellFormed | src/utils/cartSlice.jsx:23-27 | `removeItem` keeps the cart invariant |
| CartSlice.Cart.constructor | src/utils/cartSlice.jsx:5-7 | the initial state is an empty list, which satisfies the invariant |
| CartSlice.Cart.AddItems | src/utils/cartSlice.jsx:9-22 | the list becomes the `addItems` result, and the invariant is preserved |
| CartSlice.Cart.RemoveItem | src/utils/cartSlice.jsx:23-27 | the list becomes the filtered list, and the invariant is preserved |
| CartSlice.Cart.IncreaseQuantity | src/utils/cartSlice.jsx:28-35 | the list becomes the `increaseQuantity` result, and the invariant is preserved |
| CartSlice.Cart.DecreaseQuantity | src/utils/cartSlice.jsx:36-48 | the list becomes the `decreaseQuantity` result, and the invariant is preserved |
| CartSlice.Cart.ClearCart | src/utils/cartSlice.jsx:49-51 | any cart becomes empty |
| CartView.TotalPriceAppend | src/components/CartTotal.jsx:3-6 | the price total is additive over concatenation, and the empty cart totals 0 |
| CartView.TotalPricePermutation | src/components/CartTotal.jsx:3-6 | reordering the lines does not change the total |
| CartView.TotalPriceIgnoresQuantities | src/components/CartTotal.jsx:3-6 | lines with the same items but any quantities have the same total |
| CartView.PriceWinsOverDefault | src/components/CartTotal.jsx:4 | a non-zero `price` is the unit price whatever `defaultPrice` is |
| CartView.TotalItemsAppend | src/components/Cart.jsx:15-18 | the item count is additive over concatenation |
| CartView.TotalItemsBounds | src/components/Cart.jsx:15-18 | in a well-formed cart the count is at least the number of lines, and it is 0 exactly when the empty-cart message shows |
| CartView.ClearedCartView | src/components/Cart.jsx:11-13 | after clearing, the count is 0, the empty message shows and no Clear Cart button is offered |
| CartView.TotalItemsAfterAdd | src/components/Cart.jsx:15-18 | `addItems` raises the count by exactly 1 |
| CartView.TotalItemsAfterIncrease | src/components/Cart.jsx:16 | `increaseQuantity` raises the count by 1 when the id is present, else by 0 |
| CartView.TotalItemsAfterDecrease | src/components/Cart.jsx:17 | in a well-formed cart `decreaseQuantity` lowers the count by 1 when the id is present, else by 0 |
| CartView.TotalPriceIgnoresSecondUnit | src/components/CartTotal.jsx:3-5 | as written, a pizza at 10000 paise with quantity 2 totals 10000, where price times quantity gives 20000 |
| CartView.OrderTotalOfSingleUnits | src/components/CartTotal.jsx:5 | the corrected total agrees with the written one on carts whose quantities are all 1 |
| CartView.OrderTotalAppend | src/components/CartTotal.jsx:3-6 | the corrected total is additive over concatenation |
| CartView.OrderTotalBump | src/utils/cartSlice.jsx:17 | with the corrected total, one more unit of a line costs exactly one more unit price |
| CartView.OrderTotalAfterAdd | src/utils/cartSlice.jsx:9-22 | with the corrected total, `addItems` raises the total by the unit price of the item it adds |
| ClientFetch.CheckErrorField | src/utils/useRestaurantMenu.jsx:54-56 | the body is kept exactly when it is not null and its `error` is falsy. A truthy `error` fails with `message` when that is truthy, else with "API returned an error". A null body fails with the TypeError of reading `error` |
| ClientFetch.ReadApi | src/utils/useRestaurantMenu.jsx:45-56 | a bad status throws "API error! status: <status>". A network error or an unparsable body throws its own message. An ok, parsed body is then judged by its `error` field. Success means status 200-299 and the body parsed |
| RestaurantMenuHook.TypeTagThrowsIffNoInnerCard | src/utils/useRestaurantMenu.jsx:78 | reading `cat.card.card["@type"]` throws exactly when `card.card` is missing or null |
| RestaurantMenuHook.FilterCategories | src/utils/useRestaurantMenu.jsx:76-80 | succeeds exactly when every entry's tag can be read. Then the result is exactly the item categories, drawn from the input. Otherwise it fails with the first unreadable entry's error |
| RestaurantMenuHook.FilterCategoriesConcat | src/utils/useRestaurantMenu.jsx:76-80 | the filter works piecewise over concatenation, so the original order is kept |
| RestaurantMenuHook.FilterCategoriesSingle | src/utils/useRestaurantMenu.jsx:77-79 | a readable entry is kept exactly when its tag is the ItemCategory tag |
| RestaurantMenuHook.LoadMenu | src/utils/useRestaurantMenu.jsx:45-84 | a loaded menu comes from an ok, parsed payload that passes the shared menu check. Its info is the checked info. Its items are the filtered REGULAR cards. A failed load carries the first failing stage's message: the response read (status, network, parse, `data.message` or "API returned an error"), then the menu check, then the `@type` read |
| RestaurantMenuHook.FunctionFailureSeenAsStatus | src/utils/useRestaurantMenu.jsx:45-49 | any non-200 answer of the menu function reaches the hook as "API error! status: <status>" |
| RestaurantMenuHook.NonOkResponseSeenAsStatus | src/utils/useRestaurantMenu.jsx:45-49 | a 400 or 500 answer fails the load with "API error! status: <status>" whatever its body |
| RestaurantMenuHook.AcceptedPayloadLoads | src/utils/useRestaurantMenu.jsx:54-80 | a payload that passes the function's check loads exactly when its `error` is falsy and every REGULAR entry has `card.card` |
| RestaurantMenuHook.FunctionSuccessSeenAsMenu | src/utils/useRestaurantMenu.jsx:51-84 | the same holds end to end for the menu function's 200 answers |
| RestaurantMenuHook.RequestReachesSwiggy | src/utils/useRestaurantMenu.jsx:33 | the function answers a hook request without calling Swiggy only for an empty id. A missing id is sent as "undefined", which the function forwards as a restaurant id, so `refetch` or `retry` without an id does reach Swiggy |
| RestaurantMenuHook.MenuState.constructor | src/utils/useRestaurantMenu.jsx:4-8 | the state starts loading, with an empty menu, no items, no error and 0 attempts |
| RestaurantMenuHook.MenuState.Mount | src/utils/useRestaurantMenu.jsx:23-25 | the mount effect starts a load only for a present, non-empty id, and otherwise changes nothing |
| RestaurantMenuHook.MenuState.GetRestaurantInfo | src/utils/useRestaurantMenu.jsx:27-33 | a load sets loading, clears the error and adds exactly 1 to `attempts`. It requests `<base>/restaurant-menu?id=<id>`, with "undefined" for a missing id, and remembers the attempts value from before the increment |
| RestaurantMenuHook.MenuState.Retry | src/utils/useRestaurantMenu.jsx:98-100 | retry changes nothing while a load is marked in progress, and otherwise starts one |
| RestaurantMenuHook.MenuState.Settle | src/utils/useRestaurantMenu.jsx:82-95 | every completion stops loading. A success stores the info and the filtered items. A failure stores `{}` and `[]` and the message "Failed to load restaurant menu (Attempt n): ..." with the remembered count |
| RestaurantsHook.IndexedChainThrows | src/utils/useRestaurants.jsx:66-70 | a chain `?.data?.cards[n]?...` throws exactly when `data` is present and `cards` is missing or null |
| RestaurantsHook.OptionalTailNeverThrows | src/utils/useRestaurants.jsx:66-70 | the `?.` tail after `cards[n]` never throws |
| RestaurantsHook.ExtractFailsIffCardsMissing | src/utils/useRestaurants.jsx:66-70 | the three reads fail exactly on a payload with `data` but no `cards` |
| RestaurantsHook.ExtractedValuesAreTruthyOrDefault | src/utils/useRestaurants.jsx:66-72 | every stored value is truthy or its default `[]`/`""` |
| RestaurantsHook.EmptyCardsGiveEmptyListing | src/utils/useRestaurants.jsx:66-72 | an empty `cards` array is a success with an empty listing, an empty header and no restaurants |
| RestaurantsHook.LoadListing | src/utils/useRestaurants.jsx:28-72 | the first proxy's JSON when there is one, otherwise the fallback's JSON or its error, then the reads |
| RestaurantsHook.SecondProxyUnusedAfterFirst | src/utils/useRestaurants.jsx:28-44 | when the first proxy delivers JSON, the fallback's answer does not matter |
| RestaurantsHook.RequestedProxiesDecideLoad | src/utils/useRestaurants.jsx:28-63 | with one URL fetched, the second proxy's answer does not matter. With two, the first proxy's failure is swallowed: any failed first attempt gives the same result |
| RestaurantsHook.LoadFailsIff | src/utils/useRestaurants.jsx:28-76 | a load fails exactly when no proxy delivers JSON, or when the JSON used has `data` without `cards`. A shape failure of the first proxy's JSON does not fall back |
| RestaurantsHook.ListingState.constructor | src/utils/useRestaurants.jsx:4-10 | empty lists, an empty header and query, loading, no error |
| RestaurantsHook.ListingState.GetRestaurant | src/utils/useRestaurants.jsx:16-17 | a load sets loading and leaves everything else, including a previous error |
| RestaurantsHook.ListingState.Settle | src/utils/useRestaurants.jsx:18-79 | it returns the URLs fetched and always stops loading. A success stores the listing, with the same list in `restaurants` and `originalRestaurants`, and clears the error. A failure keeps the old lists and sets "Failed to load restaurants. Please try again later." |
| RestaurantsHook.ListingState.SetSearchText | src/utils/useRestaurants.jsx:90 | the setter changes the search text only |
| RestaurantsHook.ListingState.SetRestaurants | src/utils/useRestaurants.jsx:91 | the setter changes the shown list only; the unfiltered copy stays |
| SearchHook.Others | src/utils/useSearch.jsx:137 | the filter drops exactly the query and never grows the list |
| SearchHook.RecentAfter | src/utils/useSearch.jsx:135-139 | the new list has 1 to 5 entries. The query is first and appears nowhere else. Every other entry came from the old list |
| SearchHook.OthersNoDuplicates | src/utils/useSearch.jsx:137 | filtering a duplicate-free list keeps it duplicate-free, and removes exactly one entry when the query was there |
| SearchHook.OthersConcat | src/utils/useSearch.jsx:137 | the filter works piecewise over concatenation, so earlier queries keep their relative order |
| SearchHook.RecentAfterTail | src/utils/useSearch.jsx:137-138 | behind the head come the earlier queries other than it, in order, cut to four |
| SearchHook.RecentAfterNoDuplicates | src/utils/useSearch.jsx:135-140 | a duplicate-free history stays duplicate-free |
| SearchHook.RecentAfterLength | src/utils/useSearch.jsx:137-138 | re-searching a listed query keeps the length; a new query grows the list up to five |
| SearchHook.RecentAfterKeepsOrder | src/utils/useSearch.jsx:138 | a new query in a history shorter than five is simply put in front |
| SearchHook.SuggestionsGatedIff | src/utils/useSearch.jsx:32-43 | no suggestions are asked for exactly when the query trims to nothing or to one character of the Basic Multilingual Plane |
| SearchHook.AstralCharacterNotGated | src/utils/useSearch.jsx:33 | a query of one character outside the Basic Multilingual Plane (an emoji) is two UTF-16 units long, so it does ask for suggestions |
| SearchHook.SearchRequestUrlExtends | src/utils/useSearch.jsx:96-106 | the optional parameters only extend the fixed URL. A plain submit sends the fixed URL alone. A truthy id or metadata makes it strictly longer |
| SearchHook.SearchState.constructor | src/utils/useSearch.jsx:5-12 | empty query, suggestions and history, no results, not loading, no error, tab "DISH" |
| SearchHook.SearchState.SetSearchQuery | src/utils/useSearch.jsx:32-43 | a changed query whose trimmed `length` (in UTF-16 units) is below 2 clears the suggestions and schedules nothing. A longer one schedules a suggestions request. An unchanged query changes nothing |
| SearchHook.SearchState.FetchSuggestions | src/utils/useSearch.jsx:45-54 | a suggestions request sets loading, clears the error and asks for `<base>/search-suggestions?lat=..&lng=..&str=<encoded query>` |
| SearchHook.SearchState.SettleSuggestions | src/utils/useSearch.jsx:56-79 | it stops loading. A success stores the suggestions. A failure clears them and sets "Failed to load suggestions: ..." |
| SearchHook.SearchState.PerformSearch | src/utils/useSearch.jsx:82-106 | a search clears the results and the error and sets loading. The URL built by conditional appends equals the declarative search URL |
| SearchHook.SearchState.SettleSearch | src/utils/useSearch.jsx:108-132 | it stops loading. A success stores the data and records the query in the history. A failure leaves no results, keeps the history and sets "Failed to load search results: ..." |
| SearchHook.SearchState.HandleSuggestionClick | src/utils/useSearch.jsx:146-153 | the suggestion text becomes the query and the suggestions are cleared. The search carries the metadata and id (or `""`) with "SUGGESTION". The query change can schedule its own suggestions request |
| SearchHook.SearchState.HandleSearchSubmit | src/utils/useSearch.jsx:155-160 | a query of white space only changes nothing. Any other query clears the suggestions and searches with no metadata and "ENTER" |
| SearchHook.SearchState.ClearSearch | src/utils/useSearch.jsx:162-167 | empties the query, suggestions, results and error, and keeps the history |
| SearchHook.SearchState.ClearRecentSearches | src/utils/useSearch.jsx:142-144 | empties the history and nothing else |
| SearchHook.SearchState.SetActiveTab | src/utils/useSearch.jsx:12 | the setter changes the tab only |
| SearchView.ReplacePairFirst | src/components/Search.jsx:133-137 | the rewrite starts with the input's first character, or with the replacement when a run opens the input |
| SearchView.ReplacePairLength | src/components/Search.jsx:133-137 | a replacement at least two characters long never shortens the text |
| SearchView.ReplacePairGrowsIffPair | src/components/Search.jsx:133-137 | with a longer replacement, the text keeps its length exactly when it has no run, and is then unchanged |
| SearchView.ReplacePairRemovesPairs | src/components/Search.jsx:133-136 | a replacement without the marker character leaves no run of it |
| SearchView.ReplacePairKeepsOtherPairsOut | src/components/Search.jsx:137 | replacing `}}` cannot create a `{{` |
| SearchView.ReplacePairSkipsPlainPrefix | src/components/Search.jsx:133-137 | text without the marker character passes through the global replace unchanged, ahead of whatever the rest becomes |
| SearchView.ReplacePairLeadingRun | src/components/Search.jsx:133-137 | a run of two marker characters at the front becomes the replacement |
| SearchView.ReplacePairPlain | src/components/Search.jsx:133-137 | text without the marker character is left as it is |
| SearchView.Highlight | src/components/Search.jsx:131-137 | absent text gives no markup. The rewritten text has no `{{` and no `}}`. It equals the input exactly when the input had neither |
| SearchView.HighlightWraps | src/components/Search.jsx:131-137 | in brace-free text, `before{{part}}after` becomes `before` + the opening orange span + `part` + `</span>` + `after` |
| SearchView.DisabledIffAllSpace | src/components/Search.jsx:67 | the Search button is disabled exactly for a query of white space only |
| SearchView.NoClearButtonMeansDisabled | src/components/Search.jsx:54-67 | with no clear button the Search button is disabled. Both show together only for a non-empty all-space query |
| SearchView.BadgeColourMatchesLabel | src/components/Search.jsx:143-151 | the badge colour and its label are chosen by the same test, so two suggestions share a colour exactly when they share a label. Only the exact type "DISH" is shown as a dish |
| SearchView.DropdownWithoutSuggestions | src/components/Search.jsx:27-78 | with no suggestions, the dropdown opens exactly when the input is focused and there are recent searches. Once open, it lists them only above an empty query, so for any other query it opens with nothing in it. An unfocused input never opens it |
| SearchView.ContentAfterFailedSearch | src/components/Search.jsx:180-189 | with no results, the page shows the shimmer while loading and the empty state after |

## Behaviour worth knowing

- No request has a timeout or a cancellation signal.
- A late answer to a superseded request is not discarded. Each `Settle` method applies whatever outcome it is given.
- `useRestaurants` has exactly two proxies. Only a transport failure, a bad status or an unparsable body leads to the second one. JSON of the wrong shape from the first proxy does not.
- `refetch` of the menu hook is not guarded: it starts a load even while one is in progress. Only `retry` is guarded.
- `useRestaurants` has no attempts counter, and its error does not list the attempts.
- The menu hook's failure message gives the attempts value read before the increment. A first failure says "Attempt 0".

## Left out

- Network I/O: fetch, `response.json()`, `response.text()` and the serverless runtime are not modelled. Their outcomes are inputs. `Netlify.Delivered` treats `JSON.stringify` followed by `JSON.parse` as the identity on the modelled values.
- JSON numbers are integers. Floating point is not modelled, including coordinates and the `/ 100` rupee display in `CartTotal.jsx`. Geolocation coordinates in `SearchHook` are the text `String(x)` of a truthy number, or `None` for a falsy one.
- `encodeURIComponent` is the parameter `encode`, an uninterpreted function. The base URL from `getApiUrl` (which depends on the page host name) is a constructor argument.
- Console logging, request headers and the `User-Agent`/`Referer` values are left out: they change no state.
- Timing: the 300 ms debounce and the 200 ms blur delay are left out. `SetSearchQuery` returns the query whose suggestions request is scheduled. Cancelling a pending timer is the caller's business.
- Rendering: JSX layout, animations, HTML interpretation of the highlighted text, `CategoryItems.jsx`, `RestaurantCategories.jsx` and `useGeoLocation.jsx` are not modelled.
- Runtime errors the hooks do not catch are left out:
  - `suggestions.map` on a non-array;
  - `.replace` on a `highlightedText` that is not a string (`Highlight` takes an optional string);
  - a suggestion without a string `text` (`Suggestion.text` is a string).
- `JsValue.Member` indexes a string by character, not by UTF-16 code unit. No path the hooks read indexes into a string.
- `SearchView.NonEmpty` covers `.length > 0` only for arrays and strings. Other values are treated as having no `length`, so an object with a `length` key counts as empty.
- A `NaN` price, when both `price` and `defaultPrice` are absent, is excluded by the precondition `AllPriced`.
- The menu hook's `id` is fixed for the life of a `MenuState`. The effect re-running on a changed `id` is not modelled.
- `RestaurantMenuHook.RequestEvent` reads the hook's `?id=` query back as the text written. The id is not URI-encoded, so an id holding `&`, `#` or `%` would be split or decoded by the runtime; that is not modelled.
- Every handler the page calls is assumed to come from the latest render. That render's `attempts` and `isLoading` are the values the class holds.
- Hook setters not exported by the hooks are not modelled.

## Findings

| source | as written | input that shows it | evidently intended | confidence | as-written member | corrected member |
|---|---|---|---|---|---|---|
| src/components/CartTotal.jsx:3-6 | the order total adds each line's unit price once and never reads `quantity` | one line: a pizza at 10000 paise with quantity 2 totals 10000 | the total is unit price times quantity, summed over the lines: 20000 for that cart | not executed | CartView.TotalPriceIgnoresSecondUnit | CartView.OrderTotalAfterAdd |
