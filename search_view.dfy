/**
 * What the search page derives from the hook's state: when the dropdown,
 * the recent-searches block and the clear button show, when the Search
 * button is disabled, and the HTML built from a suggestion's
 * `highlightedText`, whose `{{`/`}}` markers become an orange span.
 */
module SearchView {
  import opened Wrappers
  import opened JsValue
  import opened JsText

  const Open := "<span class=\"text-orange-500 font-bold\">"
  const Close := "</span>"

  /** `s` contains the two-character run `cc`. */
  predicate HasPair(s: seq<char>, c: char) {
    exists i :: 0 <= i < |s| - 1 && s[i] == c && s[i + 1] == c
  }

  /** `s.replace(/cc/g, rep)`: runs `cc` are replaced left to right, without overlap. */
  function ReplacePair(s: seq<char>, c: char, rep: seq<char>): seq<char>
    decreases |s|
  {
    if |s| < 2 then s
    else if s[0] == c && s[1] == c then rep + ReplacePair(s[2..], c, rep)
    else [s[0]] + ReplacePair(s[1..], c, rep)
  }

  /** A string starting with a run `cc` has one; otherwise its runs are those of its tail. */
  lemma HasPairTail(s: seq<char>, c: char)
    requires |s| >= 2 && !(s[0] == c && s[1] == c)
    ensures HasPair(s, c) <==> HasPair(s[1..], c)
  {
    if HasPair(s, c) {
      var i :| 0 <= i < |s| - 1 && s[i] == c && s[i + 1] == c;
      assert i > 0;
      assert s[1..][i - 1] == c && s[1..][i] == c;
    }
    if HasPair(s[1..], c) {
      var i :| 0 <= i < |s[1..]| - 1 && s[1..][i] == c && s[1..][i + 1] == c;
      assert s[i + 1] == c && s[i + 2] == c;
    }
  }

  /** The output starts with the input's first character, or with the replacement when a run opens it. */
  lemma {:induction false} ReplacePairFirst(s: seq<char>, c: char, rep: seq<char>)
    requires |s| > 0 && |rep| > 0
    ensures |ReplacePair(s, c, rep)| > 0
    ensures ReplacePair(s, c, rep)[0] == if |s| >= 2 && s[0] == c && s[1] == c then rep[0] else s[0]
  {
  }

  /** Replacing never shortens when the replacement is at least as long as a run. */
  lemma {:induction false} ReplacePairLength(s: seq<char>, c: char, rep: seq<char>)
    requires |rep| >= 2
    ensures |ReplacePair(s, c, rep)| >= |s|
    decreases |s|
  {
    if |s| >= 2 {
      if s[0] == c && s[1] == c {
        ReplacePairLength(s[2..], c, rep);
      } else {
        ReplacePairLength(s[1..], c, rep);
      }
    }
  }

  /** With a replacement longer than a run, the output has the input's length exactly when nothing was replaced. */
  lemma {:induction false} ReplacePairGrowsIffPair(s: seq<char>, c: char, rep: seq<char>)
    requires |rep| > 2
    ensures |ReplacePair(s, c, rep)| == |s| <==> !HasPair(s, c)
    ensures !HasPair(s, c) ==> ReplacePair(s, c, rep) == s
    decreases |s|
  {
    if |s| < 2 {
    } else if s[0] == c && s[1] == c {
      ReplacePairLength(s[2..], c, rep);
      assert HasPair(s, c) by { assert s[0] == c && s[1] == c; }
    } else {
      HasPairTail(s, c);
      ReplacePairGrowsIffPair(s[1..], c, rep);
      if !HasPair(s, c) {
        assert [s[0]] + s[1..] == s;
      }
    }
  }

  /** When the replacement has no `c`, no run `cc` survives. */
  lemma {:induction false} ReplacePairRemovesPairs(s: seq<char>, c: char, rep: seq<char>)
    requires |rep| > 0 && c !in rep
    ensures !HasPair(ReplacePair(s, c, rep), c)
    decreases |s|
  {
    if |s| < 2 {
    } else if s[0] == c && s[1] == c {
      var rest := ReplacePair(s[2..], c, rep);
      ReplacePairRemovesPairs(s[2..], c, rep);
      NoPairAcross(rep, rest, c);
    } else {
      var rest := ReplacePair(s[1..], c, rep);
      ReplacePairRemovesPairs(s[1..], c, rep);
      ReplacePairFirst(s[1..], c, rep);
      assert rest[0] != c || s[0] != c;
      NoPairAcross([s[0]], rest, c);
    }
  }

  /** A run `dd` in `a + b` lies in `a`, in `b`, or across the seam. */
  lemma NoPairAcross(a: seq<char>, b: seq<char>, d: char)
    requires !HasPair(a, d) && !HasPair(b, d)
    requires |a| > 0 && |b| > 0 ==> a[|a| - 1] != d || b[0] != d
    ensures !HasPair(a + b, d)
  {
    var s := a + b;
    forall i | 0 <= i < |s| - 1 ensures !(s[i] == d && s[i + 1] == d) {
      if i + 1 < |a| {
        assert s[i] == a[i] && s[i + 1] == a[i + 1];
      } else if i >= |a| {
        assert s[i] == b[i - |a|] && s[i + 1] == b[i - |a| + 1];
      } else {
        assert s[i] == a[|a| - 1] && s[i + 1] == b[0];
      }
    }
  }

  /** Replacing runs of `c` by text without `d` creates no run of another character `d`. */
  lemma {:induction false} ReplacePairKeepsOtherPairsOut(s: seq<char>, c: char, d: char, rep: seq<char>)
    requires c != d && |rep| > 0 && d !in rep && !HasPair(s, d)
    ensures !HasPair(ReplacePair(s, c, rep), d)
    decreases |s|
  {
    if |s| < 2 {
    } else if s[0] == c && s[1] == c {
      var rest := s[2..];
      assert !HasPair(rest, d) by {
        forall i | 0 <= i < |rest| - 1 ensures !(rest[i] == d && rest[i + 1] == d) {
          assert rest[i] == s[i + 2] && rest[i + 1] == s[i + 3];
        }
      }
      ReplacePairKeepsOtherPairsOut(s[2..], c, d, rep);
      NoPairAcross(rep, ReplacePair(s[2..], c, rep), d);
    } else {
      HasPairTail(s, d);
      ReplacePairKeepsOtherPairsOut(s[1..], c, d, rep);
      ReplacePairFirst(s[1..], c, rep);
      NoPairAcross([s[0]], ReplacePair(s[1..], c, rep), d);
    }
  }

  /** `suggestion.highlightedText?.replace(/{{/g, ...).replace(/}}/g, "</span>")`. */
  function Highlight(text: Option<string>): (r: Option<string>)
    ensures r.Some? <==> text.Some?
    ensures r.Some? ==> !HasPair(r.value, '{') && !HasPair(r.value, '}')
    ensures r.Some? ==> (r.value == text.value <==> !HasPair(text.value, '{') && !HasPair(text.value, '}'))
  {
    match text
    case None => None
    case Some(s) =>
      var marked := ReplacePair(s, '{', Open);
      var closed := ReplacePair(marked, '}', Close);
      ReplacePairRemovesPairs(s, '{', Open);
      ReplacePairKeepsOtherPairsOut(marked, '}', '{', Close);
      ReplacePairRemovesPairs(marked, '}', Close);
      ReplacePairGrowsIffPair(s, '{', Open);
      ReplacePairLength(marked, '}', Close);
      ReplacePairGrowsIffPair(marked, '}', Close);
      Some(closed)
  }

  /** A prefix without the marker character is copied unchanged. */
  lemma {:induction false} ReplacePairSkipsPlainPrefix(a: seq<char>, b: seq<char>, c: char, rep: seq<char>)
    requires c !in a
    ensures ReplacePair(a + b, c, rep) == a + ReplacePair(b, c, rep)
    decreases |a|
  {
    if a != [] {
      var s := a + b;
      assert s[0] == a[0] && a[0] != c;
      if |s| < 2 {
        assert b == [] && s == a;
      } else {
        assert s[1..] == a[1..] + b;
        ReplacePairSkipsPlainPrefix(a[1..], b, c, rep);
        assert [a[0]] + (a[1..] + ReplacePair(b, c, rep)) == a + ReplacePair(b, c, rep);
      }
    } else {
      assert a + b == b;
    }
  }

  /** A leading run `cc` becomes the replacement. */
  lemma ReplacePairLeadingRun(b: seq<char>, c: char, rep: seq<char>)
    ensures ReplacePair([c, c] + b, c, rep) == rep + ReplacePair(b, c, rep)
  {
    assert ([c, c] + b)[2..] == b;
  }

  /** Text without the marker character is left as it is. */
  lemma ReplacePairPlain(s: seq<char>, c: char, rep: seq<char>)
    requires c !in s
    ensures ReplacePair(s, c, rep) == s
  {
    ReplacePairSkipsPlainPrefix(s, [], c, rep);
    assert s + [] == s;
  }

  /**
   * In brace-free text around one highlighted part, `{{` becomes the opening
   * orange span and `}}` becomes `</span>`.
   */
  lemma HighlightWraps(before: string, part: string, after: string)
    requires '{' !in before && '}' !in before
    requires '{' !in part && '}' !in part
    requires '{' !in after && '}' !in after
    ensures Highlight(Some(before + "{{" + part + "}}" + after)) == Some(before + Open + part + Close + after)
  {
    var s := before + "{{" + part + "}}" + after;
    var t := part + "}}" + after;
    assert '{' !in t && "{{" == ['{', '{'];
    assert s == before + (['{', '{'] + t);
    ReplacePairSkipsPlainPrefix(before, ['{', '{'] + t, '{', Open);
    ReplacePairLeadingRun(t, '{', Open);
    ReplacePairPlain(t, '{', Open);
    var marked := ReplacePair(s, '{', Open);
    assert marked == before + (Open + t);
    assert '}' !in Open && "}}" == ['}', '}'];
    assert marked == (before + Open + part) + (['}', '}'] + after);
    ReplacePairSkipsPlainPrefix(before + Open + part, ['}', '}'] + after, '}', Close);
    ReplacePairLeadingRun(after, '}', Close);
    ReplacePairPlain(after, '}', Close);
    assert ReplacePair(marked, '}', Close) == (before + Open + part) + (Close + after);
    assert (before + Open + part) + (Close + after) == before + Open + part + Close + after;
    assert Highlight(Some(s)) == Some(ReplacePair(marked, '}', Close));
  }

  /** `x.length > 0` for the values the hook can hold; other values have no `length`. */
  predicate NonEmpty(v: Json) {
    (v.JArr? && |v.elems| > 0) || (v.JStr? && |v.s| > 0)
  }

  /** The dropdown opens while the input has focus and there is something to list. */
  predicate ShowSuggestions(focused: bool, suggestions: Json, recent: seq<string>) {
    focused && (NonEmpty(suggestions) || |recent| > 0)
  }

  /** The recent-searches block shows only above an empty query. */
  predicate ShowRecentSection(recent: seq<string>, query: string) {
    |recent| > 0 && query == ""
  }

  /** The clear button shows for any non-empty query, white space included. */
  predicate ShowClearButton(query: string) {
    query != ""
  }

  /** `disabled={!searchQuery.trim()}`. */
  predicate SearchDisabled(query: string) {
    Trim(query) == ""
  }

  /**
   * The Search button is disabled exactly for a query of white space only,
   * the queries on which `handleSearchSubmit` does nothing.
   */
  lemma DisabledIffAllSpace(query: string)
    ensures SearchDisabled(query) <==> AllSpace(query)
  {
    TrimEmptyIffAllSpace(query);
  }

  /** A query the clear button cannot see is a query the Search button refuses. */
  lemma NoClearButtonMeansDisabled(query: string)
    ensures !ShowClearButton(query) ==> SearchDisabled(query)
    ensures ShowClearButton(query) && SearchDisabled(query) ==> AllSpace(query) && query != ""
  {
    TrimEmptyIffAllSpace(query);
  }

  /**
   * With the suggestions cleared (a cleared or too short query), the focused
   * dropdown opens exactly when there are recent searches, but it lists them
   * only above an empty query: for any other query it opens with nothing in
   * it. An unfocused input never shows it.
   */
  lemma DropdownWithoutSuggestions(focused: bool, recent: seq<string>, query: string, suggestions: Json)
    ensures ShowSuggestions(focused, JArr([]), recent) <==> focused && |recent| > 0
    ensures ShowSuggestions(focused, JArr([]), recent) ==>
              (ShowRecentSection(recent, query) <==> query == "")
    ensures !ShowSuggestions(false, suggestions, recent)
    ensures focused && ShowRecentSection(recent, query) ==> ShowSuggestions(focused, suggestions, recent)
  {
  }

  /** The badge under a suggestion. */
  function TypeLabel(kind: Option<Json>): (badge: string)
    ensures badge == "Dish" <==> kind == Some(JStr("DISH"))
    ensures badge != "Dish" ==> badge == "Restaurant"
  {
    if kind == Some(JStr("DISH")) then "Dish" else "Restaurant"
  }

  /** The colour classes of that badge. */
  function BadgeColour(kind: Option<Json>): string {
    if kind == Some(JStr("DISH")) then "bg-green-100 text-green-700" else "bg-blue-100 text-blue-700"
  }

  /**
   * The badge's text and colour are chosen by the same test, so two
   * suggestions share a colour exactly when they share a label, and only an
   * exact string "DISH" is shown as a dish (a lower-case or missing type is
   * a restaurant).
   */
  lemma BadgeColourMatchesLabel(k1: Option<Json>, k2: Option<Json>)
    ensures BadgeColour(k1) == BadgeColour(k2) <==> TypeLabel(k1) == TypeLabel(k2)
    ensures TypeLabel(Some(JStr("dish"))) == "Restaurant" && TypeLabel(None) == "Restaurant"
  {
    assert "bg-green-100 text-green-700" != "bg-blue-100 text-blue-700";
    assert "Dish" != "Restaurant";
  }

  /** What the content area below the search bar shows. */
  datatype Content = Shimmer | Results(data: Json) | EmptyState

  function ContentFor(isLoadingResults: bool, searchResults: Option<Json>): (c: Content)
    ensures c.Shimmer? <==> isLoadingResults
    ensures c.Results? <==> !isLoadingResults && Truthy(searchResults)
    ensures c.Results? ==> Some(c.data) == searchResults
  {
    if isLoadingResults then Shimmer
    else if Truthy(searchResults) then Results(searchResults.value)
    else EmptyState
  }

  /** Right after a submit the shimmer shows; after a failed one the empty state shows. */
  lemma ContentAfterFailedSearch(searchResults: Option<Json>)
    requires searchResults.None?
    ensures ContentFor(true, searchResults) == Shimmer
    ensures ContentFor(false, searchResults) == EmptyState
  {
  }
}
