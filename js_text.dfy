/** `String.prototype.trim` over JavaScript's white-space and line-terminator characters. */
module JsText {

  /** WhiteSpace and LineTerminator code points of ECMAScript (sections 12.2 and 12.3 of ECMA-262). */
  predicate IsSpace(c: char) {
    c == '\t' || c == '\n' || c == '\U{000B}' || c == '\U{000C}' || c == '\r'
    || c == ' ' || c == '\U{00A0}' || c == '\U{1680}'
    || ('\U{2000}' <= c <= '\U{200A}')
    || c == '\U{2028}' || c == '\U{2029}' || c == '\U{202F}' || c == '\U{205F}'
    || c == '\U{3000}' || c == '\U{FEFF}'
  }

  predicate AllSpace(s: string) {
    forall i :: 0 <= i < |s| ==> IsSpace(s[i])
  }

  lemma AllSpaceCons(c: char, t: string)
    requires IsSpace(c) && AllSpace(t)
    ensures AllSpace([c] + t)
  {
    forall m | 0 < m < |[c] + t| ensures IsSpace(([c] + t)[m]) { assert ([c] + t)[m] == t[m - 1]; }
  }

  lemma AllSpaceSnoc(t: string, c: char)
    requires AllSpace(t) && IsSpace(c)
    ensures AllSpace(t + [c])
  {
    forall m | 0 <= m < |t| ensures IsSpace((t + [c])[m]) { assert (t + [c])[m] == t[m]; }
  }

  /** Drops leading white space: the result is the suffix after a run of spaces. */
  function TrimStart(s: string): (r: string)
    ensures |r| <= |s| && r == s[|s| - |r|..]
    ensures AllSpace(s[..|s| - |r|])
    ensures r == [] || !IsSpace(r[0])
    decreases |s|
  {
    if |s| > 0 && IsSpace(s[0]) then
      var r := TrimStart(s[1..]);
      var k := |s| - |r|;
      assert s[1..][k - 1..] == s[k..];
      assert s[..k] == [s[0]] + s[1..][..k - 1];
      AllSpaceCons(s[0], s[1..][..k - 1]);
      r
    else s
  }

  /** Drops trailing white space: the result is the prefix before a run of spaces. */
  function TrimEnd(s: string): (r: string)
    ensures |r| <= |s| && r == s[..|r|]
    ensures AllSpace(s[|r|..])
    ensures r == [] || !IsSpace(r[|r| - 1])
    decreases |s|
  {
    if |s| > 0 && IsSpace(s[|s| - 1]) then
      var r := TrimEnd(s[..|s| - 1]);
      assert s[..|s| - 1][..|r|] == s[..|r|];
      assert s[|r|..] == s[..|s| - 1][|r|..] + [s[|s| - 1]];
      AllSpaceSnoc(s[..|s| - 1][|r|..], s[|s| - 1]);
      r
    else s
  }

  /**
   * `s.trim()`: the infix of `s` left after removing a white-space run at
   * each end, which neither starts nor ends with white space.
   */
  function Trim(s: string): (r: string)
    ensures |r| <= |s|
    ensures exists i, j :: InfixBetweenSpace(s, r, i, j)
    ensures r == [] || (!IsSpace(r[0]) && !IsSpace(r[|r| - 1]))
  {
    TrimBounds(s);
    TrimEnd(TrimStart(s))
  }

  /** The trimmed text sits between a leading and a trailing white-space run of `s`. */
  lemma TrimBounds(s: string)
    ensures exists i, j :: InfixBetweenSpace(s, TrimEnd(TrimStart(s)), i, j)
  {
    var t := TrimStart(s);
    var r := TrimEnd(t);
    var i := |s| - |t|;
    var j := i + |r|;
    PrefixOfSuffix(s, t, r);
    assert InfixBetweenSpace(s, r, i, j);
  }

  /** `r` is `s[i..j]`, with only white space before `i` and after `j`. */
  predicate InfixBetweenSpace(s: string, r: string, i: int, j: int) {
    0 <= i <= j <= |s| && r == s[i..j] && AllSpace(s[..i]) && AllSpace(s[j..])
  }

  /** A prefix `r` of a suffix `t` of `s` is the infix of `s` at the same place. */
  lemma PrefixOfSuffix(s: string, t: string, r: string)
    requires |t| <= |s| && t == s[|s| - |t|..]
    requires |r| <= |t| && r == t[..|r|]
    ensures r == s[|s| - |t|..|s| - |t| + |r|]
    ensures t[|r|..] == s[|s| - |t| + |r|..]
  {
  }

  /**
   * A JavaScript string's `length`: the number of UTF-16 code units, two
   * for each character outside the Basic Multilingual Plane.
   */
  function Utf16Length(s: string): (n: nat)
    ensures |s| <= n <= 2 * |s|
    ensures n == |s| <==> forall i :: 0 <= i < |s| ==> s[i] < '\U{10000}'
  {
    if s == [] then 0
    else (if s[0] < '\U{10000}' then 1 else 2) + Utf16Length(s[1..])
  }

  /** A string trims to nothing exactly when every character of it is white space. */
  lemma TrimEmptyIffAllSpace(s: string)
    ensures Trim(s) == [] <==> AllSpace(s)
  {
    var t := TrimStart(s);
    if Trim(s) == [] {
      assert AllSpace(t[0..]);
      assert t == [];
      assert s[..|s|] == s;
    } else {
      var r := Trim(s);
      assert r == t[..|r|];
      assert r[0] == s[|s| - |t|];
    }
  }

  /** Trimming is idempotent. */
  lemma TrimIdempotent(s: string)
    ensures Trim(Trim(s)) == Trim(s)
  {
    var r := Trim(s);
    if r != [] {
      assert TrimStart(r) == r;
      assert TrimEnd(r) == r;
    }
  }
}
