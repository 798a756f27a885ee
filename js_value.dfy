/**
 * Parsed JSON as the JavaScript code sees it, and the property reads the
 * code performs on it: plain member access (`a.b`, `a[1]`), which throws a
 * TypeError on `null`/`undefined`, and optional chaining (`a?.b`), which
 * short-circuits the rest of the chain to `undefined`.
 */
module JsValue {
  import opened Wrappers

  /** A value produced by `response.json()`. JSON numbers are kept as integers. */
  datatype Json =
    | JNull
    | JBool(b: bool)
    | JNum(n: int)
    | JStr(s: string)
    | JArr(elems: seq<Json>)
    | JObj(fields: map<string, Json>)

  /** A property name or an array index. */
  datatype Step = Key(name: string) | Index(i: nat)

  /** One link of a property chain: `?.step` or `.step`. */
  datatype Access = Opt(step: Step) | Plain(step: Step)

  /** The empty object `{}`. */
  const EmptyObject: Json := JObj(map[])

  /** `null` or `undefined` (the latter is `None`). */
  predicate Nullish(v: Option<Json>) {
    v.None? || v.value.JNull?
  }

  /** JavaScript truthiness of a JSON value or of `undefined`. */
  predicate Truthy(v: Option<Json>) {
    match v
    case None => false
    case Some(j) =>
      match j
      case JNull => false
      case JBool(b) => b
      case JNum(n) => n != 0
      case JStr(s) => s != ""
      case JArr(_) => true
      case JObj(_) => true
  }

  /** `Array.isArray(v)`. */
  predicate IsArray(v: Option<Json>) {
    v.Some? && v.value.JArr?
  }

  /** `a || b`: the left operand when it is truthy, otherwise the right one. */
  function Or(v: Option<Json>, fallback: Json): (r: Json)
    ensures Truthy(v) ==> Some(r) == v
    ensures !Truthy(v) ==> r == fallback
  {
    if Truthy(v) then v.value else fallback
  }

  /**
   * Decimal digits of a natural number, as `String(n)` writes them: the
   * digits spell `n`, with no leading zero unless `n` is 0.
   */
  function NatToString(n: nat): (r: string)
    ensures |r| >= 1
    ensures forall i :: 0 <= i < |r| ==> '0' <= r[i] <= '9'
    ensures DecimalValue(r) == n
    ensures r[0] == '0' <==> n == 0
    decreases n
  {
    if n < 10 then [DigitChar(n)]
    else
      var init := NatToString(n / 10);
      var r := init + [DigitChar(n % 10)];
      assert r[..|r| - 1] == init;
      r
  }

  function DigitChar(d: nat): (c: char)
    requires d < 10
    ensures '0' <= c <= '9' && c as int - '0' as int == d
  {
    ('0' as int + d) as char
  }

  /** The number a run of decimal digits denotes, most significant digit first. */
  function DecimalValue(digits: string): nat
    requires forall i :: 0 <= i < |digits| ==> '0' <= digits[i] <= '9'
  {
    if digits == [] then 0
    else DecimalValue(digits[..|digits| - 1]) * 10 + (digits[|digits| - 1] as int - '0' as int)
  }

  function IntToString(i: int): string {
    if i < 0 then "-" + NatToString(-i) else NatToString(i)
  }

  /** Reading property `s` of a value that is neither `null` nor `undefined`. */
  function Member(v: Json, s: Step): (r: Option<Json>)
    requires !v.JNull?
    ensures r.Some? ==> v.JObj? || v.JArr? || v.JStr?
  {
    match s
    case Key(k) =>
      if v.JObj? && k in v.fields then Some(v.fields[k]) else None
    case Index(i) =>
      if v.JArr? && i < |v.elems| then Some(v.elems[i])
      else if v.JStr? && i < |v.s| then Some(JStr([v.s[i]]))
      else if v.JObj? && NatToString(i) in v.fields then Some(v.fields[NatToString(i)])
      else None
  }

  function StepName(s: Step): string {
    match s
    case Key(k) => k
    case Index(i) => NatToString(i)
  }

  /** The message V8 gives the TypeError thrown by reading `s` of a nullish value. */
  function TypeErrorMessage(v: Option<Json>, s: Step): string
    requires Nullish(v)
  {
    "Cannot read properties of " + (if v.None? then "undefined" else "null")
    + " (reading '" + StepName(s) + "')"
  }

  /**
   * Evaluates a property chain left to right. A `?.` link on a nullish value
   * ends the whole chain with `undefined`; a plain link on one throws.
   */
  function Eval(v: Option<Json>, path: seq<Access>): Result<Option<Json>, string>
    decreases |path|
  {
    if path == [] then Success(v)
    else if Nullish(v) then
      if path[0].Opt? then Success(None) else Failure(TypeErrorMessage(v, path[0].step))
    else Eval(Member(v.value, path[0].step), path[1..])
  }

  /** A chain written entirely with `?.` links. */
  function Optional(steps: seq<Step>): (path: seq<Access>)
    ensures |path| == |steps|
    ensures forall i :: 0 <= i < |steps| ==> path[i] == Opt(steps[i])
  {
    if steps == [] then [] else [Opt(steps[0])] + Optional(steps[1..])
  }

  /**
   * Reference reading of a fully optional chain: follow the steps while the
   * value is present and not `null`, give `undefined` as soon as it is not.
   */
  function Lookup(v: Option<Json>, steps: seq<Step>): Option<Json>
    decreases |steps|
  {
    if steps == [] then v
    else if Nullish(v) then None
    else Lookup(Member(v.value, steps[0]), steps[1..])
  }

  /** A fully optional chain never throws, and it reads what `Lookup` reads. */
  lemma {:induction false} OptionalChainNeverThrows(v: Option<Json>, steps: seq<Step>)
    ensures Eval(v, Optional(steps)) == Success(Lookup(v, steps))
    decreases |steps|
  {
    if steps != [] {
      assert Optional(steps)[1..] == Optional(steps[1..]);
      if !Nullish(v) {
        OptionalChainNeverThrows(Member(v.value, steps[0]), steps[1..]);
      }
    }
  }

  /** A chain throws only at a plain link, and only on a nullish value. */
  lemma {:induction false} ThrowsOnlyAtPlainLink(v: Option<Json>, path: seq<Access>)
    requires Eval(v, path).Failure?
    ensures exists i :: 0 <= i < |path| && path[i].Plain?
    decreases |path|
  {
    if !Nullish(v) {
      ThrowsOnlyAtPlainLink(Member(v.value, path[0].step), path[1..]);
      var i :| 0 <= i < |path[1..]| && path[1..][i].Plain?;
      assert path[i + 1].Plain?;
    } else {
      assert path[0].Plain?;
    }
  }

  /** `String(v)` for a JSON value, as `new Error(v)` uses for its message. */
  function JsString(v: Json): string
    decreases v
  {
    match v
    case JNull => "null"
    case JBool(b) => if b then "true" else "false"
    case JNum(n) => IntToString(n)
    case JStr(s) => s
    case JArr(es) =>
      JoinWithCommas(seq(|es|, i requires 0 <= i < |es| => if es[i].JNull? then "" else JsString(es[i])))
    case JObj(_) => "[object Object]"
  }

  /** `Array.prototype.join` with its default separator. */
  function JoinWithCommas(parts: seq<string>): string {
    if parts == [] then ""
    else if |parts| == 1 then parts[0]
    else JoinWithCommas(parts[..|parts| - 1]) + "," + parts[|parts| - 1]
  }
}
