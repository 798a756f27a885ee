/**
 * The structural acceptance check on a menu payload. The serverless menu
 * function and the client menu hook carry the same check, word for word.
 */
module MenuEnvelope {
  import opened Wrappers
  import opened JsValue

  /** The restaurant info and the REGULAR category cards of a menu payload. */
  datatype Menu = Menu(info: Json, categories: seq<Json>)

  const InvalidMenu := "Invalid or incomplete menu data"
  const MissingParts := "Missing menu information or categories"

  /** `data.data.cards`, read without throwing. */
  function Sections(data: Json): Option<Json> {
    Lookup(Some(data), [Key("data"), Key("cards")])
  }

  /** `data?.data?.cards?.[2]?.card?.card?.info`. */
  function InfoOf(data: Json): Option<Json> {
    Lookup(Some(data), [Key("data"), Key("cards"), Index(2), Key("card"), Key("card"), Key("info")])
  }

  /** `data?.data?.cards?.[4]?.groupedCard?.cardGroupMap?.REGULAR?.cards`. */
  function RegularCardsOf(data: Json): Option<Json> {
    Lookup(Some(data), [Key("data"), Key("cards"), Index(4), Key("groupedCard"),
                        Key("cardGroupMap"), Key("REGULAR"), Key("cards")])
  }

  /** The first guard: `!data || !data.data || !Array.isArray(data.data.cards) || data.data.cards.length < 5`. */
  predicate Incomplete(data: Json) {
    || !Truthy(Some(data))
    || !Truthy(Member(data, Key("data")))
    || !IsArray(Member(Member(data, Key("data")).value, Key("cards")))
    || |Member(Member(data, Key("data")).value, Key("cards")).value.elems| < 5
  }

  /** Accepts the payload, or gives the message of the error thrown. */
  function Check(data: Json): (r: Result<Menu, string>)
    ensures r.Success? <==>
      (&& IsArray(Sections(data)) && |Sections(data).value.elems| >= 5
       && Truthy(InfoOf(data)) && IsArray(RegularCardsOf(data)))
    ensures r.Success? ==> r.value == Menu(InfoOf(data).value, RegularCardsOf(data).value.elems)
    ensures r.Failure? ==>
      r.error == (if IsArray(Sections(data)) && |Sections(data).value.elems| >= 5
                  then MissingParts else InvalidMenu)
  {
    IncompleteReadsSections(data);
    if Incomplete(data) then Failure(InvalidMenu)
    else if !Truthy(InfoOf(data)) || !IsArray(RegularCardsOf(data)) then Failure(MissingParts)
    else Success(Menu(InfoOf(data).value, RegularCardsOf(data).value.elems))
  }

  /**
   * The `!data` and `!data.data` guards are subsumed by the array test: a
   * falsy value has no `cards` array, so the first guard fails exactly when
   * `data.data.cards` is not an array of at least five sections.
   */
  lemma IncompleteReadsSections(data: Json)
    ensures Incomplete(data) <==> !(IsArray(Sections(data)) && |Sections(data).value.elems| >= 5)
  {
    if Truthy(Some(data)) {
      var d := Member(data, Key("data"));
      assert Lookup(Some(data), [Key("data"), Key("cards")]) == Lookup(d, [Key("cards")]);
      if d.Some? && !d.value.JNull? {
        assert Lookup(d, [Key("cards")]) == Lookup(Member(d.value, Key("cards")), []);
      }
    }
  }
}
