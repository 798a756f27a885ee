/**
 * The cart slice: a list of lines, each an item card with a quantity,
 * changed in place by five reducers. The reducer functions below give the
 * list each reducer leaves behind; the `Cart` class performs the same
 * changes step by step on its `items` field.
 */
module CartSlice {
  import opened Wrappers

  /** The fields of `card.info` that the cart reads. Prices are integer paise. */
  datatype Item = Item(id: string, name: string, price: Option<int>, defaultPrice: Option<int>)

  datatype Line = Line(item: Item, quantity: int)

  /** `items.find(line => line.card.info.id === id)`, as a position: the first match. */
  function IndexOf(items: seq<Line>, id: string): (r: Option<nat>)
    ensures r.Some? ==> r.value < |items| && items[r.value].item.id == id
    ensures r.Some? ==> forall j :: 0 <= j < r.value ==> items[j].item.id != id
    ensures r.None? ==> forall j :: 0 <= j < |items| ==> items[j].item.id != id
  {
    if items == [] then None
    else if items[0].item.id == id then Some(0)
    else
      match IndexOf(items[1..], id)
      case None => None
      case Some(k) => Some(k + 1)
  }

  predicate Contains(items: seq<Line>, id: string) {
    exists j :: 0 <= j < |items| && items[j].item.id == id
  }

  /** `items.filter(line => line.card.info.id !== id)`. */
  function Without(items: seq<Line>, id: string): (r: seq<Line>)
    ensures |r| <= |items|
    ensures forall j :: 0 <= j < |r| ==> r[j].item.id != id
    ensures forall l :: l in r ==> l in items
    ensures forall l :: l in items && l.item.id != id ==> l in r
  {
    if items == [] then []
    else (if items[0].item.id == id then [] else [items[0]]) + Without(items[1..], id)
  }

  /** No two lines share an id. */
  predicate UniqueIds(items: seq<Line>) {
    forall i, j :: 0 <= i < j < |items| ==> items[i].item.id != items[j].item.id
  }

  /** The cart invariant: unique ids and every quantity at least 1. */
  predicate WellFormed(items: seq<Line>) {
    UniqueIds(items) && forall i :: 0 <= i < |items| ==> items[i].quantity >= 1
  }

  /** `items[k]` with its quantity moved by `delta`. */
  function Bump(items: seq<Line>, k: nat, delta: int): seq<Line>
    requires k < |items|
  {
    items[k := items[k].(quantity := items[k].quantity + delta)]
  }

  /** `addItems`: bump the first line with the payload's id, or append the payload with quantity 1. */
  function Added(items: seq<Line>, payload: Line): seq<Line> {
    match IndexOf(items, payload.item.id)
    case Some(k) => Bump(items, k, 1)
    case None => items + [Line(payload.item, 1)]
  }

  /** `increaseQuantity`: bump the first line with the id, if there is one. */
  function Increased(items: seq<Line>, id: string): seq<Line> {
    match IndexOf(items, id)
    case Some(k) => Bump(items, k, 1)
    case None => items
  }

  /** `decreaseQuantity`: lower the first matching quantity when above 1, otherwise filter the id out. */
  function Decreased(items: seq<Line>, id: string): seq<Line> {
    match IndexOf(items, id)
    case Some(k) => if items[k].quantity > 1 then Bump(items, k, -1) else Without(items, id)
    case None => Without(items, id)
  }

  /** Filtering out an id that no line carries changes nothing. */
  lemma {:induction false} WithoutAbsent(items: seq<Line>, id: string)
    requires !Contains(items, id)
    ensures Without(items, id) == items
  {
    if items != [] {
      assert !Contains(items[1..], id) by {
        forall j | 0 <= j < |items[1..]| ensures items[1..][j].item.id != id {
          assert items[1..][j] == items[j + 1];
        }
      }
      WithoutAbsent(items[1..], id);
    }
  }

  /** Filtering keeps the surviving lines in their original order. */
  lemma {:induction false} WithoutConcat(a: seq<Line>, b: seq<Line>, id: string)
    ensures Without(a + b, id) == Without(a, id) + Without(b, id)
  {
    if a == [] {
      assert a + b == b;
    } else {
      assert (a + b)[1..] == a[1..] + b;
      WithoutConcat(a[1..], b, id);
    }
  }

  /** Filtering never creates a duplicate id. */
  lemma {:induction false} WithoutKeepsUnique(items: seq<Line>, id: string)
    requires UniqueIds(items)
    ensures UniqueIds(Without(items, id))
  {
    if items != [] {
      var rest := items[1..];
      assert UniqueIds(rest) by {
        forall i, j | 0 <= i < j < |rest| ensures rest[i].item.id != rest[j].item.id {
          assert rest[i] == items[i + 1] && rest[j] == items[j + 1];
        }
      }
      WithoutKeepsUnique(rest, id);
      var tail := Without(rest, id);
      if items[0].item.id != id {
        forall j | 0 <= j < |tail| ensures tail[j].item.id != items[0].item.id {
          assert tail[j] in rest;
          var m :| 0 <= m < |rest| && rest[m] == tail[j];
          assert rest[m] == items[m + 1];
        }
        var r := [items[0]] + tail;
        assert Without(items, id) == r;
        forall i, j | 0 <= i < j < |r| ensures r[i].item.id != r[j].item.id {
          if i == 0 { assert r[j] == tail[j - 1]; } else { assert r[i] == tail[i - 1] && r[j] == tail[j - 1]; }
        }
      }
    }
  }

  /** Under unique ids, filtering an id out deletes exactly the line that carries it. */
  lemma WithoutUniqueRemovesOne(items: seq<Line>, id: string, k: nat)
    requires UniqueIds(items) && IndexOf(items, id) == Some(k)
    ensures Without(items, id) == items[..k] + items[k + 1..]
  {
    NoEarlierMatch(items, id, k);
    NoLaterMatch(items, k);
    WithoutAroundMatch(items, id, k);
  }

  lemma NoEarlierMatch(items: seq<Line>, id: string, k: nat)
    requires IndexOf(items, id) == Some(k)
    ensures !Contains(items[..k], id)
  {
    var pre := items[..k];
    forall j | 0 <= j < |pre| ensures pre[j].item.id != id {
      assert pre[j] == items[j];
    }
  }

  lemma NoLaterMatch(items: seq<Line>, k: nat)
    requires UniqueIds(items) && k < |items|
    ensures !Contains(items[k + 1..], items[k].item.id)
  {
    var suf := items[k + 1..];
    forall j | 0 <= j < |suf| ensures suf[j].item.id != items[k].item.id {
      assert suf[j] == items[k + 1 + j];
    }
  }

  lemma WithoutAroundMatch(items: seq<Line>, id: string, k: nat)
    requires k < |items| && items[k].item.id == id
    requires !Contains(items[..k], id) && !Contains(items[k + 1..], id)
    ensures Without(items, id) == items[..k] + items[k + 1..]
  {
    var pre, suf := items[..k], items[k + 1..];
    assert items == (pre + [items[k]]) + suf;
    WithoutConcat(pre + [items[k]], suf, id);
    WithoutConcat(pre, [items[k]], id);
    assert Without([items[k]], id) == [] + Without([], id);
    WithoutAbsent(pre, id);
    WithoutAbsent(suf, id);
    assert pre + [] == pre;
  }

  /** `addItems` with a new id appends one line with quantity 1, whatever the payload's quantity. */
  lemma AddNewAppends(items: seq<Line>, payload: Line)
    requires !Contains(items, payload.item.id)
    ensures Added(items, payload) == items + [Line(payload.item, 1)]
  {
  }

  /** `addItems` with a present id adds 1 to that line and leaves every other line as it was. */
  lemma AddExistingIncrements(items: seq<Line>, payload: Line, k: nat)
    requires WellFormed(items) && k < |items| && items[k].item.id == payload.item.id
    ensures |Added(items, payload)| == |items|
    ensures Added(items, payload)[k].quantity == items[k].quantity + 1
    ensures Added(items, payload)[k].item == items[k].item
    ensures forall j :: 0 <= j < |items| && j != k ==> Added(items, payload)[j] == items[j]
  {
    var found := IndexOf(items, payload.item.id);
    assert found == Some(k) by {
      if found != Some(k) {
        assert false;
      }
    }
  }

  /** `increaseQuantity` on an absent id is a no-op. */
  lemma IncreaseAbsentNoOp(items: seq<Line>, id: string)
    requires !Contains(items, id)
    ensures Increased(items, id) == items
  {
  }

  /** `increaseQuantity` on a present id adds 1 to that line only. */
  lemma IncreaseExistingIncrements(items: seq<Line>, id: string, k: nat)
    requires WellFormed(items) && k < |items| && items[k].item.id == id
    ensures |Increased(items, id)| == |items|
    ensures Increased(items, id)[k] == items[k].(quantity := items[k].quantity + 1)
    ensures forall j :: 0 <= j < |items| && j != k ==> Increased(items, id)[j] == items[j]
  {
    var found := IndexOf(items, id);
    assert found == Some(k) by {
      if found != Some(k) { assert false; }
    }
  }

  /** `decreaseQuantity` on a line with quantity above 1 takes 1 from that line only. */
  lemma DecreaseAboveOneDecrements(items: seq<Line>, id: string, k: nat)
    requires WellFormed(items) && k < |items| && items[k].item.id == id && items[k].quantity > 1
    ensures |Decreased(items, id)| == |items|
    ensures Decreased(items, id)[k] == items[k].(quantity := items[k].quantity - 1)
    ensures forall j :: 0 <= j < |items| && j != k ==> Decreased(items, id)[j] == items[j]
  {
    var found := IndexOf(items, id);
    assert found == Some(k) by {
      if found != Some(k) { assert false; }
    }
  }

  /** `decreaseQuantity` on an absent id leaves the cart unchanged. */
  lemma DecreaseAbsentNoOp(items: seq<Line>, id: string)
    requires !Contains(items, id)
    ensures Decreased(items, id) == items
  {
    WithoutAbsent(items, id);
  }

  /** `decreaseQuantity` on a line with quantity 1 deletes that line and keeps the others in order. */
  lemma DecreaseLastRemoves(items: seq<Line>, id: string, k: nat)
    requires WellFormed(items) && k < |items| && items[k].item.id == id && items[k].quantity == 1
    ensures Decreased(items, id) == items[..k] + items[k + 1..]
  {
    var found := IndexOf(items, id);
    assert found == Some(k) by {
      if found != Some(k) { assert false; }
    }
    WithoutUniqueRemovesOne(items, id, k);
  }

  lemma AddedWellFormed(items: seq<Line>, payload: Line)
    requires WellFormed(items)
    ensures WellFormed(Added(items, payload))
  {
  }

  lemma IncreasedWellFormed(items: seq<Line>, id: string)
    requires WellFormed(items)
    ensures WellFormed(Increased(items, id))
  {
  }

  lemma DecreasedWellFormed(items: seq<Line>, id: string)
    requires WellFormed(items)
    ensures WellFormed(Decreased(items, id))
  {
    WithoutKeepsUnique(items, id);
  }

  lemma WithoutWellFormed(items: seq<Line>, id: string)
    requires WellFormed(items)
    ensures WellFormed(Without(items, id))
  {
    WithoutKeepsUnique(items, id);
  }

  /** The Redux store's `cart` state; the reducers update `items` in place. */
  class Cart {
    var items: seq<Line>

    predicate Valid()
      reads this
    {
      WellFormed(items)
    }

    /** The initial state: no lines. */
    constructor ()
      ensures items == [] && Valid()
    {
      items := [];
    }

    method AddItems(payload: Line)
      modifies this
      ensures items == Added(old(items), payload)
      ensures old(Valid()) ==> Valid()
    {
      var found := IndexOf(items, payload.item.id);
      if found.Some? {
        var k := found.value;
        items := items[k := items[k].(quantity := items[k].quantity + 1)];
      } else {
        items := items + [Line(payload.item, 1)];
      }
      if old(Valid()) { AddedWellFormed(old(items), payload); }
    }

    method RemoveItem(id: string)
      modifies this
      ensures items == Without(old(items), id)
      ensures old(Valid()) ==> Valid()
    {
      if Valid() { WithoutWellFormed(items, id); }
      items := Without(items, id);
    }

    method IncreaseQuantity(id: string)
      modifies this
      ensures items == Increased(old(items), id)
      ensures old(Valid()) ==> Valid()
    {
      var found := IndexOf(items, id);
      if found.Some? {
        var k := found.value;
        items := items[k := items[k].(quantity := items[k].quantity + 1)];
      }
      if old(Valid()) { IncreasedWellFormed(old(items), id); }
    }

    method DecreaseQuantity(id: string)
      modifies this
      ensures items == Decreased(old(items), id)
      ensures old(Valid()) ==> Valid()
    {
      var found := IndexOf(items, id);
      if found.Some? && items[found.value].quantity > 1 {
        var k := found.value;
        items := items[k := items[k].(quantity := items[k].quantity - 1)];
      } else {
        items := Without(items, id);
      }
      if old(Valid()) { DecreasedWellFormed(old(items), id); }
    }

    method ClearCart()
      modifies this
      ensures items == [] && Valid()
    {
      items := [];
    }
  }
}
