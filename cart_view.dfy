/**
 * The two folds the cart page computes over the cart lines: the price total
 * of the order summary and the item count of the cart heading, and the
 * empty-cart conditions of the page.
 */
module CartView {
  import opened Wrappers
  import opened CartSlice

  /** `price || defaultPrice` is a number: a non-zero price, or else a default price. */
  predicate Priced(item: Item) {
    (item.price.Some? && item.price.value != 0) || item.defaultPrice.Some?
  }

  predicate AllPriced(lines: seq<Line>) {
    forall i :: 0 <= i < |lines| ==> Priced(lines[i].item)
  }

  /** `item.card.info.price || item.card.info.defaultPrice`. */
  function UnitPrice(item: Item): int
    requires Priced(item)
  {
    if item.price.Some? && item.price.value != 0 then item.price.value else item.defaultPrice.value
  }

  /** `calculateTotalPrice`: a left fold adding one unit price per line. */
  function TotalPrice(lines: seq<Line>): int
    requires AllPriced(lines)
  {
    if lines == [] then 0
    else TotalPrice(lines[..|lines| - 1]) + UnitPrice(lines[|lines| - 1].item)
  }

  /** `totalItems`: a left fold adding the quantities. */
  function TotalItems(lines: seq<Line>): int {
    if lines == [] then 0 else TotalItems(lines[..|lines| - 1]) + lines[|lines| - 1].quantity
  }

  /** The page shows "Your cart is empty." instead of the lines. */
  predicate ShowsEmptyMessage(lines: seq<Line>) {
    |lines| == 0
  }

  /** The page offers the Clear Cart button. */
  predicate OffersClearButton(lines: seq<Line>) {
    |lines| != 0
  }

  /** The total is additive over concatenation. */
  lemma {:induction false} TotalPriceAppend(a: seq<Line>, b: seq<Line>)
    requires AllPriced(a) && AllPriced(b)
    ensures AllPriced(a + b)
    ensures TotalPrice(a + b) == TotalPrice(a) + TotalPrice(b)
    decreases |b|
  {
    assert AllPriced(a + b) by {
      forall i | 0 <= i < |a + b| ensures Priced((a + b)[i].item) {
        if i >= |a| { assert (a + b)[i] == b[i - |a|]; }
      }
    }
    if b == [] {
      assert a + b == a;
    } else {
      var b' := b[..|b| - 1];
      assert (a + b)[..|a + b| - 1] == a + b';
      TotalPriceAppend(a, b');
    }
  }

  lemma AllPricedSlice(lines: seq<Line>, i: nat, j: nat)
    requires AllPriced(lines) && i <= j <= |lines|
    ensures AllPriced(lines[i..j])
  {
    var s := lines[i..j];
    forall m | 0 <= m < |s| ensures Priced(s[m].item) { assert s[m] == lines[i + m]; }
  }

  /** The total around one line: the lines before it, its unit price, the lines after it. */
  lemma TotalPriceSplit(lines: seq<Line>, k: nat)
    requires AllPriced(lines) && k < |lines|
    ensures AllPriced(lines[..k]) && AllPriced(lines[k + 1..])
    ensures TotalPrice(lines) == TotalPrice(lines[..k]) + UnitPrice(lines[k].item) + TotalPrice(lines[k + 1..])
  {
    var pre, suf := lines[..k], lines[k + 1..];
    AllPricedSlice(lines, 0, k);
    AllPricedSlice(lines, k + 1, |lines|);
    assert lines == pre + [lines[k]] + suf;
    TotalPriceAppend(pre, [lines[k]]);
    TotalPriceAppend(pre + [lines[k]], suf);
    assert [lines[k]][..0] == [];
  }

  /** The total does not depend on the order of the lines. */
  lemma {:induction false} TotalPricePermutation(a: seq<Line>, b: seq<Line>)
    requires AllPriced(a) && AllPriced(b)
    requires multiset(a) == multiset(b)
    ensures TotalPrice(a) == TotalPrice(b)
    decreases |a|
  {
    if a != [] {
      var n := |a| - 1;
      var x := a[n];
      assert x in multiset(b);
      var k :| 0 <= k < |b| && b[k] == x;
      var b' := b[..k] + b[k + 1..];
      MultisetWithoutOne(a, n);
      MultisetWithoutOne(b, k);
      assert a[..n] + a[n + 1..] == a[..n];
      TotalPriceSplit(b, k);
      TotalPriceAppend(b[..k], b[k + 1..]);
      AllPricedSlice(a, 0, n);
      TotalPricePermutation(a[..n], b');
    }
  }

  /** Deleting the line at `k` removes one copy of it from the multiset of lines. */
  lemma MultisetWithoutOne(lines: seq<Line>, k: nat)
    requires k < |lines|
    ensures multiset(lines[..k] + lines[k + 1..]) == multiset(lines) - multiset{lines[k]}
  {
    assert lines == lines[..k] + [lines[k]] + lines[k + 1..];
  }

  /** Quantities are not read: lines with the same items total the same. */
  lemma {:induction false} TotalPriceIgnoresQuantities(a: seq<Line>, b: seq<Line>)
    requires AllPriced(a) && |a| == |b|
    requires forall i :: 0 <= i < |a| ==> a[i].item == b[i].item
    ensures AllPriced(b)
    ensures TotalPrice(a) == TotalPrice(b)
    decreases |a|
  {
    assert AllPriced(b) by {
      forall i | 0 <= i < |b| ensures Priced(b[i].item) { assert a[i].item == b[i].item; }
    }
    if a != [] {
      TotalPriceIgnoresQuantities(a[..|a| - 1], b[..|b| - 1]);
    }
  }

  /** A non-zero `price` wins over `defaultPrice`, whatever the latter holds. */
  lemma PriceWinsOverDefault(item: Item, d: Option<int>)
    requires item.price.Some? && item.price.value != 0
    ensures Priced(item) && Priced(item.(defaultPrice := d))
    ensures UnitPrice(item.(defaultPrice := d)) == UnitPrice(item) == item.price.value
  {
  }

  /** The item count is additive over concatenation. */
  lemma {:induction false} TotalItemsAppend(a: seq<Line>, b: seq<Line>)
    ensures TotalItems(a + b) == TotalItems(a) + TotalItems(b)
    decreases |b|
  {
    if b == [] {
      assert a + b == a;
    } else {
      var b' := b[..|b| - 1];
      assert (a + b)[..|a + b| - 1] == a + b';
      TotalItemsAppend(a, b');
    }
  }

  /** Replacing one line moves the count by the change in that line's quantity. */
  lemma TotalItemsUpdate(lines: seq<Line>, k: nat, l: Line)
    requires k < |lines|
    ensures TotalItems(lines[k := l]) == TotalItems(lines) - lines[k].quantity + l.quantity
  {
    var pre, suf := lines[..k], lines[k + 1..];
    assert lines == pre + [lines[k]] + suf;
    assert lines[k := l] == pre + [l] + suf;
    TotalItemsAppend(pre + [lines[k]], suf);
    TotalItemsAppend(pre + [l], suf);
    TotalItemsAppend(pre, [lines[k]]);
    TotalItemsAppend(pre, [l]);
    assert [l][..0] == [] && [lines[k]][..0] == [];
  }

  /** In a well-formed cart the count is at least the number of lines, and 0 exactly when it is empty. */
  lemma {:induction false} TotalItemsBounds(lines: seq<Line>)
    requires WellFormed(lines)
    ensures TotalItems(lines) >= |lines|
    ensures TotalItems(lines) == 0 <==> ShowsEmptyMessage(lines)
    decreases |lines|
  {
    if lines != [] {
      var init := lines[..|lines| - 1];
      assert WellFormed(init) by {
        forall i, j | 0 <= i < j < |init| ensures init[i].item.id != init[j].item.id {
          assert init[i] == lines[i] && init[j] == lines[j];
        }
        forall i | 0 <= i < |init| ensures init[i].quantity >= 1 { assert init[i] == lines[i]; }
      }
      TotalItemsBounds(init);
    }
  }

  /** After `clearCart` the count is 0, the empty message shows and the button is gone. */
  lemma ClearedCartView()
    ensures TotalItems([]) == 0 && ShowsEmptyMessage([]) && !OffersClearButton([])
  {
  }

  /** `addItems` raises the count by exactly one. */
  lemma TotalItemsAfterAdd(items: seq<Line>, payload: Line)
    ensures TotalItems(Added(items, payload)) == TotalItems(items) + 1
  {
    match IndexOf(items, payload.item.id)
    case Some(k) => TotalItemsUpdate(items, k, items[k].(quantity := items[k].quantity + 1));
    case None => assert (items + [Line(payload.item, 1)])[..|items|] == items;
  }

  /** `increaseQuantity` raises the count by one when the id is present, and not otherwise. */
  lemma TotalItemsAfterIncrease(items: seq<Line>, id: string)
    ensures TotalItems(Increased(items, id)) == TotalItems(items) + (if Contains(items, id) then 1 else 0)
  {
    match IndexOf(items, id)
    case Some(k) => TotalItemsUpdate(items, k, items[k].(quantity := items[k].quantity + 1));
    case None =>
  }

  /** In a well-formed cart `decreaseQuantity` lowers the count by one when the id is present. */
  lemma TotalItemsAfterDecrease(items: seq<Line>, id: string)
    requires WellFormed(items)
    ensures TotalItems(Decreased(items, id)) == TotalItems(items) - (if Contains(items, id) then 1 else 0)
  {
    match IndexOf(items, id)
    case Some(k) =>
      if items[k].quantity > 1 {
        TotalItemsUpdate(items, k, items[k].(quantity := items[k].quantity - 1));
      } else {
        DecreaseLastRemoves(items, id, k);
        TotalItemsRemoveAt(items, k);
      }
    case None =>
      WithoutAbsent(items, id);
  }

  /** Deleting one line lowers the count by that line's quantity. */
  lemma TotalItemsRemoveAt(lines: seq<Line>, k: nat)
    requires k < |lines|
    ensures TotalItems(lines[..k] + lines[k + 1..]) == TotalItems(lines) - lines[k].quantity
  {
    assert lines == lines[..k] + [lines[k]] + lines[k + 1..];
    TotalItemsAppend(lines[..k] + [lines[k]], lines[k + 1..]);
    TotalItemsAppend(lines[..k], [lines[k]]);
    TotalItemsAppend(lines[..k], lines[k + 1..]);
    assert [lines[k]][..0] == [];
  }

  /**
   * What the order summary evidently means to show: each line's unit price
   * times its quantity.
   */
  function OrderTotal(lines: seq<Line>): int
    requires AllPriced(lines)
  {
    if lines == [] then 0
    else OrderTotal(lines[..|lines| - 1]) + UnitPrice(lines[|lines| - 1].item) * lines[|lines| - 1].quantity
  }

  /** As written, two of one item cost the same as one. */
  lemma TotalPriceIgnoresSecondUnit()
    ensures var pizza := Item("1", "Pizza", Some(10000), None);
            TotalPrice([Line(pizza, 2)]) == 10000 && OrderTotal([Line(pizza, 2)]) == 20000
  {
    var pizza := Item("1", "Pizza", Some(10000), None);
    assert [Line(pizza, 2)][..0] == [];
  }

  /** The corrected total agrees with the written one exactly on carts whose quantities are all 1. */
  lemma {:induction false} OrderTotalOfSingleUnits(lines: seq<Line>)
    requires AllPriced(lines)
    requires forall i :: 0 <= i < |lines| ==> lines[i].quantity == 1
    ensures OrderTotal(lines) == TotalPrice(lines)
    decreases |lines|
  {
    if lines != [] {
      OrderTotalOfSingleUnits(lines[..|lines| - 1]);
    }
  }

  /** The corrected total is additive over concatenation. */
  lemma {:induction false} OrderTotalAppend(a: seq<Line>, b: seq<Line>)
    requires AllPriced(a) && AllPriced(b)
    ensures AllPriced(a + b)
    ensures OrderTotal(a + b) == OrderTotal(a) + OrderTotal(b)
    decreases |b|
  {
    TotalPriceAppend(a, b);
    if b == [] {
      assert a + b == a;
    } else {
      var b' := b[..|b| - 1];
      assert (a + b)[..|a + b| - 1] == a + b';
      assert AllPriced(b') by {
        forall i | 0 <= i < |b'| ensures Priced(b'[i].item) { assert b'[i] == b[i]; }
      }
      OrderTotalAppend(a, b');
    }
  }

  /** The corrected total around one line. */
  lemma OrderTotalSplit(lines: seq<Line>, k: nat)
    requires AllPriced(lines) && k < |lines|
    ensures AllPriced(lines[..k]) && AllPriced(lines[k + 1..])
    ensures OrderTotal(lines) ==
      OrderTotal(lines[..k]) + UnitPrice(lines[k].item) * lines[k].quantity + OrderTotal(lines[k + 1..])
  {
    var pre, suf := lines[..k], lines[k + 1..];
    AllPricedSlice(lines, 0, k);
    AllPricedSlice(lines, k + 1, |lines|);
    assert lines == pre + [lines[k]] + suf;
    OrderTotalAppend(pre, [lines[k]]);
    OrderTotalAppend(pre + [lines[k]], suf);
    assert [lines[k]][..0] == [];
  }

  /** The item whose line `addItems` bumps or appends. */
  function AddedItem(items: seq<Line>, payload: Line): Item {
    match IndexOf(items, payload.item.id)
    case Some(k) => items[k].item
    case None => payload.item
  }

  /** With the corrected total, one more unit of line `k` costs one more unit price. */
  lemma OrderTotalBump(items: seq<Line>, k: nat)
    requires AllPriced(items) && k < |items|
    ensures AllPriced(Bump(items, k, 1))
    ensures OrderTotal(Bump(items, k, 1)) == OrderTotal(items) + UnitPrice(items[k].item)
  {
    var r := Bump(items, k, 1);
    BumpKeepsPriced(items, k);
    OrderTotalSplit(items, k);
    OrderTotalSplit(r, k);
    assert r[..k] == items[..k] && r[k + 1..] == items[k + 1..];
    var p, q := UnitPrice(items[k].item), items[k].quantity;
    assert UnitPrice(r[k].item) == p && r[k].quantity == q + 1;
    OneMoreUnit(p, q);
  }

  /** Changing a quantity keeps every line priced. */
  lemma BumpKeepsPriced(items: seq<Line>, k: nat)
    requires AllPriced(items) && k < |items|
    ensures AllPriced(Bump(items, k, 1))
  {
    var r := Bump(items, k, 1);
    forall i | 0 <= i < |r| ensures Priced(r[i].item) { assert r[i].item == items[i].item; }
  }

  lemma OneMoreUnit(price: int, quantity: int)
    ensures price * (quantity + 1) == price * quantity + price
  {
  }

  /** With the corrected total, `addItems` raises the total by one unit of the item it adds. */
  lemma OrderTotalAfterAdd(items: seq<Line>, payload: Line)
    requires AllPriced(items) && Priced(payload.item)
    ensures Priced(AddedItem(items, payload)) && AllPriced(Added(items, payload))
    ensures OrderTotal(Added(items, payload)) == OrderTotal(items) + UnitPrice(AddedItem(items, payload))
  {
    match IndexOf(items, payload.item.id)
    case Some(k) =>
      OrderTotalBump(items, k);
    case None =>
      var r := items + [Line(payload.item, 1)];
      assert r[..|items|] == items;
  }
}
