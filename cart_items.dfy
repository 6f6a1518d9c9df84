/**
 * The items of one cart and the edits the cart routes make to them:
 * find a line item, merge-or-append on add, replace or drop on update,
 * filter on remove.
 */
module CartItems {
  import opened Common

  /** One line item: a product reference and how many of it. */
  datatype LineItem = LineItem(product: ObjectId, quantity: int)

  /** The products that have a line item. */
  function ProductIds(items: seq<LineItem>): set<ObjectId> {
    set it | it in items :: it.product
  }

  /** The cart invariant: at most one line item per product. */
  predicate DistinctProducts(items: seq<LineItem>) {
    forall i, j :: 0 <= i < j < |items| ==> items[i].product != items[j].product
  }

  /** What one line item adds to the quantity held of `p`. */
  function Contribution(item: LineItem, p: ObjectId): int {
    if item.product == p then item.quantity else 0
  }

  /** The cart seen as a bag: the total quantity held of `p`. */
  function Quantity(items: seq<LineItem>, p: ObjectId): int {
    if items == [] then 0 else Contribution(items[0], p) + Quantity(items[1..], p)
  }

  /** `items.find(item => item.product === p)`: the first line item for `p`. */
  function Find(items: seq<LineItem>, p: ObjectId): (r: Option<nat>)
    ensures r.Some? ==> r.value < |items| && items[r.value].product == p
    ensures r.Some? ==> forall j :: 0 <= j < r.value ==> items[j].product != p
    ensures r.None? <==> p !in ProductIds(items)
  {
    if items == [] then None
    else if items[0].product == p then Some(0)
    else match Find(items[1..], p)
      case None =>
        assert items == [items[0]] + items[1..];
        None
      case Some(i) => Some(i + 1)
  }

  /** Merge-or-append: the add route's change to a cart's items. */
  function AddItem(items: seq<LineItem>, p: ObjectId, q: int): (r: seq<LineItem>)
    ensures p in ProductIds(items) ==>
      var i := Find(items, p).value;
      |r| == |items| && r[i] == LineItem(p, items[i].quantity + q) &&
      forall j :: 0 <= j < |items| && j != i ==> r[j] == items[j]
    ensures p !in ProductIds(items) ==> r == items + [LineItem(p, q)]
    ensures DistinctProducts(items) ==> DistinctProducts(r)
  {
    match Find(items, p)
    case Some(i) =>
      ReplaceSameProduct(items, i, LineItem(p, items[i].quantity + q));
      items[i := LineItem(p, items[i].quantity + q)]
    case None => items + [LineItem(p, q)]
  }

  /** After an add the product has a line item, and the other products are those before. */
  lemma AddItemProducts(items: seq<LineItem>, p: ObjectId, q: int)
    ensures ProductIds(AddItem(items, p, q)) == ProductIds(items) + {p}
  {
    if p in ProductIds(items) {
      ReplaceSameProduct(items, Find(items, p).value, LineItem(p, items[Find(items, p).value].quantity + q));
    }
  }

  /** Keep every line item whose product is not `p`, in order (the remove route's filter). */
  function Without(items: seq<LineItem>, p: ObjectId): (r: seq<LineItem>)
    ensures forall it :: it in r <==> it in items && it.product != p
    ensures p !in ProductIds(r)
    ensures |r| <= |items|
    ensures p !in ProductIds(items) ==> r == items
  {
    if items == [] then []
    else
      assert items == [items[0]] + items[1..];
      var rest := Without(items[1..], p);
      if items[0].product == p then rest else [items[0]] + rest
  }

  /** The filter removes exactly `p` from the set of products in the cart. */
  lemma WithoutProducts(items: seq<LineItem>, p: ObjectId)
    ensures ProductIds(Without(items, p)) == ProductIds(items) - {p}
  {
    var r := Without(items, p);
    forall o | o in ProductIds(items) - {p} ensures o in ProductIds(r) {
      var it :| it in items && it.product == o;
      assert it in r;
    }
  }

  /** Filtering keeps the cart invariant. */
  lemma {:induction false} WithoutDistinct(items: seq<LineItem>, p: ObjectId)
    requires DistinctProducts(items)
    ensures DistinctProducts(Without(items, p))
  {
    if items != [] {
      DistinctTail(items);
      WithoutDistinct(items[1..], p);
      if items[0].product != p {
        DistinctCons(items[0], Without(items[1..], p));
      }
    }
  }

  /** The update route's change: no result when `p` has no line item (a 404),
      the item dropped when `q <= 0`, its quantity replaced otherwise. */
  function UpdateItem(items: seq<LineItem>, p: ObjectId, q: int): (r: Option<seq<LineItem>>)
    ensures r.None? <==> p !in ProductIds(items)
    ensures r.Some? && q <= 0 ==> r.value == Without(items, p)
    ensures r.Some? && q > 0 ==>
      var i := Find(items, p).value;
      |r.value| == |items| && r.value[i] == LineItem(p, q) &&
      forall j :: 0 <= j < |items| && j != i ==> r.value[j] == items[j]
    ensures r.Some? && DistinctProducts(items) ==> DistinctProducts(r.value)
  {
    match Find(items, p)
    case None => None
    case Some(i) =>
      if q <= 0 then
        if DistinctProducts(items) then WithoutDistinct(items, p); Some(Without(items, p))
        else Some(Without(items, p))
      else
        ReplaceSameProduct(items, i, LineItem(p, q));
        Some(items[i := LineItem(p, q)])
  }

  lemma DistinctTail(items: seq<LineItem>)
    requires items != [] && DistinctProducts(items)
    ensures items[0].product !in ProductIds(items[1..]) && DistinctProducts(items[1..])
  {
  }

  lemma DistinctCons(x: LineItem, s: seq<LineItem>)
    requires x.product !in ProductIds(s) && DistinctProducts(s)
    ensures DistinctProducts([x] + s)
  {
  }

  /** Overwriting a line item with one for the same product changes neither the
      set of products nor whether they are distinct. */
  lemma ReplaceSameProduct(items: seq<LineItem>, i: nat, x: LineItem)
    requires i < |items| && x.product == items[i].product
    ensures ProductIds(items[i := x]) == ProductIds(items)
    ensures DistinctProducts(items) ==> DistinctProducts(items[i := x])
  {
    var r := items[i := x];
    forall it | it in r ensures it.product in ProductIds(items) {
      var j :| 0 <= j < |r| && r[j] == it;
      assert items[j] in items;
    }
    forall it | it in items ensures it.product in ProductIds(r) {
      var j :| 0 <= j < |items| && items[j] == it;
      assert r[j] in r;
    }
  }

  lemma {:induction false} QuantityAppend(a: seq<LineItem>, b: seq<LineItem>)
    ensures forall o :: Quantity(a + b, o) == Quantity(a, o) + Quantity(b, o)
  {
    if a == [] {
      assert a + b == b;
    } else {
      assert (a + b)[1..] == a[1..] + b;
      QuantityAppend(a[1..], b);
    }
  }

  lemma {:induction false} QuantityUpdate(items: seq<LineItem>, i: nat, x: LineItem)
    requires i < |items|
    ensures forall o :: Quantity(items[i := x], o) == Quantity(items, o) - Contribution(items[i], o) + Contribution(x, o)
  {
    if i == 0 {
      assert items[i := x][1..] == items[1..];
    } else {
      assert items[i := x][1..] == items[1..][i - 1 := x];
      QuantityUpdate(items[1..], i - 1, x);
    }
  }

  lemma {:induction false} QuantityAbsent(items: seq<LineItem>, p: ObjectId)
    requires p !in ProductIds(items)
    ensures Quantity(items, p) == 0
  {
    if items != [] {
      assert items[0] in items;
      assert ProductIds(items[1..]) <= ProductIds(items) by {
        forall it | it in items[1..] ensures it in items { }
      }
      QuantityAbsent(items[1..], p);
    }
  }

  /** Under the cart invariant, the quantity held of a product is that of its one line item. */
  lemma QuantityOfDistinct(items: seq<LineItem>, i: nat)
    requires DistinctProducts(items) && i < |items|
    ensures Quantity(items, items[i].product) == items[i].quantity
  {
    var p := items[i].product;
    var before, after := items[..i], items[i + 1..];
    assert items == before + [items[i]] + after;
    forall it | it in before ensures it.product != p {
      var j :| 0 <= j < |before| && before[j] == it;
      assert items[j] == it;
    }
    forall it | it in after ensures it.product != p {
      var j :| 0 <= j < |after| && after[j] == it;
      assert items[i + 1 + j] == it;
    }
    QuantityAbsent(before, p);
    QuantityAbsent(after, p);
    QuantityAppend(before + [items[i]], after);
    QuantityAppend(before, [items[i]]);
    assert [items[i]][1..] == [];
  }

  /** Adding `q` of `p` raises the quantity held of `p` by `q` and of nothing else. */
  lemma AddItemQuantity(items: seq<LineItem>, p: ObjectId, q: int)
    ensures Quantity(AddItem(items, p, q), p) == Quantity(items, p) + q
    ensures forall o :: o != p ==> Quantity(AddItem(items, p, q), o) == Quantity(items, o)
  {
    match Find(items, p)
    case Some(i) =>
      QuantityUpdate(items, i, LineItem(p, items[i].quantity + q));
    case None =>
      var x := LineItem(p, q);
      QuantityAppend(items, [x]);
      assert [x][1..] == [];
      assert forall o :: Quantity([x], o) == Contribution(x, o);
  }

  /** Filtering out `p` leaves none of it and every other quantity as it was. */
  lemma {:induction false} WithoutQuantity(items: seq<LineItem>, p: ObjectId)
    ensures Quantity(Without(items, p), p) == 0
    ensures forall o :: o != p ==> Quantity(Without(items, p), o) == Quantity(items, o)
  {
    if items != [] {
      WithoutQuantity(items[1..], p);
      var rest := Without(items[1..], p);
      if items[0].product != p {
        assert ([items[0]] + rest)[1..] == rest;
      }
    }
  }

  /** On a cart with at most one item per product, the update route sets the
      quantity held of `p` to `q` (to nothing when `q <= 0`) and leaves every
      other product's quantity alone. */
  lemma UpdateItemQuantity(items: seq<LineItem>, p: ObjectId, q: int)
    requires DistinctProducts(items) && p in ProductIds(items)
    ensures Quantity(UpdateItem(items, p, q).value, p) == if q <= 0 then 0 else q
    ensures forall o :: o != p ==> Quantity(UpdateItem(items, p, q).value, o) == Quantity(items, o)
  {
    var i := Find(items, p).value;
    if q <= 0 {
      WithoutQuantity(items, p);
    } else {
      QuantityUpdate(items, i, LineItem(p, q));
      QuantityOfDistinct(items, i);
    }
  }

  /** Under the cart invariant the filter drops exactly the one line item for `p`
      and keeps the others in order. */
  lemma WithoutDropsFound(items: seq<LineItem>, p: ObjectId)
    requires DistinctProducts(items) && Find(items, p).Some?
    ensures var i := Find(items, p).value; Without(items, p) == items[..i] + items[i + 1..]
  {
    var i := Find(items, p).value;
    var before, after := items[..i], items[i + 1..];
    AbsentFrom(before, p);
    AbsentFrom(after, p);
    assert items == before + [items[i]] + after;
    WithoutSplit(before, items[i], after, p);
  }

  lemma WithoutSplit(before: seq<LineItem>, x: LineItem, after: seq<LineItem>, p: ObjectId)
    requires p !in ProductIds(before) && p !in ProductIds(after) && x.product == p
    ensures Without(before + [x] + after, p) == before + after
  {
    WithoutAppend(before + [x], after, p);
    WithoutAppend(before, [x], p);
    assert [x][1..] == [];
    assert Without([x], p) == Without([], p) == [];
    assert Without(before, p) == before;
    assert Without(after, p) == after;
    assert Without(before + [x], p) == before + [];
    assert before + [] == before;
  }

  lemma {:induction false} WithoutAppend(a: seq<LineItem>, b: seq<LineItem>, p: ObjectId)
    ensures Without(a + b, p) == Without(a, p) + Without(b, p)
  {
    if a != [] {
      assert (a + b)[1..] == a[1..] + b;
      WithoutAppend(a[1..], b, p);
    } else {
      assert a + b == b;
    }
  }

  lemma AbsentFrom(s: seq<LineItem>, p: ObjectId)
    requires forall j :: 0 <= j < |s| ==> s[j].product != p
    ensures p !in ProductIds(s)
  {
    forall it | it in s ensures it.product != p {
      var j :| 0 <= j < |s| && s[j] == it;
    }
  }

  /** The index Find reports is pinned down by its ensures. */
  lemma FindAt(items: seq<LineItem>, p: ObjectId, k: nat)
    requires k < |items| && items[k].product == p
    requires forall j :: 0 <= j < k ==> items[j].product != p
    ensures Find(items, p) == Some(k)
  {
    assert items[k] in items;
  }

  /** Merge law: two adds of the same product make one line item holding the sum. */
  lemma AddTwice(items: seq<LineItem>, p: ObjectId, a: int, b: int)
    ensures AddItem(AddItem(items, p, a), p, b) == AddItem(items, p, a + b)
  {
    if p in ProductIds(items) {
      AddTwicePresent(items, p, a, b);
    } else {
      AddTwiceAbsent(items, p, a, b);
    }
  }

  lemma AddTwicePresent(items: seq<LineItem>, p: ObjectId, a: int, b: int)
    requires p in ProductIds(items)
    ensures AddItem(AddItem(items, p, a), p, b) == AddItem(items, p, a + b)
  {
    var i := Find(items, p).value;
    var once := items[i := LineItem(p, items[i].quantity + a)];
    assert AddItem(items, p, a) == once;
    FindAt(once, p, i);
    assert AddItem(once, p, b) == once[i := LineItem(p, once[i].quantity + b)];
    assert once[i := LineItem(p, once[i].quantity + b)] == items[i := LineItem(p, items[i].quantity + (a + b))];
  }

  lemma AddTwiceAbsent(items: seq<LineItem>, p: ObjectId, a: int, b: int)
    requires p !in ProductIds(items)
    ensures AddItem(AddItem(items, p, a), p, b) == AddItem(items, p, a + b)
  {
    var once := items + [LineItem(p, a)];
    assert AddItem(items, p, a) == once;
    FindAt(once, p, |items|);
    assert AddItem(once, p, b) == once[|items| := LineItem(p, a + b)];
    assert once[|items| := LineItem(p, a + b)] == items + [LineItem(p, a + b)];
  }

  /** The add route does not reject a quantity below one, so a line item may
      come to hold zero or fewer of its product. */
  lemma AddMayLeaveNonPositive(p: ObjectId)
    ensures AddItem([LineItem(p, 2)], p, -5) == [LineItem(p, -3)]
    ensures AddItem([], p, 0) == [LineItem(p, 0)]
  {
  }
}
