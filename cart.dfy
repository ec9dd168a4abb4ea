/**
 * The client-side shopping cart: a list of lines keyed by product id with
 * quantities clamped to the stock seen when the line was added, and totals
 * derived from the lines after every change. Persisting the cart to local
 * storage and notifying the page header are not modelled; the object's
 * fields stand for the stored cart.
 */
module Cart {
  import opened Common

  datatype CartItem = CartItem(
    id: int,
    name: string,
    price: int,
    quantity: int,
    image: Option<string>,
    slug: string,
    maxQuantity: int)

  /** The product fields `addItem` receives. */
  datatype ProductInfo = ProductInfo(
    id: int,
    name: string,
    price: int,
    image: Option<string>,
    slug: string,
    stockQuantity: int)

  /** Σ price × quantity over the lines. */
  function Total(items: seq<CartItem>): int
  {
    if items == [] then 0 else items[0].price * items[0].quantity + Total(items[1..])
  }

  /** Σ quantity over the lines. */
  function ItemCount(items: seq<CartItem>): int
  {
    if items == [] then 0 else items[0].quantity + ItemCount(items[1..])
  }

  predicate UniqueIds(items: seq<CartItem>)
  {
    forall i, j :: 0 <= i < j < |items| ==> items[i].id != items[j].id
  }

  /** `items.findIndex(item => item.id === id)`. */
  function FirstIndex(items: seq<CartItem>, id: int): (k: int)
    ensures -1 <= k < |items|
    ensures k >= 0 ==> items[k].id == id
    ensures forall j :: 0 <= j < |items| && (k < 0 || j < k) ==> items[j].id != id
  {
    if items == [] then -1
    else if items[0].id == id then 0
    else
      var k := FirstIndex(items[1..], id);
      if k < 0 then -1 else k + 1
  }

  /** The loop `findIndex` runs. */
  method FindIndex(items: seq<CartItem>, id: int) returns (k: int)
    ensures -1 <= k < |items|
    ensures k >= 0 ==> items[k].id == id
    ensures forall j :: 0 <= j < |items| && (k < 0 || j < k) ==> items[j].id != id
  {
    var i := 0;
    while i < |items|
      invariant 0 <= i <= |items|
      invariant forall j :: 0 <= j < i ==> items[j].id != id
    {
      if items[i].id == id {
        return i;
      }
      i := i + 1;
    }
    return -1;
  }

  function NewLine(product: ProductInfo, quantity: int): CartItem
  {
    CartItem(product.id, product.name, product.price, Min(quantity, product.stockQuantity),
             product.image, product.slug, product.stockQuantity)
  }

  /** addItem on the list of lines: a product already present has its
      quantity raised and clamped to the given stock; a new product is
      appended as one line clamped to its stock. */
  function AddLine(items: seq<CartItem>, product: ProductInfo, quantity: int): (r: seq<CartItem>)
    ensures FirstIndex(items, product.id) >= 0 ==>
      var k := FirstIndex(items, product.id);
      && |r| == |items|
      && r[k] == items[k].(quantity := Min(items[k].quantity + quantity, product.stockQuantity))
      && forall j :: 0 <= j < |items| && j != k ==> r[j] == items[j]
    ensures FirstIndex(items, product.id) < 0 ==> r == items + [NewLine(product, quantity)]
  {
    var k := FirstIndex(items, product.id);
    if k >= 0 then
      items[k := items[k].(quantity := Min(items[k].quantity + quantity, product.stockQuantity))]
    else
      items + [NewLine(product, quantity)]
  }

  /** updateQuantity on the list of lines. */
  function SetQuantity(items: seq<CartItem>, id: int, quantity: int): (r: seq<CartItem>)
    ensures FirstIndex(items, id) < 0 ==> r == items
    ensures FirstIndex(items, id) >= 0 && quantity <= 0 ==>
      var k := FirstIndex(items, id);
      r == items[..k] + items[k + 1..]
    ensures FirstIndex(items, id) >= 0 && quantity > 0 ==>
      var k := FirstIndex(items, id);
      && |r| == |items|
      && r[k] == items[k].(quantity := Min(quantity, items[k].maxQuantity))
      && forall j :: 0 <= j < |items| && j != k ==> r[j] == items[j]
  {
    var k := FirstIndex(items, id);
    if k < 0 then items
    else if quantity <= 0 then items[..k] + items[k + 1..]
    else items[k := items[k].(quantity := Min(quantity, items[k].maxQuantity))]
  }

  /** `items.filter(item => item.id !== id)`. */
  function Without(items: seq<CartItem>, id: int): (r: seq<CartItem>)
    ensures |r| <= |items|
    ensures forall x :: x in r <==> x in items && x.id != id
  {
    if items == [] then []
    else (if items[0].id == id then [] else [items[0]]) + Without(items[1..], id)
  }

  lemma {:induction false} WithoutAppend(a: seq<CartItem>, b: seq<CartItem>, id: int)
    ensures Without(a + b, id) == Without(a, id) + Without(b, id)
  {
    if a == [] {
      assert a + b == b;
    } else {
      assert (a + b)[1..] == a[1..] + b;
      WithoutAppend(a[1..], b, id);
    }
  }

  /** Removing a product twice is the same as removing it once. */
  lemma {:induction false} WithoutIdempotent(items: seq<CartItem>, id: int)
    ensures Without(Without(items, id), id) == Without(items, id)
  {
    if items != [] {
      var head := if items[0].id == id then [] else [items[0]];
      WithoutAppend(head, Without(items[1..], id), id);
      WithoutIdempotent(items[1..], id);
      assert Without(head, id) == head by {
        if head != [] { assert head[1..] == []; }
      }
    }
  }

  /** Lines of other products are kept, in their order. */
  lemma {:induction false} WithoutAbsent(items: seq<CartItem>, id: int)
    requires forall j :: 0 <= j < |items| ==> items[j].id != id
    ensures Without(items, id) == items
  {
    if items != [] { WithoutAbsent(items[1..], id); }
  }

  /** When exactly one line has the id, filtering it out is splicing that line out. */
  lemma WithoutSingle(items: seq<CartItem>, id: int, k: int)
    requires 0 <= k < |items| && items[k].id == id
    requires forall j :: 0 <= j < |items| && j != k ==> items[j].id != id
    ensures Without(items, id) == items[..k] + items[k + 1..]
  {
    var a, b := items[..k], items[k + 1..];
    assert items == a + ([items[k]] + b);
    WithoutAppend(a, [items[k]] + b, id);
    WithoutAppend([items[k]], b, id);
    assert Without([items[k]], id) == [] by { assert [items[k]][1..] == []; }
    WithoutAbsent(a, id);
    forall j | 0 <= j < |b| ensures b[j].id != id {
      assert b[j] == items[k + 1 + j];
    }
    WithoutAbsent(b, id);
    assert [] + b == b;
  }

  /** With unique ids, updating a line to a quantity of zero or less is the same as removing the product. */
  lemma RemoveByZeroQuantity(items: seq<CartItem>, id: int, quantity: int)
    requires UniqueIds(items) && quantity <= 0
    ensures SetQuantity(items, id, quantity) == Without(items, id)
  {
    var k := FirstIndex(items, id);
    if k < 0 {
      WithoutAbsent(items, id);
    } else {
      WithoutSingle(items, id, k);
    }
  }

  lemma AddLineKeepsUnique(items: seq<CartItem>, product: ProductInfo, quantity: int)
    requires UniqueIds(items)
    ensures UniqueIds(AddLine(items, product, quantity))
  {
  }

  lemma SetQuantityKeepsUnique(items: seq<CartItem>, id: int, quantity: int)
    requires UniqueIds(items)
    ensures UniqueIds(SetQuantity(items, id, quantity))
  {
    var k := FirstIndex(items, id);
    if k >= 0 && quantity <= 0 {
      var r := items[..k] + items[k + 1..];
      forall i, j | 0 <= i < j < |r| ensures r[i].id != r[j].id {
        var i' := if i < k then i else i + 1;
        var j' := if j < k then j else j + 1;
        assert r[i] == items[i'] && r[j] == items[j'];
      }
    }
  }

  lemma {:induction false} WithoutKeepsUnique(items: seq<CartItem>, id: int)
    requires UniqueIds(items)
    ensures UniqueIds(Without(items, id))
  {
    if items != [] {
      WithoutKeepsUnique(items[1..], id);
      var rest := Without(items[1..], id);
      if items[0].id != id {
        assert forall x :: x in rest ==> x in items[1..];
        assert forall j :: 0 <= j < |rest| ==> rest[j] in items[1..];
      }
    }
  }

  /** Replacing one line changes the total by the difference of the line totals. */
  lemma {:induction false} TotalReplace(items: seq<CartItem>, k: int, x: CartItem)
    requires 0 <= k < |items|
    ensures Total(items[k := x]) == Total(items) - items[k].price * items[k].quantity + x.price * x.quantity
    ensures ItemCount(items[k := x]) == ItemCount(items) - items[k].quantity + x.quantity
  {
    if k > 0 {
      TotalReplace(items[1..], k - 1, x);
      assert items[k := x][1..] == items[1..][k - 1 := x];
    } else {
      assert items[k := x][1..] == items[1..];
    }
  }

  lemma {:induction false} TotalAppend(items: seq<CartItem>, x: CartItem)
    ensures Total(items + [x]) == Total(items) + x.price * x.quantity
    ensures ItemCount(items + [x]) == ItemCount(items) + x.quantity
  {
    if items != [] {
      assert (items + [x])[1..] == items[1..] + [x];
      TotalAppend(items[1..], x);
    } else {
      assert [x][1..] == [];
    }
  }

  /** Adding to the cart raises the item count by the quantity the clamp
      lets through, and the total by that quantity at the line's price. */
  lemma AddLineTotals(items: seq<CartItem>, product: ProductInfo, quantity: int)
    ensures var k := FirstIndex(items, product.id);
      var added := if k >= 0 then Min(items[k].quantity + quantity, product.stockQuantity) - items[k].quantity
                   else Min(quantity, product.stockQuantity);
      var price := if k >= 0 then items[k].price else product.price;
      && ItemCount(AddLine(items, product, quantity)) == ItemCount(items) + added
      && Total(AddLine(items, product, quantity)) == Total(items) + price * added
  {
    var k := FirstIndex(items, product.id);
    if k >= 0 {
      var x := items[k].(quantity := Min(items[k].quantity + quantity, product.stockQuantity));
      TotalReplace(items, k, x);
      assert items[k].price * x.quantity - items[k].price * items[k].quantity
          == items[k].price * (x.quantity - items[k].quantity);
    } else {
      TotalAppend(items, NewLine(product, quantity));
    }
  }

  /** The stored cart. After every operation the totals agree with the lines. */
  class CartService {
    var items: seq<CartItem>
    var total: int
    var itemCount: int

    predicate Valid()
      reads this
    {
      total == Total(items) && itemCount == ItemCount(items)
    }

    constructor ()
      ensures Valid() && items == []
    {
      items, total, itemCount := [], 0, 0;
    }

    /** calculateTotals: both reductions over the lines. */
    method CalculateTotals()
      modifies this`total, this`itemCount
      ensures Valid()
    {
      total := Total(items);
      itemCount := ItemCount(items);
    }

    method AddItem(product: ProductInfo, quantity: int)
      modifies this
      ensures Valid()
      ensures items == AddLine(old(items), product, quantity)
    {
      var k := FindIndex(items, product.id);
      if k > -1 {
        var newQuantity := Min(items[k].quantity + quantity, product.stockQuantity);
        items := items[k := items[k].(quantity := newQuantity)];
      } else {
        items := items + [NewLine(product, quantity)];
      }
      CalculateTotals();
    }

    method UpdateQuantity(productId: int, quantity: int)
      modifies this
      ensures Valid()
      ensures items == SetQuantity(old(items), productId, quantity)
    {
      var k := FindIndex(items, productId);
      if k > -1 {
        if quantity <= 0 {
          items := items[..k] + items[k + 1..];
        } else {
          items := items[k := items[k].(quantity := Min(quantity, items[k].maxQuantity))];
        }
      }
      CalculateTotals();
    }

    /** removeItem: the filter, written as the loop it runs. */
    method RemoveItem(productId: int)
      modifies this
      ensures Valid()
      ensures items == Without(old(items), productId)
    {
      var kept: seq<CartItem> := [];
      var i := 0;
      while i < |items|
        invariant 0 <= i <= |items|
        invariant items == old(items)
        invariant kept == Without(items[..i], productId)
      {
        WithoutAppend(items[..i], [items[i]], productId);
        assert items[..i + 1] == items[..i] + [items[i]];
        assert Without([items[i]], productId) == (if items[i].id == productId then [] else [items[i]]) by {
          assert [items[i]][1..] == [];
        }
        if items[i].id != productId {
          kept := kept + [items[i]];
        }
        i := i + 1;
      }
      assert items[..i] == items;
      items := kept;
      CalculateTotals();
    }

    method ClearCart()
      modifies this
      ensures Valid() && items == [] && total == 0 && itemCount == 0
    {
      items, total, itemCount := [], 0, 0;
    }
  }
}
