/**
 * The browser cart (`CartContext`): a sequence of lines, one per product id,
 * each a copy of the product's fields at the time it was added plus a
 * quantity. Prices are integer cents.
 */
module Cart {
  import opened Base
  import opened Catalog
  import opened Orders
  import opened Store
  import opened Checkout

  /** The product fields a cart line copies. */
  datatype CartProduct = CartProduct(id: ProductId, price: Cents, salePrice: Option<Cents>)

  datatype CartLine = CartLine(id: ProductId, price: Cents, salePrice: Option<Cents>, quantity: int)

  type Cart = seq<CartLine>

  /** Every product id occurs on at most one line. */
  ghost predicate DistinctIds(c: Cart) {
    forall i, j :: 0 <= i < j < |c| ==> c[i].id != c[j].id
  }

  /** `findIndex`: the first line with that id, or -1. */
  function FindIndex(c: Cart, id: ProductId): (r: int)
    ensures -1 <= r < |c|
    ensures r == -1 <==> forall i :: 0 <= i < |c| ==> c[i].id != id
    ensures r >= 0 ==> c[r].id == id && forall j :: 0 <= j < r ==> c[j].id != id
    decreases |c|
  {
    if |c| == 0 then -1
    else if c[0].id == id then 0
    else
      var k := FindIndex(c[1..], id);
      if k == -1 then -1 else k + 1
  }

  /**
   * `addToCart`: a product already in the cart gets the quantity added to
   * its first line, in place; a new product is appended as a new line.
   */
  function AddToCart(c: Cart, p: CartProduct, q: int): (r: Cart)
    ensures (exists i :: 0 <= i < |c| && c[i].id == p.id) ==>
      && |r| == |c|
      && exists k :: 0 <= k < |c| && c[k].id == p.id
           && (forall j :: 0 <= j < k ==> c[j].id != p.id)
           && r[k] == c[k].(quantity := c[k].quantity + q)
           && (forall j :: 0 <= j < |c| && j != k ==> r[j] == c[j])
    ensures (forall i :: 0 <= i < |c| ==> c[i].id != p.id) ==>
      r == c + [CartLine(p.id, p.price, p.salePrice, q)]
  {
    var k := FindIndex(c, p.id);
    if k >= 0 then c[k := c[k].(quantity := c[k].quantity + q)]
    else c + [CartLine(p.id, p.price, p.salePrice, q)]
  }

  /** `removeFromCart`: the lines with that id go, the others stay in their order. */
  function RemoveFromCart(c: Cart, id: ProductId): (r: Cart)
    ensures forall i :: 0 <= i < |r| ==> r[i].id != id
    ensures |r| <= |c|
    ensures (forall i :: 0 <= i < |c| ==> c[i].id != id) ==> r == c
    decreases |c|
  {
    if |c| == 0 then []
    else if c[0].id == id then RemoveFromCart(c[1..], id)
    else [c[0]] + RemoveFromCart(c[1..], id)
  }

  /** `updateQuantity`: a quantity of zero or less removes the product; otherwise its line gets that quantity. */
  function UpdateQuantity(c: Cart, id: ProductId, q: int): (r: Cart)
    ensures q <= 0 ==> r == RemoveFromCart(c, id)
    ensures q > 0 ==> |r| == |c| && forall i :: 0 <= i < |c| ==>
      r[i] == (if c[i].id == id then c[i].(quantity := q) else c[i])
  {
    if q <= 0 then RemoveFromCart(c, id)
    else SetQuantity(c, id, q)
  }

  function SetQuantity(c: Cart, id: ProductId, q: int): (r: Cart)
    ensures |r| == |c|
    ensures forall i :: 0 <= i < |c| ==> r[i] == (if c[i].id == id then c[i].(quantity := q) else c[i])
    decreases |c|
  {
    if |c| == 0 then []
    else [if c[0].id == id then c[0].(quantity := q) else c[0]] + SetQuantity(c[1..], id, q)
  }

  /** `clearCart`. */
  function ClearCart(): (r: Cart)
    ensures |r| == 0
  {
    []
  }

  /** Every line holds at least n units. */
  predicate QuantitiesAtLeast(c: Cart, n: int) {
    forall i :: 0 <= i < |c| ==> c[i].quantity >= n
  }

  /** `getCartCount`: the total quantity over all lines. */
  function CartCount(c: Cart): (r: int)
    ensures QuantitiesAtLeast(c, 0) ==> r >= 0
    ensures QuantitiesAtLeast(c, 1) ==> r >= |c|
    decreases |c|
  {
    if |c| == 0 then 0 else c[0].quantity + CartCount(c[1..])
  }

  /** JavaScript `sale_price || price`: a sale price arrives as a decimal string, and any such string is truthy. */
  function LinePrice(l: CartLine): (r: Cents)
    ensures l.salePrice.Some? ==> r == l.salePrice.value
    ensures l.salePrice.None? ==> r == l.price
  {
    if l.salePrice.Some? then l.salePrice.value else l.price
  }

  /** Every line's price is at least zero. */
  predicate PricesNonNegative(c: Cart) {
    forall i :: 0 <= i < |c| ==> LinePrice(c[i]) >= 0
  }

  /** `getSubtotal`: the sum of line price times quantity. */
  function CartSubtotal(c: Cart): (r: int)
    ensures QuantitiesAtLeast(c, 0) && PricesNonNegative(c) ==> r >= 0
    decreases |c|
  {
    if |c| == 0 then 0 else LinePrice(c[0]) * c[0].quantity + CartSubtotal(c[1..])
  }

  /** `getOrderItems`: one request entry per line, in cart order. */
  function GetOrderItems(c: Cart): (r: seq<ItemRequest>)
    ensures |r| == |c|
    ensures forall i :: 0 <= i < |c| ==> r[i] == ItemRequest(Some(c[i].id), Some(c[i].quantity))
  {
    seq(|c|, i requires 0 <= i < |c| => ItemRequest(Some(c[i].id), Some(c[i].quantity)))
  }

  // ---------------------------------------------------------------- lemmas

  lemma {:induction false} CountConcat(a: Cart, b: Cart)
    ensures CartCount(a + b) == CartCount(a) + CartCount(b)
    decreases |a|
  {
    if |a| == 0 {
      assert a + b == b;
    } else {
      assert (a + b)[1..] == a[1..] + b;
      CountConcat(a[1..], b);
    }
  }

  /** Changing one line's quantity changes the count by the difference. */
  lemma CountReplace(c: Cart, k: int, l: CartLine)
    requires 0 <= k < |c|
    ensures CartCount(c[k := l]) == CartCount(c) - c[k].quantity + l.quantity
  {
    assert c == c[..k] + [c[k]] + c[k + 1..];
    assert c[k := l] == c[..k] + [l] + c[k + 1..];
    CountConcat(c[..k] + [c[k]], c[k + 1..]);
    CountConcat(c[..k], [c[k]]);
    CountConcat(c[..k] + [l], c[k + 1..]);
    CountConcat(c[..k], [l]);
  }

  /** Adding q units of a product raises the count by q, whether or not the product was in the cart. */
  lemma AddRaisesCount(c: Cart, p: CartProduct, q: int)
    ensures CartCount(AddToCart(c, p, q)) == CartCount(c) + q
  {
    var k := FindIndex(c, p.id);
    if k >= 0 {
      assert AddToCart(c, p, q) == c[k := c[k].(quantity := c[k].quantity + q)];
      CountReplace(c, k, c[k].(quantity := c[k].quantity + q));
    } else {
      assert AddToCart(c, p, q) == c + [CartLine(p.id, p.price, p.salePrice, q)];
      CountConcat(c, [CartLine(p.id, p.price, p.salePrice, q)]);
    }
  }

  /** Adding keeps one line per product. */
  lemma AddKeepsDistinct(c: Cart, p: CartProduct, q: int)
    requires DistinctIds(c)
    ensures DistinctIds(AddToCart(c, p, q))
  {
  }

  /** Removal keeps exactly the lines of other products: nothing else is added and none of them is lost. */
  lemma {:induction false} RemoveKeepsOthers(c: Cart, id: ProductId)
    ensures forall l :: l in RemoveFromCart(c, id) <==> l in c && l.id != id
    decreases |c|
  {
    if |c| > 0 {
      RemoveKeepsOthers(c[1..], id);
      assert forall l :: l in c <==> l == c[0] || l in c[1..];
    }
  }

  /** Removing keeps one line per product. */
  lemma {:induction false} RemoveKeepsDistinct(c: Cart, id: ProductId)
    requires DistinctIds(c)
    ensures DistinctIds(RemoveFromCart(c, id))
    decreases |c|
  {
    if |c| > 0 {
      RemoveKeepsDistinct(c[1..], id);
      var rest := RemoveFromCart(c[1..], id);
      if c[0].id != id {
        RemoveKeepsOthers(c[1..], id);
        forall j | 0 <= j < |rest|
          ensures rest[j].id != c[0].id
        {
          assert rest[j] in c[1..];
        }
      }
    }
  }

  /** Changing a quantity keeps one line per product. */
  lemma UpdateKeepsDistinct(c: Cart, id: ProductId, q: int)
    requires DistinctIds(c)
    ensures DistinctIds(UpdateQuantity(c, id, q))
  {
    if q <= 0 {
      RemoveKeepsDistinct(c, id);
    }
  }

  /** A suffix of a cart with one line per product has one line per product, none of them the head's. */
  lemma TailDistinct(c: Cart)
    requires DistinctIds(c) && |c| > 0
    ensures DistinctIds(c[1..])
    ensures forall i :: 0 <= i < |c[1..]| ==> c[1..][i].id != c[0].id
  {
    var tail := c[1..];
    forall i, j | 0 <= i < j < |tail| ensures tail[i].id != tail[j].id {
      assert tail[i] == c[i + 1] && tail[j] == c[j + 1];
    }
    forall i | 0 <= i < |tail| ensures tail[i].id != c[0].id {
      assert tail[i] == c[i + 1];
    }
  }

  /** In a cart with one line per product, removing a present product drops exactly its line. */
  lemma {:induction false} RemoveDropsLine(c: Cart, k: int)
    requires DistinctIds(c) && 0 <= k < |c|
    ensures RemoveFromCart(c, c[k].id) == c[..k] + c[k + 1..]
    decreases |c|
  {
    var id := c[k].id;
    var tail := c[1..];
    TailDistinct(c);
    if k == 0 {
      assert RemoveFromCart(c, id) == RemoveFromCart(tail, id) == tail;
      assert c[..0] + c[1..] == tail;
    } else {
      assert tail[k - 1] == c[k];
      RemoveDropsLine(tail, k - 1);
      assert RemoveFromCart(c, id) == [c[0]] + (tail[..k - 1] + tail[k..]);
      assert tail[..k - 1] + tail[k..] == c[1..k] + c[k + 1..];
      assert c[..k] + c[k + 1..] == [c[0]] + (c[1..k] + c[k + 1..]);
    }
  }

  /** Adding a product and then removing it is the same as just removing it. */
  lemma {:induction false} RemoveUndoesAdd(c: Cart, p: CartProduct, q: int)
    ensures RemoveFromCart(AddToCart(c, p, q), p.id) == RemoveFromCart(c, p.id)
  {
    var k := FindIndex(c, p.id);
    if k >= 0 {
      assert AddToCart(c, p, q) == c[k := c[k].(quantity := c[k].quantity + q)];
      RemoveSameIgnoringLine(c, k, c[k].(quantity := c[k].quantity + q));
    } else {
      assert AddToCart(c, p, q) == c + [CartLine(p.id, p.price, p.salePrice, q)];
      RemoveAppended(c, CartLine(p.id, p.price, p.salePrice, q));
    }
  }

  /** Replacing a line of the removed product does not change what removal leaves. */
  lemma {:induction false} RemoveSameIgnoringLine(c: Cart, k: int, l: CartLine)
    requires 0 <= k < |c| && l.id == c[k].id
    ensures RemoveFromCart(c[k := l], l.id) == RemoveFromCart(c, l.id)
    decreases |c|
  {
    if k > 0 {
      assert c[k := l][1..] == c[1..][k - 1 := l];
      RemoveSameIgnoringLine(c[1..], k - 1, l);
    } else {
      assert c[k := l][1..] == c[1..];
    }
  }

  /** Removal ignores a trailing line of the removed product. */
  lemma {:induction false} RemoveAppended(c: Cart, l: CartLine)
    ensures RemoveFromCart(c + [l], l.id) == RemoveFromCart(c, l.id)
    decreases |c|
  {
    if |c| == 0 {
      assert (c + [l])[1..] == [];
    } else {
      assert (c + [l])[1..] == c[1..] + [l];
      RemoveAppended(c[1..], l);
    }
  }

  /** Setting the quantity of a present product moves the count by the difference. */
  lemma UpdateChangesCount(c: Cart, k: int, q: int)
    requires DistinctIds(c) && 0 <= k < |c| && q > 0
    ensures CartCount(UpdateQuantity(c, c[k].id, q)) == CartCount(c) - c[k].quantity + q
  {
    assert UpdateQuantity(c, c[k].id, q) == c[k := c[k].(quantity := q)];
    CountReplace(c, k, c[k].(quantity := q));
  }

  // ------------------------------------------------------- cart versus order

  /** The cart line carries the store's current fields for its product. */
  ghost predicate LineMatches(products: map<ProductId, Product>, l: CartLine) {
    l.id in products && products[l.id].price == l.price && products[l.id].salePrice == l.salePrice
    && PricesValid(products[l.id])
  }

  /** For a product whose prices pass the model validators, the cart's price is the current price. */
  lemma LinePriceIsCurrentPrice(products: map<ProductId, Product>, l: CartLine)
    requires LineMatches(products, l)
    ensures LinePrice(l) == CurrentPrice(products[l.id])
  {
  }

  /**
   * The cart and the server price a line alike except in one case: a sale
   * price of zero, which the cart takes as the price and the server ignores.
   */
  lemma CartPriceDiffersOnlyOnZeroSale(p: Product, l: CartLine)
    requires l.price == p.price && l.salePrice == p.salePrice
    ensures LinePrice(l) != CurrentPrice(p) <==> p.salePrice == Some(0) && p.price != 0
  {
  }

  lemma {:induction false} SubtotalsAgree(items: seq<OrderItem>, c: Cart)
    requires |items| == |c|
    requires forall i :: 0 <= i < |c| ==> LineTotal(items[i]) == LinePrice(c[i]) * c[i].quantity
    ensures ItemsSubtotal(items) == CartSubtotal(c)
    decreases |c|
  {
    if |c| > 0 {
      SubtotalsAgree(items[1..], c[1..]);
    }
  }

  /**
   * When every cart line carries its product's current prices, the order
   * created from the cart has exactly the subtotal the cart showed.
   */
  lemma {:induction false} OrderSubtotalMatchesCart(build: Build, s: Store, c: Cart, email: string, payment: PaymentMethod,
                                                    useCashback: bool, auth: Option<UserId>, meta: RequestMeta, oid: OrderId)
    requires oid !in s.orders
    requires forall i :: 0 <= i < |c| ==> LineMatches(s.products, c[i])
    requires CreateOrder(build, s, OrderRequest(email, GetOrderItems(c), payment, useCashback), auth, meta, oid).1.Ok?
    ensures var (r, _) := CreateOrder(build, s, OrderRequest(email, GetOrderItems(c), payment, useCashback), auth, meta, oid);
      r.orders[oid].subtotal == CartSubtotal(c)
  {
    var req := OrderRequest(email, GetOrderItems(c), payment, useCashback);
    var (r, _) := CreateOrder(build, s, req, auth, meta, oid);
    var o := r.orders[oid];
    assert NewOrder(s, req, auth, meta, o);
    forall i | 0 <= i < |c|
      ensures LineTotal(o.items[i]) == LinePrice(c[i]) * c[i].quantity
    {
      assert Snapshot(s.products, req.items[i], o.items[i]);
      LinePriceIsCurrentPrice(s.products, c[i]);
    }
    SubtotalsAgree(o.items, c);
  }
}
