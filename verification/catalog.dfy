/**
 * Products and the digital-key inventory (`Product.current_price`,
 * `discount_percentage`, `in_stock`, `available_keys_count`,
 * `DigitalKey.mark_as_sold` and the `(product, key_code)` uniqueness).
 */
module Catalog {
  import opened Base
  import opened Money

  /** The product fields the order lifecycle reads. */
  datatype Product = Product(price: Cents, salePrice: Option<Cents>, isActive: bool, isExternal: bool)

  /** The model validators on `price` and `sale_price`: both at least 0.01. */
  predicate PricesValid(p: Product) {
    p.price >= 1 && (p.salePrice.Some? ==> p.salePrice.value >= 1)
  }

  /** Python truthiness: a sale price of 0.00 counts as no sale price. */
  predicate OnSale(p: Product) {
    p.salePrice.Some? && p.salePrice.value != 0
  }

  /** The price a buyer pays now: the sale price when one is set, otherwise the list price. */
  function CurrentPrice(p: Product): (r: Cents)
    ensures OnSale(p) ==> r == p.salePrice.value
    ensures !OnSale(p) ==> r == p.price
    ensures PricesValid(p) ==> r >= 1
  {
    if OnSale(p) then p.salePrice.value else p.price
  }

  /** The advertised discount, a whole percentage rounded half to even; 0 without a sale or a positive price. */
  function DiscountPercentage(p: Product): (r: int)
    ensures !(OnSale(p) && p.price > 0) ==> r == 0
    ensures OnSale(p) && p.price > 0 ==>
      HalfEvenQuotient((p.price - p.salePrice.value) * 100, p.price, r)
  {
    if OnSale(p) && p.price > 0 then
      DivHalfEven((p.price - p.salePrice.value) * 100, p.price)
    else 0
  }

  /**
   * For a positive list price the discount is always the rounded percentage
   * saved by paying the current price, whether or not a sale is on.
   */
  lemma DiscountIsSavingOnCurrentPrice(p: Product)
    requires p.price > 0
    ensures HalfEvenQuotient((p.price - CurrentPrice(p)) * 100, p.price, DiscountPercentage(p))
  {
    if !OnSale(p) {
      assert (p.price - CurrentPrice(p)) * 100 == 0;
    }
  }

  /** A sale price between 0.01 and the list price gives a discount between 0 and 100 percent. */
  lemma DiscountBounds(p: Product)
    requires PricesValid(p) && CurrentPrice(p) <= p.price
    ensures 0 <= DiscountPercentage(p) <= 100
  {
    DiscountIsSavingOnCurrentPrice(p);
    HalfEvenWithin((p.price - CurrentPrice(p)) * 100, p.price, DiscountPercentage(p), 0, 100);
  }

  /** A digital key; `soldAt` and `orderId` are the nullable `sold_at` and `order` columns. */
  datatype DigitalKey = DigitalKey(
    productId: ProductId,
    code: string,
    isSold: bool,
    soldAt: Option<Timestamp>,
    orderId: Option<OrderId>)

  predicate Unsold(k: DigitalKey, p: ProductId) {
    k.productId == p && !k.isSold
  }

  /** Number of unsold keys of product p: `keys.filter(is_sold=False).count()`. */
  function UnsoldCount(keys: seq<DigitalKey>, p: ProductId): nat
    decreases |keys|
  {
    if |keys| == 0 then 0
    else (if Unsold(keys[0], p) then 1 else 0) + UnsoldCount(keys[1..], p)
  }

  /** The unsold count is positive exactly when some unsold key of p exists. */
  lemma {:induction false} UnsoldCountPositive(keys: seq<DigitalKey>, p: ProductId)
    ensures UnsoldCount(keys, p) > 0 <==> exists i :: 0 <= i < |keys| && Unsold(keys[i], p)
    decreases |keys|
  {
    if |keys| > 0 {
      UnsoldCountPositive(keys[1..], p);
      if exists i :: 0 <= i < |keys[1..]| && Unsold(keys[1..][i], p) {
        var i :| 0 <= i < |keys[1..]| && Unsold(keys[1..][i], p);
        assert Unsold(keys[i + 1], p);
      }
      if exists i :: 0 <= i < |keys| && Unsold(keys[i], p) {
        var i :| 0 <= i < |keys| && Unsold(keys[i], p);
        if i > 0 {
          assert Unsold(keys[1..][i - 1], p);
        }
      }
    }
  }

  /** External products are always in stock; internal ones when an unsold key of theirs exists. */
  function InStock(p: Product, pid: ProductId, keys: seq<DigitalKey>): (r: bool)
    ensures r <==> p.isExternal || exists i :: 0 <= i < |keys| && Unsold(keys[i], pid)
  {
    p.isExternal || exists i :: 0 <= i < |keys| && Unsold(keys[i], pid)
  }

  /** The constant 999 for external products, otherwise the number of unsold keys. */
  function AvailableKeysCount(p: Product, pid: ProductId, keys: seq<DigitalKey>): (r: nat)
    ensures p.isExternal ==> r == 999
    ensures !p.isExternal ==> r == UnsoldCount(keys, pid)
  {
    if p.isExternal then 999 else UnsoldCount(keys, pid)
  }

  /** `in_stock` and `available_keys_count` agree: a product is in stock iff its count is positive. */
  lemma InStockIffAvailable(p: Product, pid: ProductId, keys: seq<DigitalKey>)
    ensures InStock(p, pid, keys) <==> AvailableKeysCount(p, pid, keys) > 0
  {
    UnsoldCountPositive(keys, pid);
  }

  /** `mark_as_sold`: the key becomes sold at `now` to order o; its product and code stay. */
  function MarkAsSold(k: DigitalKey, o: OrderId, now: Timestamp): (r: DigitalKey)
    ensures r.isSold && r.soldAt == Some(now) && r.orderId == Some(o)
    ensures r.productId == k.productId && r.code == k.code
  {
    k.(isSold := true, soldAt := Some(now), orderId := Some(o))
  }

  /** Two keys occupying the same `(product, key_code)` slot. */
  predicate SameSlot(a: DigitalKey, b: DigitalKey) {
    a.productId == b.productId && a.code == b.code
  }

  /** The `unique_together = ('product', 'key_code')` constraint. */
  ghost predicate UniqueSlots(keys: seq<DigitalKey>) {
    forall i, j :: 0 <= i < j < |keys| ==> !SameSlot(keys[i], keys[j])
  }

  datatype KeyError = IntegrityError

  /** Inserting a key row: the database refuses a row whose slot is taken. */
  function CreateKey(keys: seq<DigitalKey>, k: DigitalKey): (r: Result<seq<DigitalKey>, KeyError>)
    ensures r.Err? <==> exists i :: 0 <= i < |keys| && SameSlot(keys[i], k)
    ensures r.Ok? ==> r.value == keys + [k]
    ensures r.Ok? && UniqueSlots(keys) ==> UniqueSlots(r.value)
  {
    if exists i :: 0 <= i < |keys| && SameSlot(keys[i], k) then Err(IntegrityError)
    else Ok(keys + [k])
  }

  /** r keeps every row of keys in place: same length, and each row is unchanged or is an unsold key of p now sold to o at now. */
  ghost predicate SoldFrom(keys: seq<DigitalKey>, r: seq<DigitalKey>, p: ProductId, o: OrderId, now: Timestamp) {
    && |r| == |keys|
    && forall i :: 0 <= i < |keys| ==>
         r[i] == keys[i] || (Unsold(keys[i], p) && r[i] == MarkAsSold(keys[i], o, now))
  }

  /**
   * The internal branch of fulfilment for one item: the first q unsold keys of
   * p (in store order) are marked sold to o. Sold keys and keys of other
   * products are untouched, and the unsold count of p drops by q (or to zero).
   */
  function Allocate(keys: seq<DigitalKey>, p: ProductId, q: nat, o: OrderId, now: Timestamp): (r: seq<DigitalKey>)
    ensures SoldFrom(keys, r, p, o, now)
    ensures UnsoldCount(r, p) == UnsoldCount(keys, p) - Min(q, UnsoldCount(keys, p))
    ensures forall p' :: p' != p ==> UnsoldCount(r, p') == UnsoldCount(keys, p')
    decreases |keys|
  {
    if |keys| == 0 then []
    else
      var rest := keys[1..];
      if q > 0 && Unsold(keys[0], p) then
        var tail := Allocate(rest, p, q - 1, o, now);
        var r := [MarkAsSold(keys[0], o, now)] + tail;
        assert r[1..] == tail;
        r
      else
        var tail := Allocate(rest, p, q, o, now);
        var r := [keys[0]] + tail;
        assert r[1..] == tail;
        r
  }

  /** Rewriting rows in place without touching product or code keeps the slots unique. */
  lemma SlotsKept(keys: seq<DigitalKey>, r: seq<DigitalKey>)
    requires |r| == |keys|
    requires forall i :: 0 <= i < |keys| ==> SameSlot(r[i], keys[i])
    requires UniqueSlots(keys)
    ensures UniqueSlots(r)
  {
    forall i, j | 0 <= i < j < |r|
      ensures !SameSlot(r[i], r[j])
    {
      assert SameSlot(r[i], keys[i]) && SameSlot(r[j], keys[j]);
    }
  }
}
