/**
 * Fulfilment of a paid order (`OrderViewSet._fulfill_order` and
 * `_get_external_key`): key allocation per item, the FULFILLED transition,
 * the cashback credit and the confirmation e-mail.
 */
module Fulfilment {
  import opened Base
  import opened Ledger
  import opened Catalog
  import opened Orders
  import opened Store

  // ---------------------------------------------------------------- key codes

  function Digit(d: nat): char
    requires d < 10
  {
    (48 + d) as char
  }

  /** Decimal text of a natural number. */
  function NatText(n: nat): (r: string)
    ensures 1 <= |r|
    ensures n < 10 <==> |r| == 1
    ensures forall i :: 0 <= i < |r| ==> '0' <= r[i] <= '9'
    decreases n
  {
    if n < 10 then [Digit(n)] else NatText(n / 10) + [Digit(n % 10)]
  }

  /** Different numbers have different decimal texts. */
  lemma {:induction false} NatTextInjective(a: nat, b: nat)
    requires NatText(a) == NatText(b)
    ensures a == b
    decreases a
  {
    if a >= 10 && b >= 10 {
      var ta, tb := NatText(a), NatText(b);
      assert ta[..|ta| - 1] == NatText(a / 10);
      assert tb[..|tb| - 1] == NatText(b / 10);
      assert ta[|ta| - 1] == Digit(a % 10);
      assert tb[|tb| - 1] == Digit(b % 10);
      NatTextInjective(a / 10, b / 10);
    } else if a < 10 && b < 10 {
      assert NatText(a)[0] == Digit(a);
      assert NatText(b)[0] == Digit(b);
    }
  }

  /** Text of a product id (ids are positive in practice, but the type allows any int). */
  function IdText(p: ProductId): string {
    if p >= 0 then NatText(p) else "-" + NatText(-p)
  }

  /** The code `_get_external_key` gives every key it creates: `EXTERNAL-DEMO-KEY-{order}-{product}`. */
  function ExternalKeyCode(o: OrderId, p: ProductId): (r: string)
    ensures |r| > 19 && r[..18] == "EXTERNAL-DEMO-KEY-"
  {
    "EXTERNAL-DEMO-KEY-" + (NatText(o) + "-" + IdText(p))
  }

  /** Every character of a is a decimal digit. */
  predicate AllDigits(a: string) {
    forall i :: 0 <= i < |a| ==> '0' <= a[i] <= '9'
  }

  /** A run of digits followed by a dash splits uniquely: the dash after the digits is the first one. */
  lemma SplitAfterDigits(a: string, x: string, b: string, y: string)
    requires AllDigits(a) && AllDigits(b)
    requires a + "-" + x == b + "-" + y
    ensures a == b && x == y
  {
    var l, r := a + "-" + x, b + "-" + y;
    assert l[|a|] == '-' && r[|b|] == '-';
    assert |a| == |b|;
    assert a == l[..|a|] && b == r[..|b|];
    assert x == l[|a| + 1..] && y == r[|b| + 1..];
  }

  /** Different product ids have different texts, the sign included. */
  lemma IdTextInjective(p: ProductId, q: ProductId)
    requires IdText(p) == IdText(q)
    ensures p == q
  {
    assert IdText(p)[0] == '-' <==> p < 0;
    assert IdText(q)[0] == '-' <==> q < 0;
    if p >= 0 {
      NatTextInjective(p, q);
    } else {
      assert NatText(-p) == IdText(p)[1..] && NatText(-q) == IdText(q)[1..];
      NatTextInjective(-p, -q);
    }
  }

  /** What follows the fixed prefix of an external key code. */
  lemma ExternalKeyCodeTail(o: OrderId, p: ProductId)
    ensures |ExternalKeyCode(o, p)| >= 18
    ensures ExternalKeyCode(o, p)[18..] == NatText(o) + "-" + IdText(p)
  {
    var prefix := "EXTERNAL-DEMO-KEY-";
    assert |prefix| == 18;
    assert (prefix + (NatText(o) + "-" + IdText(p)))[18..] == NatText(o) + "-" + IdText(p);
  }

  /**
   * The code `_get_external_key` writes determines the order and the
   * product: two keys of different orders, or of different products, never
   * share a code.
   */
  lemma ExternalKeyCodeInjective(o1: OrderId, p1: ProductId, o2: OrderId, p2: ProductId)
    requires ExternalKeyCode(o1, p1) == ExternalKeyCode(o2, p2)
    ensures o1 == o2 && p1 == p2
  {
    ExternalKeyCodeTail(o1, p1);
    ExternalKeyCodeTail(o2, p2);
    SplitAfterDigits(NatText(o1), IdText(p1), NatText(o2), IdText(p2));
    NatTextInjective(o1, o2);
    IdTextInjective(p1, p2);
  }

  /** The repaired scheme: the unit number of the item is appended, so each unit gets its own code. */
  function ExternalUnitKeyCode(o: OrderId, p: ProductId, u: nat): string {
    ExternalKeyCode(o, p) + "-" + NatText(u)
  }

  /** Different units of the same item get different repaired codes. */
  lemma ExternalUnitCodesDistinct(o: OrderId, p: ProductId, u: nat, v: nat)
    requires u != v
    ensures ExternalUnitKeyCode(o, p, u) != ExternalUnitKeyCode(o, p, v)
  {
    var prefix := ExternalKeyCode(o, p) + "-";
    assert ExternalUnitKeyCode(o, p, u) == prefix + NatText(u);
    assert ExternalUnitKeyCode(o, p, v) == prefix + NatText(v);
    if prefix + NatText(u) == prefix + NatText(v) {
      assert (prefix + NatText(u))[|prefix|..] == NatText(u);
      assert (prefix + NatText(v))[|prefix|..] == NatText(v);
      NatTextInjective(u, v);
      assert false;
    }
  }

  function ExternalCode(build: Build, o: OrderId, p: ProductId, u: nat): string {
    if build == AsWritten then ExternalKeyCode(o, p) else ExternalUnitKeyCode(o, p, u)
  }

  /** The already-sold key row `_get_external_key` inserts for unit u of an item. */
  function ExternalKey(build: Build, o: OrderId, p: ProductId, u: nat, now: Timestamp): DigitalKey {
    DigitalKey(p, ExternalCode(build, o, p, u), true, Some(now), Some(o))
  }

  // ------------------------------------------------------------ key evolution

  /**
   * r extends keys the way fulfilment for order o may: existing rows are kept
   * or (if unsold) marked sold to o, and appended rows are sold to o.
   */
  ghost predicate Evolves(keys: seq<DigitalKey>, r: seq<DigitalKey>, o: OrderId, now: Timestamp) {
    && |keys| <= |r|
    && (forall i :: 0 <= i < |keys| ==>
          r[i] == keys[i] || (!keys[i].isSold && r[i] == MarkAsSold(keys[i], o, now)))
    && (forall i :: |keys| <= i < |r| ==> r[i].isSold && r[i].orderId == Some(o))
  }

  lemma EvolvesTrans(a: seq<DigitalKey>, b: seq<DigitalKey>, c: seq<DigitalKey>, o: OrderId, now: Timestamp)
    requires Evolves(a, b, o, now) && Evolves(b, c, o, now)
    ensures Evolves(a, c, o, now)
  {
    forall i | 0 <= i < |a|
      ensures c[i] == a[i] || (!a[i].isSold && c[i] == MarkAsSold(a[i], o, now))
    {
      if b[i] != a[i] {
        assert b[i].isSold;
      }
    }
  }

  lemma {:induction false} UnsoldCountConcat(a: seq<DigitalKey>, b: seq<DigitalKey>, p: ProductId)
    ensures UnsoldCount(a + b, p) == UnsoldCount(a, p) + UnsoldCount(b, p)
    decreases |a|
  {
    if |a| == 0 {
      assert a + b == b;
    } else {
      assert (a + b)[1..] == a[1..] + b;
      UnsoldCountConcat(a[1..], b, p);
    }
  }

  lemma {:induction false} NoUnsoldAmongSold(b: seq<DigitalKey>, p: ProductId)
    requires forall i :: 0 <= i < |b| ==> b[i].isSold
    ensures UnsoldCount(b, p) == 0
    decreases |b|
  {
    if |b| > 0 {
      NoUnsoldAmongSold(b[1..], p);
    }
  }

  // --------------------------------------------------------- external items

  /**
   * Inserts the keys for units u .. q-1 of an external item. Returns the key
   * rows after the attempt and whether every insert succeeded; an insert
   * refused by the slot constraint stops the loop, and the rows inserted
   * before it stay.
   */
  function AddExternalKeys(build: Build, keys: seq<DigitalKey>, o: OrderId, p: ProductId, u: nat, q: nat, now: Timestamp)
    : (r: (seq<DigitalKey>, bool))
    ensures Evolves(keys, r.0, o, now)
    ensures r.0[..|keys|] == keys
    ensures forall i :: |keys| <= i < |r.0| ==> r.0[i].productId == p
    ensures UniqueSlots(keys) ==> UniqueSlots(r.0)
    ensures r.1 ==> |r.0| == |keys| + (if u < q then q - u else 0)
    decreases q - u
  {
    if u >= q then (keys, true)
    else
      match CreateKey(keys, ExternalKey(build, o, p, u, now))
      case Err(_) => (keys, false)
      case Ok(k1) =>
        var r := AddExternalKeys(build, k1, o, p, u + 1, q, now);
        assert r.0[..|keys|] == r.0[..|k1|][..|keys|];
        r
  }

  /** Appending sold rows leaves every product's unsold count as it was. */
  lemma ExternalKeysKeepUnsold(build: Build, keys: seq<DigitalKey>, o: OrderId, p: ProductId, u: nat, q: nat, now: Timestamp, p': ProductId)
    ensures UnsoldCount(AddExternalKeys(build, keys, o, p, u, q, now).0, p') == UnsoldCount(keys, p')
  {
    var r := AddExternalKeys(build, keys, o, p, u, q, now).0;
    assert r == keys + r[|keys|..];
    UnsoldCountConcat(keys, r[|keys|..], p');
    NoUnsoldAmongSold(r[|keys|..], p');
  }

  /** As written, an external item with two or more units can never be fulfilled. */
  lemma ExternalQuantityTwoFails(keys: seq<DigitalKey>, o: OrderId, p: ProductId, q: nat, now: Timestamp)
    requires q >= 2
    ensures !AddExternalKeys(AsWritten, keys, o, p, 0, q, now).1
  {
    var k0 := ExternalKey(AsWritten, o, p, 0, now);
    var k1 := ExternalKey(AsWritten, o, p, 1, now);
    match CreateKey(keys, k0)
    case Err(_) =>
    case Ok(keys1) =>
      assert keys1[|keys|] == k0 && SameSlot(k0, k1);
      assert CreateKey(keys1, k1).Err?;
  }

  /** No existing row holds a code that units u .. q-1 of the item would use. */
  ghost predicate ExternalSlotsFree(keys: seq<DigitalKey>, o: OrderId, p: ProductId, u: nat, q: nat, now: Timestamp) {
    forall i, v :: 0 <= i < |keys| && u <= v < q ==> !SameSlot(keys[i], ExternalKey(Corrected, o, p, v, now))
  }

  /** With per-unit codes, an item whose codes are all free gets exactly one new key per unit. */
  lemma {:induction false} ExternalDistinctCodesSucceed(keys: seq<DigitalKey>, o: OrderId, p: ProductId, u: nat, q: nat, now: Timestamp)
    requires ExternalSlotsFree(keys, o, p, u, q, now)
    ensures AddExternalKeys(Corrected, keys, o, p, u, q, now).1
    decreases q - u
  {
    if u < q {
      var k := ExternalKey(Corrected, o, p, u, now);
      assert CreateKey(keys, k).Ok?;
      var keys1 := keys + [k];
      forall i, v | 0 <= i < |keys1| && u + 1 <= v < q
        ensures !SameSlot(keys1[i], ExternalKey(Corrected, o, p, v, now))
      {
        if i == |keys| {
          ExternalUnitCodesDistinct(o, p, u, v);
        }
      }
      ExternalDistinctCodesSucceed(keys1, o, p, u + 1, q, now);
    }
  }

  // ------------------------------------------------------------ all items

  /** Total quantity the items ask for of product p. */
  function Demand(items: seq<OrderItem>, p: ProductId): nat
    decreases |items|
  {
    if |items| == 0 then 0
    else (if items[0].productId == p then items[0].quantity else 0) + Demand(items[1..], p)
  }

  /** The demand that must come out of p's unsold keys: zero for external or unknown products. */
  function InternalDemand(products: map<ProductId, Product>, items: seq<OrderItem>, p: ProductId): nat {
    if p in products && !products[p].isExternal then Demand(items, p) else 0
  }

  /** Units the items ask of external products: the keys fulfilment creates rather than sells. */
  function ExternalUnits(products: map<ProductId, Product>, items: seq<OrderItem>): nat
    decreases |items|
  {
    if |items| == 0 then 0
    else (if items[0].productId in products && products[items[0].productId].isExternal then items[0].quantity else 0)
         + ExternalUnits(products, items[1..])
  }

  /**
   * The allocation loop of `_fulfill_order` over the order's items. It stops
   * at the first item that cannot be served (unknown product, too few unsold
   * keys, or a refused external key insert) and reports false; whatever the
   * earlier items changed is kept. On success the unsold keys of every
   * internal product drop by exactly the quantity the items ask for.
   */
  function AllocateItems(build: Build, products: map<ProductId, Product>, keys: seq<DigitalKey>,
                         o: OrderId, items: seq<OrderItem>, now: Timestamp): (r: (seq<DigitalKey>, bool))
    ensures Evolves(keys, r.0, o, now)
    ensures UniqueSlots(keys) ==> UniqueSlots(r.0)
    ensures r.1 ==> forall p :: UnsoldCount(r.0, p) == UnsoldCount(keys, p) - InternalDemand(products, items, p)
    ensures r.1 ==> |r.0| == |keys| + ExternalUnits(products, items)
    decreases |items|
  {
    if |items| == 0 then (keys, true)
    else
      var it := items[0];
      var p := it.productId;
      if p !in products then (keys, false)
      else if products[p].isExternal then
        var (k1, ok) := AddExternalKeys(build, keys, o, p, 0, it.quantity, now);
        if !ok then (k1, false)
        else
          var r := AllocateItems(build, products, k1, o, items[1..], now);
          EvolvesTrans(keys, k1, r.0, o, now);
          assert forall p' :: UnsoldCount(k1, p') == UnsoldCount(keys, p') by {
            forall p' ensures UnsoldCount(k1, p') == UnsoldCount(keys, p') {
              ExternalKeysKeepUnsold(build, keys, o, p, 0, it.quantity, now, p');
            }
          }
          r
      else if UnsoldCount(keys, p) < it.quantity then (keys, false)
      else
        var k1 := Allocate(keys, p, it.quantity, o, now);
        assert Evolves(keys, k1, o, now);
        SlotsKeptBySale(keys, k1, p, o, now);
        var r := AllocateItems(build, products, k1, o, items[1..], now);
        EvolvesTrans(keys, k1, r.0, o, now);
        r
  }

  lemma SlotsKeptBySale(keys: seq<DigitalKey>, r: seq<DigitalKey>, p: ProductId, o: OrderId, now: Timestamp)
    requires SoldFrom(keys, r, p, o, now)
    ensures UniqueSlots(keys) ==> UniqueSlots(r)
  {
    if UniqueSlots(keys) {
      forall i | 0 <= i < |keys| ensures SameSlot(r[i], keys[i]) {
      }
      SlotsKept(keys, r);
    }
  }

  // ------------------------------------------------------------- the order

  /**
   * `_fulfill_order`. An order that is missing, unpaid or already fulfilled is
   * left alone and false is returned. Otherwise keys are allocated item by
   * item; on success the order becomes FULFILLED, the earned cashback is
   * credited once, and a confirmation e-mail is queued. On failure the order
   * stays as it was; as written the keys already allocated stay sold, while
   * the corrected build discards the whole attempt.
   */
  function FulfillOrder(build: Build, s: Store, oid: OrderId, now: Timestamp): (r: (Store, bool))
    ensures oid !in s.orders || !IsPaid(s.orders[oid]) || IsFulfilled(s.orders[oid]) ==> r == (s, false)
    ensures r.1 ==> oid in s.orders && r.0.orders == s.orders[oid := MarkAsFulfilled(s.orders[oid], now)]
    ensures r.1 ==> r.0.users == AddCashbackToUser(MarkAsFulfilled(s.orders[oid], now), s.users)
    ensures r.1 ==> r.0.outbox == s.outbox + [oid]
    ensures !r.1 ==> r.0 == s.(keys := r.0.keys)
    ensures build == Corrected && !r.1 ==> r.0 == s
    ensures r.0.products == s.products
    ensures Evolves(s.keys, r.0.keys, oid, now)
    ensures Valid(s) ==> Valid(r.0)
    ensures r.1 ==> forall p ::
      UnsoldCount(r.0.keys, p) == UnsoldCount(s.keys, p) - InternalDemand(s.products, s.orders[oid].items, p)
    ensures r.1 ==> |r.0.keys| == |s.keys| + ExternalUnits(s.products, s.orders[oid].items)
  {
    if oid !in s.orders then (s, false)
    else
      var o := s.orders[oid];
      if !IsPaid(o) || IsFulfilled(o) then (s, false)
      else
        var (keys', ok) := AllocateItems(build, s.products, s.keys, oid, o.items, now);
        if !ok then
          (if build == Corrected then s else s.(keys := keys'), false)
        else
          var o' := MarkAsFulfilled(o, now);
          (s.(keys := keys', orders := s.orders[oid := o'], users := AddCashbackToUser(o', s.users),
              outbox := s.outbox + [oid]), true)
  }

  /** Once fulfilment succeeds, calling it again changes nothing: keys and cashback go out once. */
  lemma FulfilmentAtMostOnce(build: Build, s: Store, oid: OrderId, now: Timestamp, later: Timestamp)
    requires FulfillOrder(build, s, oid, now).1
    ensures var s1 := FulfillOrder(build, s, oid, now).0;
      FulfillOrder(build, s1, oid, later) == (s1, false)
  {
    var s1 := FulfillOrder(build, s, oid, now).0;
    assert IsFulfilled(s1.orders[oid]);
  }

  /**
   * In the corrected build a failed attempt leaves no trace, so of any two
   * consecutive attempts at most one changes the store.
   */
  lemma CorrectedRetryAllocatesOnce(s: Store, oid: OrderId, t1: Timestamp, t2: Timestamp)
    ensures var (s1, ok1) := FulfillOrder(Corrected, s, oid, t1);
      var (s2, ok2) := FulfillOrder(Corrected, s1, oid, t2);
      && !(ok1 && ok2)
      && (!ok1 ==> s1 == s)
      && (ok1 ==> s2 == s1)
  {
    var (s1, ok1) := FulfillOrder(Corrected, s, oid, t1);
    if ok1 {
      FulfilmentAtMostOnce(Corrected, s, oid, t1, t2);
    }
  }
}
