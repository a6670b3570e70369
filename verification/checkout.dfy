/**
 * Order creation (`OrderCreateSerializer.validate_items`, `validate` and
 * `create`): request validation, price snapshots, the cashback
 * reservation and the initial totals.
 */
module Checkout {
  import opened Base
  import opened Money
  import opened Ledger
  import opened Catalog
  import opened Orders
  import opened Store

  /** One entry of the request's `items` list; either key of the dict may be missing. */
  datatype ItemRequest = ItemRequest(productId: Option<int>, quantity: Option<int>)

  /** The body of a create-order request (the e-mail address is taken as already validated). */
  datatype OrderRequest = OrderRequest(email: string, items: seq<ItemRequest>, payment: PaymentMethod, useCashback: bool)

  /** The two request headers the client address is read from. */
  datatype RequestMeta = RequestMeta(forwardedFor: Option<string>, remoteAddr: Option<string>)

  datatype CheckoutError =
    | MissingField
    | BadQuantity(productId: int)
    | NoSuchProduct(productId: int)
    | OutOfStock(productId: int)
    | NotEnoughKeys(productId: int)
    | NoItems
    | DuplicateProduct(productId: int)  // raised by the corrected build only
    | LoginRequired
    | ItemIntegrityError                // the database refusing a second row for the same product
    | TotalTypeError                    // `calculate_total` subtracting a float from a Decimal (as written only)

  /** The errors `create` raises after the order row is stored; the view answers them with a server error. */
  predicate ServerFault(e: CheckoutError) {
    e == ItemIntegrityError || e == TotalTypeError
  }

  // ----------------------------------------------------------- validate_items

  /** Everything `validate_items` demands of one entry. */
  predicate Acceptable(products: map<ProductId, Product>, keys: seq<DigitalKey>, rq: ItemRequest) {
    && rq.productId.Some? && rq.quantity.Some?
    && rq.quantity.value >= 1
    && rq.productId.value in products
    && products[rq.productId.value].isActive
    && (var p := products[rq.productId.value];
        && InStock(p, rq.productId.value, keys)
        && (!p.isExternal ==> AvailableKeysCount(p, rq.productId.value, keys) >= rq.quantity.value))
  }

  /** it is the order line created for entry rq: same product and quantity, price snapshotted from the product. */
  predicate Snapshot(products: map<ProductId, Product>, rq: ItemRequest, it: OrderItem) {
    && rq.productId == Some(it.productId)
    && rq.quantity == Some(it.quantity as int)
    && it.productId in products
    && it.price == CurrentPrice(products[it.productId])
  }

  /** Checks one entry in the source's order: fields, quantity, product, stock, key count. */
  function CheckItem(products: map<ProductId, Product>, keys: seq<DigitalKey>, rq: ItemRequest): (r: Result<OrderItem, CheckoutError>)
    ensures r.Ok? <==> Acceptable(products, keys, rq)
    ensures r.Ok? ==> Snapshot(products, rq, r.value)
    ensures rq.productId.None? || rq.quantity.None? ==> r == Err(MissingField)
    ensures r.Err? ==> r.error != ItemIntegrityError
  {
    if rq.productId.None? || rq.quantity.None? then Err(MissingField)
    else
      var pid := rq.productId.value;
      var q := rq.quantity.value;
      if q < 1 then Err(BadQuantity(pid))
      else if pid !in products || !products[pid].isActive then Err(NoSuchProduct(pid))
      else
        var p := products[pid];
        if !InStock(p, pid, keys) then Err(OutOfStock(pid))
        else if !p.isExternal && AvailableKeysCount(p, pid, keys) < q then Err(NotEnoughKeys(pid))
        else Ok(OrderItem(pid, CurrentPrice(p), q))
  }

  /** No two entries name the same product. */
  ghost predicate DistinctRequests(reqs: seq<ItemRequest>) {
    forall i, j :: 0 <= i < j < |reqs| ==> reqs[i].productId != reqs[j].productId
  }

  /**
   * e is what refusing entry rq reports: the error `CheckItem` raises for
   * it, or, in the corrected build, a repeated product for an entry that
   * is otherwise acceptable.
   */
  predicate FirstRefusal(build: Build, products: map<ProductId, Product>, keys: seq<DigitalKey>,
                         rq: ItemRequest, e: CheckoutError) {
    || CheckItem(products, keys, rq) == Err(e)
    || (build == Corrected && Acceptable(products, keys, rq) && e == DuplicateProduct(rq.productId.value))
  }

  /** Entry i is the first refused one, and refusing it reports e. */
  predicate RefusedAt(build: Build, products: map<ProductId, Product>, keys: seq<DigitalKey>,
                      reqs: seq<ItemRequest>, i: int, e: CheckoutError) {
    && 0 <= i < |reqs|
    && (forall j :: 0 <= j < i ==> Acceptable(products, keys, reqs[j]))
    && FirstRefusal(build, products, keys, reqs[i], e)
  }

  /**
   * The loop of `validate_items` over entries, the first refusal winning.
   * The corrected build also refuses an entry whose product an earlier entry
   * (one in `seen`) already named.
   */
  function ValidateEach(build: Build, products: map<ProductId, Product>, keys: seq<DigitalKey>,
                        reqs: seq<ItemRequest>, seen: set<ProductId>): (r: Result<seq<OrderItem>, CheckoutError>)
    ensures r.Ok? ==> |r.value| == |reqs| && forall i :: 0 <= i < |reqs| ==> Snapshot(products, reqs[i], r.value[i])
    ensures r.Ok? <==>
      && (forall i :: 0 <= i < |reqs| ==> Acceptable(products, keys, reqs[i]))
      && (build == Corrected ==> DistinctRequests(reqs))
      && (build == Corrected ==> forall i :: 0 <= i < |reqs| ==> reqs[i].productId.value !in seen)
    ensures r.Err? ==> r.error != ItemIntegrityError
    ensures r.Err? ==> exists i :: RefusedAt(build, products, keys, reqs, i, r.error)
    decreases |reqs|
  {
    if |reqs| == 0 then Ok([])
    else
      match CheckItem(products, keys, reqs[0])
      case Err(e) =>
        assert RefusedAt(build, products, keys, reqs, 0, e);
        Err(e)
      case Ok(it) =>
        if build == Corrected && it.productId in seen then
          assert RefusedAt(build, products, keys, reqs, 0, DuplicateProduct(it.productId));
          Err(DuplicateProduct(it.productId))
        else
          match ValidateEach(build, products, keys, reqs[1..], seen + {it.productId})
          case Err(e) =>
            assert exists i :: RefusedAt(build, products, keys, reqs, i, e) by {
              var i' :| RefusedAt(build, products, keys, reqs[1..], i', e);
              RefusedLater(build, products, keys, reqs, i', e);
            }
            NotAllAcceptedLater(build, products, keys, reqs, seen);
            Err(e)
          case Ok(rest) =>
            NotAllAcceptedLater(build, products, keys, reqs, seen);
            assert forall i :: 1 <= i < |reqs| ==> reqs[i] == reqs[1..][i - 1];
            Ok([it] + rest)
  }

  /** A refusal i entries into the rest, after an acceptable first entry, is a refusal i + 1 entries in. */
  lemma RefusedLater(build: Build, products: map<ProductId, Product>, keys: seq<DigitalKey>,
                     reqs: seq<ItemRequest>, i: int, e: CheckoutError)
    requires |reqs| > 0 && Acceptable(products, keys, reqs[0])
    requires RefusedAt(build, products, keys, reqs[1..], i, e)
    ensures RefusedAt(build, products, keys, reqs, i + 1, e)
  {
    assert forall j :: 1 <= j <= i + 1 ==> reqs[j] == reqs[1..][j - 1];
  }

  /**
   * With the first entry acceptable and its product not yet seen, the whole
   * list passes exactly when the rest passes with that product seen.
   */
  lemma NotAllAcceptedLater(build: Build, products: map<ProductId, Product>, keys: seq<DigitalKey>,
                            reqs: seq<ItemRequest>, seen: set<ProductId>)
    requires |reqs| > 0 && Acceptable(products, keys, reqs[0])
    requires build == Corrected ==> reqs[0].productId.value !in seen
    ensures var rest, seen' := reqs[1..], seen + {reqs[0].productId.value};
      (&& (forall i :: 0 <= i < |reqs| ==> Acceptable(products, keys, reqs[i]))
       && (build == Corrected ==> DistinctRequests(reqs))
       && (build == Corrected ==> forall i :: 0 <= i < |reqs| ==> reqs[i].productId.value !in seen))
      <==>
      (&& (forall i :: 0 <= i < |rest| ==> Acceptable(products, keys, rest[i]))
       && (build == Corrected ==> DistinctRequests(rest))
       && (build == Corrected ==> forall i :: 0 <= i < |rest| ==> rest[i].productId.value !in seen'))
  {
    assert forall i :: 1 <= i < |reqs| ==> reqs[i] == reqs[1..][i - 1];
  }

  /**
   * `validate_items`: every entry acceptable and at least one entry (plus,
   * in the corrected build, no product named twice); each accepted entry
   * becomes an order line priced at the product's current price.
   */
  function ValidateItems(build: Build, products: map<ProductId, Product>, keys: seq<DigitalKey>,
                         reqs: seq<ItemRequest>): (r: Result<seq<OrderItem>, CheckoutError>)
    ensures |reqs| == 0 ==> r == Err(NoItems)
    ensures r.Err? ==> r.error != ItemIntegrityError
    ensures r.Ok? <==>
      && |reqs| > 0
      && (forall i :: 0 <= i < |reqs| ==> Acceptable(products, keys, reqs[i]))
      && (build == Corrected ==> DistinctRequests(reqs))
    ensures r.Ok? ==> |r.value| == |reqs| && forall i :: 0 <= i < |reqs| ==> Snapshot(products, reqs[i], r.value[i])
  {
    match ValidateEach(build, products, keys, reqs, {})
    case Err(e) => Err(e)
    case Ok(items) => if |items| == 0 then Err(NoItems) else Ok(items)
  }

  // ----------------------------------------------------------------- validate

  /** `validate`: cashback needs a logged-in buyer; the order is a guest order exactly when nobody is logged in. */
  function ValidateBuyer(useCashback: bool, auth: Option<UserId>): (r: Result<bool, CheckoutError>)
    ensures r.Err? <==> useCashback && auth.None?
    ensures r.Err? ==> r.error == LoginRequired
    ensures r.Ok? ==> (r.value <==> auth.None?)
  {
    if useCashback && auth.None? then Err(LoginRequired) else Ok(auth.None?)
  }

  /** The text before the first comma (all of s when it has none), as `split(',')[0]` gives it. */
  function FirstField(s: string): (r: string)
    ensures r <= s
    ensures ',' !in r
    ensures |r| == |s| || s[|r|] == ','
    decreases |s|
  {
    if |s| == 0 || s[0] == ',' then "" else [s[0]] + FirstField(s[1..])
  }

  /** The client address: the first X-Forwarded-For entry when that header is non-empty, else REMOTE_ADDR. */
  function ClientIp(meta: RequestMeta): (r: Option<string>)
    ensures meta.forwardedFor.Some? && meta.forwardedFor.value != "" ==>
      r == Some(FirstField(meta.forwardedFor.value))
    ensures !(meta.forwardedFor.Some? && meta.forwardedFor.value != "") ==> r == meta.remoteAddr
  {
    if meta.forwardedFor.Some? && meta.forwardedFor.value != "" then Some(FirstField(meta.forwardedFor.value))
    else meta.remoteAddr
  }

  // ------------------------------------------------------------------- create

  /** Products named by the lines, in order. */
  ghost predicate DistinctLines(items: seq<OrderItem>) {
    forall i, j :: 0 <= i < j < |items| ==> items[i].productId != items[j].productId
  }

  /** The insert of items[k] was the one refused: the rows before it are in, and it repeats a product. */
  ghost predicate StoppedAt(rows: seq<OrderItem>, items: seq<OrderItem>, k: int, kept: seq<OrderItem>) {
    && 0 <= k < |items|
    && kept == rows + items[..k]
    && !DistinctLines(rows + items[..k + 1])
  }

  /**
   * Inserting the order's item rows one at a time. A row for a product the
   * order already has is refused by `unique_together`; the rows inserted
   * before it stay.
   */
  function InsertItems(rows: seq<OrderItem>, items: seq<OrderItem>): (r: (seq<OrderItem>, bool))
    requires DistinctLines(rows)
    ensures DistinctLines(r.0)
    ensures r.1 <==> DistinctLines(rows + items)
    ensures r.1 ==> r.0 == rows + items
    ensures !r.1 ==> exists k :: StoppedAt(rows, items, k, r.0)
    decreases |items|
  {
    if |items| == 0 then
      assert rows + items == rows;
      (rows, true)
    else if HasProduct(rows, items[0].productId) then
      RefusedFirst(rows, items);
      (rows, false)
    else
      AcceptedFirst(rows, items);
      var r := InsertItems(rows + [items[0]], items[1..]);
      assert !r.1 ==> exists k :: StoppedAt(rows, items, k, r.0) by {
        if !r.1 {
          var k :| StoppedAt(rows + [items[0]], items[1..], k, r.0);
          StoppedLater(rows, items, k, r.0);
        }
      }
      r
  }

  /** Inserting all of an order's item rows into an order that has none yet. */
  function InsertAll(items: seq<OrderItem>): (r: (seq<OrderItem>, bool))
    ensures r.1 <==> DistinctLines(items)
    ensures r.1 ==> r.0 == items
    ensures !r.1 ==> exists k :: StoppedAt([], items, k, r.0)
  {
    assert [] + items == items;
    InsertItems([], items)
  }

  /** Some row already names product p. */
  predicate HasProduct(rows: seq<OrderItem>, p: ProductId) {
    exists k :: 0 <= k < |rows| && rows[k].productId == p
  }

  /** A first item whose product is already there is refused before anything is inserted. */
  lemma RefusedFirst(rows: seq<OrderItem>, items: seq<OrderItem>)
    requires |items| > 0 && HasProduct(rows, items[0].productId)
    ensures !DistinctLines(rows + items)
    ensures StoppedAt(rows, items, 0, rows)
  {
    var k :| 0 <= k < |rows| && rows[k].productId == items[0].productId;
    assert (rows + items[..1])[k] == rows[k] && (rows + items[..1])[|rows|] == items[0];
    assert (rows + items)[k] == rows[k] && (rows + items)[|rows|] == items[0];
    assert rows + items[..0] == rows;
  }

  /** A first item with a new product is inserted, and the rest continues from there. */
  lemma AcceptedFirst(rows: seq<OrderItem>, items: seq<OrderItem>)
    requires DistinctLines(rows) && |items| > 0 && !HasProduct(rows, items[0].productId)
    ensures DistinctLines(rows + [items[0]])
    ensures rows + [items[0]] + items[1..] == rows + items
  {
    var rows' := rows + [items[0]];
    forall i, j | 0 <= i < j < |rows'| ensures rows'[i].productId != rows'[j].productId {
      if j == |rows| {
        assert rows'[i] == rows[i];
      }
    }
  }

  /** A refusal k items into the rest is a refusal k + 1 items into the whole. */
  lemma StoppedLater(rows: seq<OrderItem>, items: seq<OrderItem>, k: int, kept: seq<OrderItem>)
    requires |items| > 0 && StoppedAt(rows + [items[0]], items[1..], k, kept)
    ensures StoppedAt(rows, items, k + 1, kept)
  {
    assert rows + [items[0]] + items[1..][..k] == rows + items[..k + 1];
    assert rows + [items[0]] + items[1..][..k + 1] == rows + items[..k + 2];
  }

  /** The cashback `create` reserves: the balance or the total, whichever is smaller, when asked and available. */
  function Reservation(useCashback: bool, balance: Cents, total: Cents): (r: Cents)
    ensures 0 <= r
    ensures r <= balance || r == 0
    ensures r <= total || r == 0
    ensures useCashback && balance > 0 && total > 0 ==> r == Min(balance, total)
    ensures !(useCashback && balance > 0 && total > 0) ==> r == 0
  {
    if useCashback && balance > 0 then
      var use := Min(balance, total);
      if use > 0 then use else 0
    else 0
  }

  /** The order row `create` inserts before any item exists. */
  function FreshOrder(req: OrderRequest, auth: Option<UserId>, isGuest: bool, meta: RequestMeta): (r: Order)
    ensures r.status == Pending && r.items == []
    ensures r.subtotal == 0 && r.total == 0 && r.cashbackUsed == 0 && r.cashbackEarned == 0
    ensures r.userId == auth && r.isGuest == isGuest && r.email == req.email && r.paymentMethod == req.payment
    ensures r.stripeIntentId.None? && r.paidAt.None? && r.fulfilledAt.None?
    ensures r.ipAddress == ClientIp(meta)
  {
    Order(auth, req.email, isGuest, Pending, req.payment, None, [], 0, 0, 0, 0, None, None, ClientIp(meta))
  }

  /** The buyer's balance when a user row is present, otherwise nothing to spend. */
  function BuyerBalance(s: Store, auth: Option<UserId>): Cents {
    if auth.Some? && auth.value in s.users then s.users[auth.value].balance else 0
  }

  /**
   * o is the order `create` hands back for req: PENDING, owned by the
   * buyer, stamped with the client address of the request's metadata, one
   * snapshotted line per entry, the subtotal summed from the
   * lines, the reservation taken off the total, and cashback earned on the
   * gross subtotal.
   */
  ghost predicate NewOrder(s: Store, req: OrderRequest, auth: Option<UserId>, meta: RequestMeta, o: Order) {
    && o.status == Pending && o.userId == auth && (o.isGuest <==> auth.None?)
    && o.paymentMethod == req.payment && o.email == req.email && o.ipAddress == ClientIp(meta)
    && o.stripeIntentId.None? && o.paidAt.None? && o.fulfilledAt.None?
    && |o.items| == |req.items|
    && (forall i :: 0 <= i < |o.items| ==> Snapshot(s.products, req.items[i], o.items[i]))
    && DistinctLines(o.items)
    && o.subtotal == ItemsSubtotal(o.items)
    && o.cashbackUsed == Reservation(req.useCashback, BuyerBalance(s, auth), o.subtotal)
    && (o.total == o.subtotal - o.cashbackUsed || (o.total == 0 && o.subtotal <= 0))
    && (o.isGuest ==> o.cashbackEarned == 0)
    && (!o.isGuest ==> HalfEvenQuotient(o.subtotal * DefaultRate.units, Pow10(DefaultRate.scale), o.cashbackEarned))
  }

  /** The completed order `create` returns once every item row is in. */
  function PricedOrder(s: Store, req: OrderRequest, auth: Option<UserId>, meta: RequestMeta, items: seq<OrderItem>): (r: Order)
    requires |items| == |req.items| && DistinctLines(items)
    requires forall i :: 0 <= i < |items| ==> Snapshot(s.products, req.items[i], items[i])
    ensures NewOrder(s, req, auth, meta, r)
  {
    var o1 := CalculateTotal(FreshOrder(req, auth, auth.None?, meta).(items := items));
    var use := Reservation(req.useCashback, BuyerBalance(s, auth), o1.total);
    var o2 := if use > 0 then CalculateTotal(o1.(cashbackUsed := use)) else o1;
    CalculateCashback(o2, DefaultRate)
  }

  /**
   * `OrderCreateSerializer` end to end: `validate_items`, `validate`, then
   * `create`. A refused request leaves the store as it was. In the corrected
   * build an accepted one adds exactly one PENDING order, one line per
   * entry, and touches nothing else: in particular no balance is debited,
   * the reservation is only recorded. As written, `create` never completes:
   * two entries for the same product make the second item row fail, and
   * otherwise the first `calculate_total` raises; either way the order row
   * and the item rows stored before the failure stay.
   */
  function CreateOrder(build: Build, s: Store, req: OrderRequest, auth: Option<UserId>, meta: RequestMeta, oid: OrderId)
    : (r: (Store, Result<OrderId, CheckoutError>))
    requires oid !in s.orders
    ensures r.1.Ok? || ServerFault(r.1.error) ==>
      oid in r.0.orders && r.0 == s.(orders := s.orders[oid := r.0.orders[oid]])
    ensures r.1.Ok? ==> r.1.value == oid
    ensures r.1.Err? && !ServerFault(r.1.error) ==> r.0 == s
    ensures r.1.Err? && ServerFault(r.1.error) ==> build == AsWritten
    ensures r.1.Ok? <==>
      && ValidateItems(build, s.products, s.keys, req.items).Ok?
      && !(req.useCashback && auth.None?)
      && build == Corrected
    ensures r.1 == Err(TotalTypeError) <==>
      && ValidateItems(build, s.products, s.keys, req.items).Ok?
      && !(req.useCashback && auth.None?)
      && build == AsWritten && DistinctRequests(req.items)
    ensures r.1.Ok? ==> NewOrder(s, req, auth, meta, r.0.orders[oid])
  {
    match ValidateItems(build, s.products, s.keys, req.items)
    case Err(e) => (s, Err(e))
    case Ok(items) =>
      match ValidateBuyer(req.useCashback, auth)
      case Err(e) => (s, Err(e))
      case Ok(_) =>
        SnapshotsDistinct(s.products, req.items, items);
        assert FirstTotalRaises(build, items) <==> build == AsWritten;
        var row := OrderRow(build, s, req, auth, meta, items);
        var s' := s.(orders := s.orders[oid := row.0]);
        assert oid in s'.orders && s'.orders[oid] == row.0;
        (s', if row.1.None? then Ok(oid) else Err(row.1.value))
  }

  /**
   * `Order.objects.create` does not pass `cashback_used`, so the attribute
   * keeps the field default, the float `0.00`. The first `calculate_total`
   * subtracts it from the subtotal, which is a Decimal once the order has
   * an item (the sum of no items is the integer 0), and Python refuses to
   * subtract a float from a Decimal. The corrected build defaults to a
   * Decimal zero.
   */
  predicate FirstTotalRaises(build: Build, items: seq<OrderItem>) {
    build == AsWritten && |items| > 0
  }

  /**
   * The `create` step for validated lines: the order row goes in first,
   * then its item rows one by one, then the totals. The second component is
   * the error that stopped it, if any. When an item row is refused the
   * order row keeps the rows before it; when the totals raise it keeps all
   * of them. Either way the totals are never computed.
   */
  function OrderRow(build: Build, s: Store, req: OrderRequest, auth: Option<UserId>, meta: RequestMeta, items: seq<OrderItem>)
    : (r: (Order, Option<CheckoutError>))
    requires |items| == |req.items| && forall i :: 0 <= i < |items| ==> Snapshot(s.products, req.items[i], items[i])
    ensures r.1.None? <==> DistinctLines(items) && !FirstTotalRaises(build, items)
    ensures r.1.None? ==> NewOrder(s, req, auth, meta, r.0)
    ensures r.1 == Some(ItemIntegrityError) <==> !DistinctLines(items)
    ensures r.1 == Some(TotalTypeError) <==> DistinctLines(items) && FirstTotalRaises(build, items)
    ensures r.1.Some? ==>
      && r.0.userId == auth && r.0.isGuest == auth.None? && r.0.email == req.email
      && r.0.paymentMethod == req.payment && r.0.ipAddress == ClientIp(meta)
      && r.0.stripeIntentId.None? && r.0.paidAt.None? && r.0.fulfilledAt.None? && r.0.cashbackUsed == 0
    ensures r.1.Some? ==> r.0.status == Pending && r.0.subtotal == 0 && r.0.total == 0 && r.0.cashbackEarned == 0
    ensures r.1 == Some(ItemIntegrityError) ==> exists k :: StoppedAt([], items, k, r.0.items)
    ensures r.1 == Some(TotalTypeError) ==> r.0.items == items
  {
    var ins := InsertAll(items);
    if !ins.1 then (FreshOrder(req, auth, auth.None?, meta).(items := ins.0), Some(ItemIntegrityError))
    else if FirstTotalRaises(build, items) then (FreshOrder(req, auth, auth.None?, meta).(items := items), Some(TotalTypeError))
    else (PricedOrder(s, req, auth, meta, items), None)
  }

  /** Lines snapshotted from the entries name distinct products exactly when the entries do. */
  lemma SnapshotsDistinct(products: map<ProductId, Product>, reqs: seq<ItemRequest>, items: seq<OrderItem>)
    requires |items| == |reqs| && forall i :: 0 <= i < |reqs| ==> Snapshot(products, reqs[i], items[i])
    ensures DistinctLines(items) <==> DistinctRequests(reqs)
  {
  }

  /** As written, naming a product twice stores an orphan PENDING order with zero totals and reports a server error. */
  lemma DuplicateEntriesLeaveOrphanOrder(s: Store, req: OrderRequest, auth: Option<UserId>, meta: RequestMeta, oid: OrderId)
    requires oid !in s.orders
    requires ValidateItems(AsWritten, s.products, s.keys, req.items).Ok?
    requires !(req.useCashback && auth.None?)
    requires !DistinctRequests(req.items)
    ensures var r := CreateOrder(AsWritten, s, req, auth, meta, oid);
      && r.1 == Err(ItemIntegrityError)
      && oid in r.0.orders
      && r.0.orders[oid].status == Pending
      && r.0.orders[oid].total == 0
      && r.0.orders[oid].subtotal == 0
      && exists k :: StoppedAt([], ValidateItems(AsWritten, s.products, s.keys, req.items).value, k, r.0.orders[oid].items)
  {
  }

  /**
   * As written, every request that passes validation with distinct products
   * stores a PENDING order holding all its item rows, with zero totals, and
   * then fails with the TypeError from `calculate_total`.
   */
  lemma AsWrittenCreateRaisesOnTotal(s: Store, req: OrderRequest, auth: Option<UserId>, meta: RequestMeta, oid: OrderId)
    requires oid !in s.orders
    requires ValidateItems(AsWritten, s.products, s.keys, req.items).Ok?
    requires !(req.useCashback && auth.None?)
    requires DistinctRequests(req.items)
    ensures var r := CreateOrder(AsWritten, s, req, auth, meta, oid);
      && r.1 == Err(TotalTypeError)
      && oid in r.0.orders
      && r.0.orders[oid].status == Pending
      && r.0.orders[oid].total == 0
      && r.0.orders[oid].subtotal == 0
      && r.0.orders[oid].items == ValidateItems(AsWritten, s.products, s.keys, req.items).value
  {
  }

  /**
   * In the corrected build every request that passes validation creates
   * its order: PENDING, one snapshotted line per entry, priced.
   */
  lemma CorrectedCreateSucceeds(s: Store, req: OrderRequest, auth: Option<UserId>, meta: RequestMeta, oid: OrderId)
    requires oid !in s.orders
    requires ValidateItems(Corrected, s.products, s.keys, req.items).Ok?
    requires !(req.useCashback && auth.None?)
    ensures var r := CreateOrder(Corrected, s, req, auth, meta, oid);
      && r.1 == Ok(oid)
      && r.0 == s.(orders := s.orders[oid := r.0.orders[oid]])
      && NewOrder(s, req, auth, meta, r.0.orders[oid])
  {
  }

  /** In the corrected build a refused request never leaves anything behind. */
  lemma CorrectedCreateFailsCleanly(s: Store, req: OrderRequest, auth: Option<UserId>, meta: RequestMeta, oid: OrderId)
    requires oid !in s.orders
    ensures var r := CreateOrder(Corrected, s, req, auth, meta, oid);
      r.1.Err? ==> r.0 == s
  {
  }

  /**
   * The reservation never exceeds the buyer's balance, and with a
   * non-negative subtotal the total lies between zero and the subtotal.
   */
  lemma ReservationWithinBalance(build: Build, s: Store, req: OrderRequest, auth: Option<UserId>, meta: RequestMeta, oid: OrderId)
    requires oid !in s.orders
    requires auth.Some? ==> auth.value in s.users
    requires CreateOrder(build, s, req, auth, meta, oid).1.Ok?
    ensures var o := CreateOrder(build, s, req, auth, meta, oid).0.orders[oid];
      && 0 <= o.cashbackUsed
      && (auth.Some? ==> o.cashbackUsed <= s.users[auth.value].balance || o.cashbackUsed == 0)
      && (auth.None? || !req.useCashback ==> o.cashbackUsed == 0)
      && (o.subtotal >= 0 ==> 0 <= o.total <= o.subtotal)
  {
  }

  /**
   * With every product's prices valid, a created order's rows are valid
   * order items, one per product, so the subtotal is at least a cent per line.
   */
  lemma CreatedOrderItemsValid(build: Build, s: Store, req: OrderRequest, auth: Option<UserId>, meta: RequestMeta, oid: OrderId)
    requires oid !in s.orders
    requires forall p :: p in s.products ==> PricesValid(s.products[p])
    requires CreateOrder(build, s, req, auth, meta, oid).1.Ok?
    ensures var o := CreateOrder(build, s, req, auth, meta, oid).0.orders[oid];
      ItemsValid(o.items) && o.subtotal >= |o.items|
  {
    var o := CreateOrder(build, s, req, auth, meta, oid).0.orders[oid];
    assert NewOrder(s, req, auth, meta, o);
    assert forall i :: 0 <= i < |req.items| ==> Acceptable(s.products, s.keys, req.items[i]);
    forall i | 0 <= i < |o.items|
      ensures ItemValid(o.items[i])
    {
      assert Snapshot(s.products, req.items[i], o.items[i]);
      assert Acceptable(s.products, s.keys, req.items[i]);
    }
    SubtotalAtLeastLines(o.items);
  }
}
