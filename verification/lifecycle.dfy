/**
 * Properties of the order lifecycle that span several endpoints: what a
 * second confirmation or a late failure event does to a settled order, the
 * monotone status progression the corrected build keeps, and a few small
 * worked stores.
 */
module Lifecycle {
  import opened Base
  import opened Money
  import opened Ledger
  import opened Catalog
  import opened Orders
  import opened Store
  import opened Fulfilment
  import opened Checkout
  import opened Payments

  // ------------------------------------------------- confirming a settled order

  /**
   * As written, confirming an order that is already FULFILLED either leaves
   * it moved back to PAID, or delivers it a second time: another
   * confirmation e-mail and another cashback credit.
   */
  lemma ConfirmAfterFulfilmentRefulfils(s: Store, rq: Requester, oid: OrderId, now: Timestamp)
    requires oid in s.orders && IsFulfilled(s.orders[oid]) && Visible(rq, s.orders[oid])
    ensures var (r, http) := ConfirmPayment(AsWritten, s, Some(rq), oid, ConfirmRequest(Some("PAYPAL"), None), ProviderFailure, now);
      && http == Ok200
      && r.orders[oid].paidAt == Some(now)
      && ((r.orders[oid].status == Paid && !OrdersAdvance(s, r))
          || (r.orders[oid].status == Fulfilled
              && r.outbox == s.outbox + [oid]
              && r.users == AddCashbackToUser(s.orders[oid], s.users)))
  {
    var o := s.orders[oid];
    var s1 := s.(orders := s.orders[oid := MarkAsPaid(o, now)]);
    var (r, ok) := FulfillOrder(AsWritten, s1, oid, now);
    assert IsPaid(s1.orders[oid]) && !IsFulfilled(s1.orders[oid]);
    if ok {
      assert MarkAsFulfilled(s1.orders[oid], now).cashbackEarned == o.cashbackEarned;
      assert EarnsCashback(MarkAsFulfilled(s1.orders[oid], now), s.users) <==> EarnsCashback(o, s.users);
    } else {
      assert r.orders[oid].status == Paid;
      assert !Advances(o.status, r.orders[oid].status);
    }
  }

  /** In the corrected build confirming a fulfilled order changes nothing. */
  lemma CorrectedConfirmOnFulfilledIsNoop(s: Store, rq: Requester, oid: OrderId, req: ConfirmRequest,
                                          answer: IntentAnswer, now: Timestamp)
    requires oid in s.orders && IsFulfilled(s.orders[oid])
    ensures ConfirmPayment(Corrected, s, Some(rq), oid, req, answer, now).0 == s
  {
  }

  /** As written, a failure event for a paid or fulfilled order turns it into a FAILED one. */
  lemma FailureEventDemotesPaidOrder(s: Store, oid: OrderId, now: Timestamp)
    requires oid in s.orders && IsPaid(s.orders[oid])
    ensures var (r, http) := HandleWebhook(AsWritten, s, true, PaymentFailed(Some(oid)), now);
      http == Ok200 && r.orders[oid].status == Failed && !IsPaid(r.orders[oid]) && !OrdersAdvance(s, r)
  {
    var r := HandleWebhook(AsWritten, s, true, PaymentFailed(Some(oid)), now).0;
    assert !Advances(s.orders[oid].status, r.orders[oid].status);
  }

  // --------------------------------------------------- the corrected lifecycle

  /** Paying and fulfilling in the corrected build moves every order forward. */
  lemma CorrectedPayAndFulfilAdvances(s: Store, oid: OrderId, now: Timestamp)
    requires oid in s.orders
    ensures OrdersAdvance(s, PayAndFulfil(Corrected, s, oid, now))
  {
    var r := PayAndFulfil(Corrected, s, oid, now);
    CorrectedPayAndFulfil(s, oid, now);
    forall o | o in s.orders
      ensures Advances(s.orders[o].status, r.orders[o].status)
    {
      if o != oid {
        assert r.orders[o] == s.orders[o];
      }
    }
  }

  /** In the corrected build no confirmation moves an order backwards. */
  lemma CorrectedConfirmAdvances(s: Store, rq: Option<Requester>, oid: OrderId, req: ConfirmRequest,
                                 answer: IntentAnswer, now: Timestamp)
    ensures OrdersAdvance(s, ConfirmPayment(Corrected, s, rq, oid, req, answer, now).0)
  {
    var (r, http) := ConfirmPayment(Corrected, s, rq, oid, req, answer, now);
    if http == Ok200 {
      CorrectedPayAndFulfilAdvances(s, oid, now);
    }
  }

  /** In the corrected build no webhook event moves an order backwards. */
  lemma CorrectedWebhookAdvances(s: Store, signatureValid: bool, ev: WebhookEvent, now: Timestamp)
    ensures OrdersAdvance(s, HandleWebhook(Corrected, s, signatureValid, ev, now).0)
  {
    var r := HandleWebhook(Corrected, s, signatureValid, ev, now).0;
    if signatureValid {
      match ev
      case PaymentSucceeded(ref) =>
        if ref.Some? && ref.value in s.orders && !IsPaid(s.orders[ref.value]) {
          CorrectedPayAndFulfilAdvances(s, ref.value, now);
        }
      case PaymentFailed(ref) =>
        if ref.Some? && ref.value in s.orders {
          forall o | o in s.orders
            ensures Advances(s.orders[o].status, r.orders[o].status)
          {
            if o != ref.value {
              assert r.orders[o] == s.orders[o];
            }
          }
        }
      case OtherEvent =>
    }
  }

  /** In the corrected build a paid order stays paid (or refunded) whatever event or confirmation arrives. */
  lemma CorrectedPaidStaysPaid(s: Store, oid: OrderId, signatureValid: bool, ev: WebhookEvent,
                               rq: Option<Requester>, req: ConfirmRequest, answer: IntentAnswer, now: Timestamp)
    requires oid in s.orders && IsPaid(s.orders[oid])
    ensures var r := HandleWebhook(Corrected, s, signatureValid, ev, now).0;
      oid in r.orders && r.orders[oid].status in {Paid, Fulfilled, Refunded}
    ensures var r := ConfirmPayment(Corrected, s, rq, oid, req, answer, now).0;
      oid in r.orders && r.orders[oid].status in {Paid, Fulfilled, Refunded}
  {
    CorrectedWebhookAdvances(s, signatureValid, ev, now);
    CorrectedConfirmAdvances(s, rq, oid, req, answer, now);
    var r1 := HandleWebhook(Corrected, s, signatureValid, ev, now).0;
    var r2 := ConfirmPayment(Corrected, s, rq, oid, req, answer, now).0;
    AdvancingKeepsPaid(s.orders[oid].status, r1.orders[oid].status);
    AdvancingKeepsPaid(s.orders[oid].status, r2.orders[oid].status);
  }

  /**
   * A Stripe or PayPal order records the reserved cashback without any
   * balance ever being debited for it: neither creation nor a later
   * confirmation or webhook lowers a balance.
   */
  lemma ReservationDebitedOnlyOnCashbackPath(build: Build, s: Store, req: OrderRequest, auth: Option<UserId>,
                                             meta: RequestMeta, oid: OrderId, stripe: StripeCreation, now: Timestamp,
                                             rq: Option<Requester>, creq: ConfirmRequest, answer: IntentAnswer, later: Timestamp)
    requires oid !in s.orders
    requires req.payment != CashbackOnly
    ensures var (s1, _, _) := PlaceOrder(build, s, req, auth, meta, oid, stripe, now);
      && s1.users == s.users
      && NoDebit(s1, ConfirmPayment(build, s1, rq, oid, creq, answer, later).0)
  {
    var (s1, _, _) := PlaceOrder(build, s, req, auth, meta, oid, stripe, now);
    var (r, http) := ConfirmPayment(build, s1, rq, oid, creq, answer, later);
    if http == Ok200 {
      assert r == PayAndFulfil(build, s1, oid, later);
    }
  }

  // ------------------------------------------------------------ worked stores

  const Buyer: UserId := 1
  const Game: ProductId := 10
  const Dlc: ProductId := 11
  const Ord: OrderId := 7

  function UnsoldKey(p: ProductId, code: string): DigitalKey {
    DigitalKey(p, code, false, None, None)
  }

  function PaidOrder(items: seq<OrderItem>, earned: Cents): Order {
    Order(Some(Buyer), "buyer@example.com", false, Paid, PayPal, None, items,
          ItemsSubtotal(items), 0, ItemsSubtotal(items), earned, Some(1), None, None)
  }

  function ShopWith(keys: seq<DigitalKey>, o: Order, balance: Cents): Store {
    Store(map[Buyer := User("buyer@example.com", balance, [])],
          map[Game := Product(2000, None, true, false), Dlc := Product(500, None, true, false)],
          keys, map[Ord := o], [])
  }

  /**
   * Three keys of a game ordered while only two are left: fulfilment fails
   * and the order stays PAID with no e-mail and no cashback credit.
   */
  lemma ShortStockLeavesOrderPaid(build: Build)
    ensures var s := ShopWith([UnsoldKey(Game, "A"), UnsoldKey(Game, "B")], PaidOrder([OrderItem(Game, 2000, 3)], 300), 0);
      var (r, ok) := FulfillOrder(build, s, Ord, 5);
      && !ok && r.orders[Ord].status == Paid && r.outbox == [] && r.users == s.users && r.keys == s.keys
  {
    var s := ShopWith([UnsoldKey(Game, "A"), UnsoldKey(Game, "B")], PaidOrder([OrderItem(Game, 2000, 3)], 300), 0);
    assert s.keys[1..][1..] == [];
    assert UnsoldCount(s.keys[1..], Game) == 1;
  }

  /**
   * A game that is in stock followed by a DLC that is not: as written the
   * game's key stays sold to the order although the order is never
   * fulfilled.
   */
  lemma PartialAllocationKept()
    ensures var s := ShopWith([UnsoldKey(Game, "A")], PaidOrder([OrderItem(Game, 2000, 1), OrderItem(Dlc, 500, 1)], 125), 0);
      var (r, ok) := FulfillOrder(AsWritten, s, Ord, 5);
      && !ok && r.orders[Ord].status == Paid
      && r.keys == [MarkAsSold(UnsoldKey(Game, "A"), Ord, 5)]
  {
    GameThenMissingDlc(AsWritten);
  }

  /** The same store in the corrected build: the failed attempt leaves every key unsold. */
  lemma CorrectedPartialAllocationDiscarded()
    ensures var s := ShopWith([UnsoldKey(Game, "A")], PaidOrder([OrderItem(Game, 2000, 1), OrderItem(Dlc, 500, 1)], 125), 0);
      FulfillOrder(Corrected, s, Ord, 5) == (s, false)
  {
    GameThenMissingDlc(Corrected);
  }

  /** The allocation loop on that store: the game's key is sold, then the DLC stops it. */
  lemma GameThenMissingDlc(build: Build)
    ensures var s := ShopWith([UnsoldKey(Game, "A")], PaidOrder([OrderItem(Game, 2000, 1), OrderItem(Dlc, 500, 1)], 125), 0);
      AllocateItems(build, s.products, s.keys, Ord, s.orders[Ord].items, 5) == ([MarkAsSold(UnsoldKey(Game, "A"), Ord, 5)], false)
  {
    var s := ShopWith([UnsoldKey(Game, "A")], PaidOrder([OrderItem(Game, 2000, 1), OrderItem(Dlc, 500, 1)], 125), 0);
    var items := s.orders[Ord].items;
    assert UnsoldCount(s.keys, Game) == 1;
    var k1 := Allocate(s.keys, Game, 1, Ord, 5);
    assert k1 == [MarkAsSold(UnsoldKey(Game, "A"), Ord, 5)];
    assert UnsoldCount(k1, Dlc) == 0;
    assert AllocateItems(build, s.products, k1, Ord, items[1..], 5) == (k1, false);
  }

  /**
   * A fulfilled order confirmed once more, with a spare key in stock: as
   * written the buyer gets a second key and the cashback a second time.
   */
  lemma SecondConfirmationPaysTwice()
    ensures var s := ShopWith([MarkAsSold(UnsoldKey(Game, "A"), Ord, 3), UnsoldKey(Game, "B")],
                              PaidOrder([OrderItem(Game, 2000, 1)], 100).(status := Fulfilled), 100);
      var (r, http) := ConfirmPayment(AsWritten, s, Some(Requester(Buyer, false)), Ord, ConfirmRequest(Some("PAYPAL"), None), ProviderFailure, 5);
      && http == Ok200
      && r.keys[1] == MarkAsSold(UnsoldKey(Game, "B"), Ord, 5)
      && r.users[Buyer].balance == 200
      && r.outbox == [Ord]
  {
    var s := ShopWith([MarkAsSold(UnsoldKey(Game, "A"), Ord, 3), UnsoldKey(Game, "B")],
                      PaidOrder([OrderItem(Game, 2000, 1)], 100).(status := Fulfilled), 100);
    var rq := Requester(Buyer, false);
    ConfirmAfterFulfilmentRefulfils(s, rq, Ord, 5);
    var s1 := s.(orders := s.orders[Ord := MarkAsPaid(s.orders[Ord], 5)]);
    assert s.keys[1..][1..] == [];
    assert UnsoldCount(s.keys[1..], Game) == 1;
    assert UnsoldCount(s.keys, Game) == 1;
    var k1 := Allocate(s.keys, Game, 1, Ord, 5);
    assert k1[1] == MarkAsSold(UnsoldKey(Game, "B"), Ord, 5);
    var items := s1.orders[Ord].items;
    assert AllocateItems(AsWritten, s1.products, s.keys, Ord, items, 5) == (k1, true);
    assert FulfillOrder(AsWritten, s1, Ord, 5).1;
  }

  /**
   * Totals of an order with a 50.00 subtotal and 20.00 cashback used: 30.00
   * to pay, and 2.50 earned on the gross subtotal.
   */
  lemma TotalsScenario(o: Order)
    requires o.items == [OrderItem(Game, 2500, 2)] && o.cashbackUsed == 2000 && !o.isGuest
    ensures var r := CalculateCashback(CalculateTotal(o), DefaultRate);
      r.subtotal == 5000 && r.total == 3000 && r.cashbackEarned == 250
  {
    assert ItemsSubtotal(o.items) == 5000 by {
      assert o.items[1..] == [];
    }
    DefaultRateExamples();
  }

  /** A registered buyer with 50.00 of cashback, and one key of a 20.00 game in stock. */
  function CashbackShop(): Store {
    Store(map[Buyer := User("buyer@example.com", 5000, [])],
          map[Game := Product(2000, None, true, false)],
          [UnsoldKey(Game, "A")], map[], [])
  }

  /** One unit of the game, paid with cashback only. */
  function CashbackRequest(): OrderRequest {
    OrderRequest("buyer@example.com", [ItemRequest(Some(Game), Some(1))], CashbackOnly, true)
  }

  /**
   * The buyer orders the game with cashback only. In the corrected build
   * the order is created, paid from the balance without a payment session,
   * and fulfilled; the buyer ends with 50.00 - 20.00 + 1.00 earned. As
   * written, the first `calculate_total` raises: the answer is a 500, and
   * only a PENDING order with zero totals is left behind; no key is sold,
   * no balance moves and no mail is queued.
   */
  lemma CashbackOnlyScenario(build: Build)
    ensures var s := CashbackShop();
      var (r, http, reply) := PlaceOrder(build, s, CashbackRequest(), Some(Buyer), RequestMeta(None, None), Ord, StripeDeclined, 5);
      build == Corrected ==>
        && http == Created201 && reply == Some(PaidWithCashback)
        && Ord in r.orders && r.orders[Ord].status == Fulfilled
        && r.keys == [MarkAsSold(UnsoldKey(Game, "A"), Ord, 5)]
        && Buyer in r.users && r.users[Buyer].balance == 3100
        && r.outbox == [Ord]
    ensures var s := CashbackShop();
      var (r, http, reply) := PlaceOrder(build, s, CashbackRequest(), Some(Buyer), RequestMeta(None, None), Ord, StripeDeclined, 5);
      build == AsWritten ==>
        && http == ServerError500 && reply == None
        && Ord in r.orders && r.orders[Ord].status == Pending && r.orders[Ord].total == 0
        && r.keys == s.keys && r.users == s.users && r.outbox == []
  {
    var s := CashbackShop();
    if build == Corrected {
      var (s1, res) := CreateOrder(build, s, CashbackRequest(), Some(Buyer), RequestMeta(None, None), Ord);
      CashbackOrderCreated();
      CashbackOrderSettled(build, s1);
      var (s2, reply) := PreparePayment(build, s1, Ord, StripeDeclined, 5);
      assert PlaceOrder(build, s, CashbackRequest(), Some(Buyer), RequestMeta(None, None), Ord, StripeDeclined, 5)
          == (s2, Created201, Some(reply));
    } else {
      var (s1, res) := CreateOrder(build, s, CashbackRequest(), Some(Buyer), RequestMeta(None, None), Ord);
      CashbackOrderRaises();
      assert PlaceOrder(build, s, CashbackRequest(), Some(Buyer), RequestMeta(None, None), Ord, StripeDeclined, 5)
          == (s1, ServerError500, None);
    }
  }

  /** The cashback-only request passes validation as one line at the game's price. */
  lemma CashbackItemsValid(build: Build)
    ensures ValidateItems(build, CashbackShop().products, CashbackShop().keys, CashbackRequest().items)
         == Ok([OrderItem(Game, 2000, 1)])
  {
    var s := CashbackShop();
    var req := CashbackRequest();
    assert Unsold(s.keys[0], Game);
    assert UnsoldCount(s.keys, Game) == 1;
    var items := [OrderItem(Game, 2000, 1)];
    assert CheckItem(s.products, s.keys, req.items[0]) == Ok(items[0]);
    assert req.items[1..] == [];
    assert ValidateEach(build, s.products, s.keys, req.items[1..], {} + {Game}) == Ok([]);
    assert [items[0]] + [] == items;
  }

  /** In the corrected build, creating the cashback-only order reserves the whole 20.00 and leaves nothing to pay. */
  lemma CashbackOrderCreated()
    ensures var (s1, res) := CreateOrder(Corrected, CashbackShop(), CashbackRequest(), Some(Buyer), RequestMeta(None, None), Ord);
      && res == Ok(Ord)
      && Ord in s1.orders
      && s1 == CashbackShop().(orders := map[Ord := s1.orders[Ord]])
      && var o := s1.orders[Ord];
      && o.userId == Some(Buyer) && !o.isGuest && o.status == Pending && o.paymentMethod == CashbackOnly
      && o.items == [OrderItem(Game, 2000, 1)]
      && o.cashbackUsed == 2000 && o.total == 0 && o.cashbackEarned == 100
  {
    var s := CashbackShop();
    var req := CashbackRequest();
    var meta := RequestMeta(None, None);
    var items := [OrderItem(Game, 2000, 1)];
    var row := OrderRow(Corrected, s, req, Some(Buyer), meta, items);
    assert CreateOrder(Corrected, s, req, Some(Buyer), meta, Ord) == (s.(orders := s.orders[Ord := row.0]), Ok(Ord))
        && NewOrder(s, req, Some(Buyer), meta, row.0) by {
      CashbackItemsValid(Corrected);
      assert DistinctRequests(req.items);
      assert DistinctLines(items);
    }
    CashbackOrderFields(row.0);
  }

  /** As written, creating the cashback-only order stores it unpriced and raises from `calculate_total`. */
  lemma CashbackOrderRaises()
    ensures var (s1, res) := CreateOrder(AsWritten, CashbackShop(), CashbackRequest(), Some(Buyer), RequestMeta(None, None), Ord);
      && res == Err(TotalTypeError)
      && Ord in s1.orders
      && s1 == CashbackShop().(orders := map[Ord := s1.orders[Ord]])
      && s1.orders[Ord].status == Pending && s1.orders[Ord].total == 0
      && s1.orders[Ord].items == [OrderItem(Game, 2000, 1)]
  {
    var s := CashbackShop();
    var req := CashbackRequest();
    CashbackItemsValid(AsWritten);
    assert DistinctRequests(req.items);
    AsWrittenCreateRaisesOnTotal(s, req, Some(Buyer), RequestMeta(None, None), Ord);
  }

  /** Any order `create` builds for the cashback-only request has these fields. */
  lemma CashbackOrderFields(o: Order)
    requires NewOrder(CashbackShop(), CashbackRequest(), Some(Buyer), RequestMeta(None, None), o)
    ensures o.items == [OrderItem(Game, 2000, 1)]
    ensures o.cashbackUsed == 2000 && o.total == 0 && o.cashbackEarned == 100
  {
    var s := CashbackShop();
    var req := CashbackRequest();
    assert Snapshot(s.products, req.items[0], o.items[0]);
    assert o.items == [OrderItem(Game, 2000, 1)];
    assert ItemsSubtotal(o.items) == 2000 by {
      assert o.items[1..] == [];
    }
    assert BuyerBalance(s, Some(Buyer)) == 5000;
    assert o.cashbackUsed == Reservation(true, 5000, 2000) == 2000;
    DefaultRateExamples();
    HalfEvenQuotientUnique(2000 * 5, Pow10(2), o.cashbackEarned, ApplyRate(2000, DefaultRate));
  }

  /** Settling the created order: the 20.00 is debited, the key sold, and 1.00 credited. */
  lemma CashbackOrderSettled(build: Build, s1: Store)
    requires Ord in s1.orders && s1 == CashbackShop().(orders := map[Ord := s1.orders[Ord]])
    requires var o := s1.orders[Ord];
      && o.userId == Some(Buyer) && !o.isGuest && o.status == Pending && o.paymentMethod == CashbackOnly
      && o.items == [OrderItem(Game, 2000, 1)]
      && o.cashbackUsed == 2000 && o.total == 0 && o.cashbackEarned == 100
    ensures var (r, reply) := PreparePayment(build, s1, Ord, StripeDeclined, 5);
      && reply == PaidWithCashback
      && Ord in r.orders && r.orders[Ord].status == Fulfilled
      && r.keys == [MarkAsSold(UnsoldKey(Game, "A"), Ord, 5)]
      && Buyer in r.users && r.users[Buyer].balance == 3100
      && r.outbox == [Ord]
  {
    CashbackDebited(build, s1);
    CashbackFulfilled(build, s1.(users := map[Buyer := DebitedBuyer()]));
  }

  /** The buyer after the 20.00 debit. */
  function DebitedBuyer(): User {
    User("buyer@example.com", 3000, [CashbackTransaction(2000, Debit, SpentNote)])
  }

  /** The cashback-only path debits the reserved 20.00 and then pays and fulfils the order. */
  lemma CashbackDebited(build: Build, s1: Store)
    requires Ord in s1.orders && s1 == CashbackShop().(orders := map[Ord := s1.orders[Ord]])
    requires var o := s1.orders[Ord];
      && o.userId == Some(Buyer) && o.paymentMethod == CashbackOnly && o.cashbackUsed == 2000 && o.total == 0
    ensures PreparePayment(build, s1, Ord, StripeDeclined, 5)
         == (PayAndFulfil(build, s1.(users := map[Buyer := DebitedBuyer()]), Ord, 5), PaidWithCashback)
  {
    assert s1.users[Buyer] == User("buyer@example.com", 5000, []);
    assert [] + [CashbackTransaction(2000, Debit, SpentNote)] == DebitedBuyer().log;
    assert UseCashback(s1.users[Buyer], 2000) == Ok(DebitedBuyer());
    assert s1.users[Buyer := DebitedBuyer()] == map[Buyer := DebitedBuyer()];
  }

  /** Paying and fulfilling the debited order sells the game's key and credits the 1.00 earned. */
  lemma CashbackFulfilled(build: Build, s2: Store)
    requires Ord in s2.orders && s2 == CashbackShop().(orders := map[Ord := s2.orders[Ord]], users := map[Buyer := DebitedBuyer()])
    requires var o := s2.orders[Ord];
      && o.userId == Some(Buyer) && !o.isGuest && o.status == Pending
      && o.items == [OrderItem(Game, 2000, 1)]
      && o.total == 0 && o.cashbackEarned == 100
    ensures var r := PayAndFulfil(build, s2, Ord, 5);
      && Ord in r.orders && r.orders[Ord].status == Fulfilled
      && r.keys == [MarkAsSold(UnsoldKey(Game, "A"), Ord, 5)]
      && Buyer in r.users && r.users[Buyer].balance == 3100
      && r.outbox == [Ord]
  {
    var o := s2.orders[Ord];
    var s3 := s2.(orders := s2.orders[Ord := MarkPaid(build, o, 5)]);
    assert UnsoldCount(s3.keys, Game) == 1;
    var k1 := Allocate(s3.keys, Game, 1, Ord, 5);
    assert k1 == [MarkAsSold(UnsoldKey(Game, "A"), Ord, 5)];
    assert o.items[1..] == [];
    assert AllocateItems(build, s3.products, s3.keys, Ord, o.items, 5) == (k1, true);
    assert FulfillOrder(build, s3, Ord, 5).1;
  }
}
