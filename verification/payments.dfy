/**
 * The payment side of the order endpoints: opening a payment session
 * (`_prepare_payment_data` and the cashback-only path), the client callback
 * `confirm_payment`, the Stripe webhook handlers and `retrieve`. Answers
 * from the payment provider are parameters.
 */
module Payments {
  import opened Base
  import opened Ledger
  import opened Catalog
  import opened Orders
  import opened Store
  import opened Fulfilment
  import opened Checkout

  /** The HTTP statuses the endpoints answer with. */
  datatype Http = Ok200 | Created201 | BadRequest400 | Unauthorized401 | Forbidden403 | NotFound404 | ServerError500

  /** What `stripe.PaymentIntent.create` gives back: an intent, or a `StripeError`. */
  datatype StripeCreation = IntentCreated(intentId: string) | StripeDeclined

  /** The `payment` part of the create-order response; `Raised` is an exception escaping the view. */
  datatype PaymentReply =
    | StripeSession(intentId: string, amount: Cents)
    | PayPalSession(orderRef: string, amount: Cents)
    | PaidWithCashback
    | PaymentError
    | Raised

  /** An authenticated caller. */
  datatype Requester = Requester(id: UserId, isStaff: bool)

  /** `get_queryset`: staff see every order, everybody else only their own. */
  predicate Visible(rq: Requester, o: Order) {
    rq.isStaff || o.userId == Some(rq.id)
  }

  /** No existing order lost or moved backwards on the lifecycle. */
  ghost predicate OrdersAdvance(s: Store, r: Store) {
    && s.orders.Keys <= r.orders.Keys
    && forall o :: o in s.orders ==> Advances(s.orders[o].status, r.orders[o].status)
  }

  /** Only order oid (if any) differs. */
  ghost predicate OthersKept(s: Store, r: Store, oid: OrderId) {
    && s.orders.Keys <= r.orders.Keys
    && forall o :: o in s.orders && o != oid ==> r.orders[o] == s.orders[o]
  }

  /** No balance went down. */
  ghost predicate NoDebit(s: Store, r: Store) {
    forall u :: u in s.users ==> u in r.users && r.users[u].balance >= s.users[u].balance
  }

  // -------------------------------------------------------------- pay and fulfil

  /**
   * `mark_as_paid` followed by `_fulfill_order`, the step every confirmation
   * path shares. Nothing is debited; only the order's own row, the keys, the
   * cashback credit and the outbox can change. As written a fulfilled order
   * is first pushed back to PAID; the corrected build leaves it alone.
   */
  function PayAndFulfil(build: Build, s: Store, oid: OrderId, now: Timestamp): (r: Store)
    requires oid in s.orders
    ensures oid in r.orders && OthersKept(s, r, oid)
    ensures Valid(s) ==> Valid(r)
    ensures NoDebit(s, r)
    ensures r.products == s.products
    ensures Evolves(s.keys, r.keys, oid, now)
    ensures build == AsWritten ==> IsPaid(r.orders[oid]) && r.orders[oid].paidAt == Some(now)
    ensures r.outbox == s.outbox || r.outbox == s.outbox + [oid]
  {
    var o := s.orders[oid];
    var s1 := s.(orders := s.orders[oid := MarkPaid(build, o, now)]);
    assert Valid(s) ==> Valid(s1);
    FulfilmentNoDebit(build, s1, oid, now);
    FulfillOrder(build, s1, oid, now).0
  }

  /**
   * With the status guard, paying and fulfilling only moves the order
   * forward: a payable order ends up paid, and a fulfilled one is left as
   * it was.
   */
  lemma CorrectedPayAndFulfil(s: Store, oid: OrderId, now: Timestamp)
    requires oid in s.orders
    ensures var r := PayAndFulfil(Corrected, s, oid, now);
      && Advances(s.orders[oid].status, r.orders[oid].status)
      && (Payable(s.orders[oid].status) ==> IsPaid(r.orders[oid]))
      && (IsFulfilled(s.orders[oid]) ==> r == s)
  {
  }

  /** Fulfilment only ever credits: no balance goes down. */
  lemma FulfilmentNoDebit(build: Build, s: Store, oid: OrderId, now: Timestamp)
    ensures NoDebit(s, FulfillOrder(build, s, oid, now).0)
  {
    var r := FulfillOrder(build, s, oid, now).0;
    if FulfillOrder(build, s, oid, now).1 {
      var o' := MarkAsFulfilled(s.orders[oid], now);
      if EarnsCashback(o', s.users) {
        assert s.users[o'.userId.value].balance <= r.users[o'.userId.value].balance;
      }
    }
  }

  // -------------------------------------------------------- opening the payment

  /**
   * `_process_cashback_only_payment`: debit the reserved cashback, mark the
   * order paid and fulfil it. A guest order (no user) or a refused debit
   * raises, and nothing is written.
   */
  function ProcessCashbackOnly(build: Build, s: Store, oid: OrderId, now: Timestamp): (r: (Store, PaymentReply))
    requires oid in s.orders
    ensures r.1 == PaidWithCashback || r.1 == Raised
    ensures var o := s.orders[oid];
      r.1 == PaidWithCashback <==>
        o.userId.Some? && o.userId.value in s.users && 0 < o.cashbackUsed <= s.users[o.userId.value].balance
    ensures r.1 == Raised ==> r.0 == s
    ensures r.1 == PaidWithCashback ==> var o := s.orders[oid]; var uid := o.userId.value;
      && oid in r.0.orders && OthersKept(s, r.0, oid)
      && uid in r.0.users
      && r.0.users[uid].balance >= s.users[uid].balance - o.cashbackUsed
      && |r.0.users[uid].log| > |s.users[uid].log|
      && r.0.users[uid].log[..|s.users[uid].log| + 1] == s.users[uid].log + [CashbackTransaction(o.cashbackUsed, Debit, SpentNote)]
      && (build == AsWritten || o.status != Refunded ==> IsPaid(r.0.orders[oid]))
    ensures Valid(s) ==> Valid(r.0)
  {
    var o := s.orders[oid];
    if o.userId.None? || o.userId.value !in s.users then (s, Raised)
    else
      var uid := o.userId.value;
      match UseCashback(s.users[uid], o.cashbackUsed)
      case Err(_) => (s, Raised)
      case Ok(u') =>
        var s1 := s.(users := s.users[uid := u']);
        var r := PayAndFulfil(build, s1, oid, now);
        LogPrefixKept(s1, r, uid, build, oid, now);
        (r, PaidWithCashback)
  }

  /** Fulfilment only ever appends to a user's cashback log. */
  lemma LogPrefixKept(s1: Store, r: Store, uid: UserId, build: Build, oid: OrderId, now: Timestamp)
    requires oid in s1.orders && uid in s1.users
    requires r == PayAndFulfil(build, s1, oid, now)
    ensures uid in r.users && r.users[uid].log[..|s1.users[uid].log|] == s1.users[uid].log
  {
    var o := s1.orders[oid];
    var s2 := s1.(orders := s1.orders[oid := MarkPaid(build, o, now)]);
    var f := FulfillOrder(build, s2, oid, now);
    if f.1 {
      var o' := MarkAsFulfilled(s2.orders[oid], now);
      if EarnsCashback(o', s2.users) && o'.userId.value == uid {
        assert Posted(s2.users[uid], r.users[uid], CashbackTransaction(o'.cashbackEarned, Credit, EarnedNote));
      }
    }
  }

  /**
   * `_prepare_payment_data` for a just-created order: a Stripe intent moves
   * the order to PAYMENT_PROCESSING and stores the intent id; PayPal only
   * answers with session data; a cashback-only order with nothing left to
   * pay is settled at once; anything else is an error and changes nothing.
   */
  function PreparePayment(build: Build, s: Store, oid: OrderId, stripe: StripeCreation, now: Timestamp): (r: (Store, PaymentReply))
    requires oid in s.orders
    ensures var o := s.orders[oid];
      o.paymentMethod == Stripe && stripe.IntentCreated? ==>
        && r.1 == StripeSession(stripe.intentId, o.total)
        && r.0 == s.(orders := s.orders[oid := o.(stripeIntentId := Some(stripe.intentId), status := PaymentProcessing)])
    ensures var o := s.orders[oid];
      o.paymentMethod == Stripe && stripe.StripeDeclined? ==> r == (s, PaymentError)
    ensures var o := s.orders[oid];
      o.paymentMethod == PayPal ==> r == (s, PayPalSession(NatText(oid), o.total))
    ensures var o := s.orders[oid];
      o.paymentMethod == CashbackOnly && o.total != 0 ==> r == (s, PaymentError)
    ensures var o := s.orders[oid];
      o.paymentMethod == CashbackOnly && o.total == 0 ==> r.1 == PaidWithCashback || r.1 == Raised
    ensures r.1 != PaidWithCashback ==> r.0.users == s.users
    ensures oid in r.0.orders && OthersKept(s, r.0, oid)
    ensures Valid(s) ==> Valid(r.0)
  {
    var o := s.orders[oid];
    match o.paymentMethod
    case Stripe =>
      (match stripe
       case IntentCreated(id) =>
         (s.(orders := s.orders[oid := o.(stripeIntentId := Some(id), status := PaymentProcessing)]),
          StripeSession(id, o.total))
       case StripeDeclined => (s, PaymentError))
    case PayPal => (s, PayPalSession(NatText(oid), o.total))
    case CashbackOnly =>
      if o.total == 0 then ProcessCashbackOnly(build, s, oid, now) else (s, PaymentError)
  }

  /**
   * The `create` endpoint: order creation, then the payment session. A
   * refused request is a 400 and changes nothing; the errors `create`
   * raises after storing the order row and an exception on the cashback-only
   * path are a 500. As written every accepted request ends in one of those
   * errors, so the endpoint never answers 201. Only the cashback-only path
   * ever debits a balance.
   */
  function PlaceOrder(build: Build, s: Store, req: OrderRequest, auth: Option<UserId>, meta: RequestMeta,
                      oid: OrderId, stripe: StripeCreation, now: Timestamp): (r: (Store, Http, Option<PaymentReply>))
    requires oid !in s.orders
    ensures r.1 == BadRequest400 <==> CreateOrder(build, s, req, auth, meta, oid).1.Err? && !ServerFault(CreateOrder(build, s, req, auth, meta, oid).1.error)
    ensures build == AsWritten ==> r.1 != Created201
    ensures r.1 == BadRequest400 ==> r.0 == s
    ensures r.1 == Created201 ==> oid in r.0.orders && r.2.Some? && r.2.value != Raised
    ensures r.1 in {Created201, BadRequest400, ServerError500}
    ensures req.payment != CashbackOnly ==> r.0.users == s.users
    ensures forall o :: o in s.orders ==> o in r.0.orders && r.0.orders[o] == s.orders[o]
    ensures Valid(s) ==> Valid(r.0)
  {
    CreateOrderKeeps(build, s, req, auth, meta, oid);
    var (s1, res) := CreateOrder(build, s, req, auth, meta, oid);
    match res
    case Err(e) => (s1, if ServerFault(e) then ServerError500 else BadRequest400, None)
    case Ok(_) =>
      assert s1.orders[oid].paymentMethod == req.payment;
      var (s2, reply) := PreparePayment(build, s1, oid, stripe, now);
      (s2, if reply == Raised then ServerError500 else Created201, Some(reply))
  }

  /** Creating an order only ever adds order oid: every other part of the store is as it was. */
  lemma CreateOrderKeeps(build: Build, s: Store, req: OrderRequest, auth: Option<UserId>, meta: RequestMeta, oid: OrderId)
    requires oid !in s.orders
    ensures var (r, res) := CreateOrder(build, s, req, auth, meta, oid);
      && r.users == s.users && r.products == s.products && r.keys == s.keys && r.outbox == s.outbox
      && (forall o :: o in s.orders ==> o in r.orders && r.orders[o] == s.orders[o])
      && (res.Ok? ==> oid in r.orders && r.orders[oid].paymentMethod == req.payment)
  {
  }

  // ------------------------------------------------------------- confirmation

  /** The body of a `confirm_payment` call. */
  datatype ConfirmRequest = ConfirmRequest(channel: Option<string>, intentId: Option<string>)

  /** What `stripe.PaymentIntent.retrieve` gives back: the intent's status and its `order_id` metadata, or a `StripeError`. */
  datatype IntentAnswer = Intent(status: string, orderRef: Option<string>) | ProviderFailure

  /** The intent's metadata names this order and the payment went through. */
  predicate Verified(answer: IntentAnswer, oid: OrderId) {
    answer.Intent? && answer.orderRef == Some(NatText(oid)) && answer.status == "succeeded"
  }

  /**
   * `confirm_payment`. Only an authenticated caller who may see the order
   * gets past `get_object`. A Stripe confirmation pays and fulfils only
   * when the retrieved intent belongs to this order and has succeeded; a
   * PayPal confirmation pays and fulfils unverified; every refusal leaves
   * the store unchanged.
   */
  function ConfirmPayment(build: Build, s: Store, rq: Option<Requester>, oid: OrderId,
                          req: ConfirmRequest, answer: IntentAnswer, now: Timestamp): (r: (Store, Http))
    ensures rq.None? ==> r == (s, Unauthorized401)
    ensures rq.Some? && !(oid in s.orders && Visible(rq.value, s.orders[oid])) ==> r == (s, NotFound404)
    ensures r.1 == Ok200 <==>
      && rq.Some? && oid in s.orders && Visible(rq.value, s.orders[oid])
      && ((req.channel == Some("STRIPE") && req.intentId.Some? && req.intentId.value != "" && Verified(answer, oid))
          || req.channel == Some("PAYPAL"))
    ensures r.1 == Ok200 ==> r.0 == PayAndFulfil(build, s, oid, now)
    ensures r.1 != Ok200 ==> r.0 == s
    ensures r.1 in {Ok200, BadRequest400, Unauthorized401, NotFound404}
  {
    if rq.None? then (s, Unauthorized401)
    else if oid !in s.orders || !Visible(rq.value, s.orders[oid]) then (s, NotFound404)
    else if req.channel == Some("STRIPE") && req.intentId.Some? && req.intentId.value != "" then
      if Verified(answer, oid) then (PayAndFulfil(build, s, oid, now), Ok200) else (s, BadRequest400)
    else if req.channel == Some("PAYPAL") then (PayAndFulfil(build, s, oid, now), Ok200)
    else (s, BadRequest400)
  }

  // ---------------------------------------------------------------- webhooks

  /** The webhook events; `ref` is the intent's `order_id` metadata, None when absent or empty. */
  datatype WebhookEvent = PaymentSucceeded(ref: Option<OrderId>) | PaymentFailed(ref: Option<OrderId>) | OtherEvent

  /** `_handle_payment_success`: pays and fulfils a known order that is not paid yet; otherwise nothing happens. */
  function HandlePaymentSuccess(build: Build, s: Store, ref: Option<OrderId>, now: Timestamp): (r: Store)
    ensures ref.None? || ref.value !in s.orders || IsPaid(s.orders[ref.value]) ==> r == s
    ensures ref.Some? && ref.value in s.orders && !IsPaid(s.orders[ref.value]) ==>
      r == PayAndFulfil(build, s, ref.value, now)
  {
    if ref.None? || ref.value !in s.orders || IsPaid(s.orders[ref.value]) then s
    else PayAndFulfil(build, s, ref.value, now)
  }

  /**
   * `_handle_payment_failure`: as written a known order becomes FAILED
   * whatever its status; the corrected build only fails an order that is
   * still awaiting payment.
   */
  function HandlePaymentFailure(build: Build, s: Store, ref: Option<OrderId>): (r: Store)
    ensures ref.None? || ref.value !in s.orders ==> r == s
    ensures ref.Some? && ref.value in s.orders ==> OthersKept(s, r, ref.value) && r.orders.Keys == s.orders.Keys
    ensures ref.Some? && ref.value in s.orders && (build == AsWritten || Payable(s.orders[ref.value].status)) ==>
      r == s.(orders := s.orders[ref.value := s.orders[ref.value].(status := Failed)])
    ensures build == Corrected && ref.Some? && ref.value in s.orders && !Payable(s.orders[ref.value].status) ==> r == s
  {
    if ref.None? || ref.value !in s.orders then s
    else
      var o := s.orders[ref.value];
      if build == Corrected && !Payable(o.status) then s
      else s.(orders := s.orders[ref.value := o.(status := Failed)])
  }

  /** `StripeWebhookView.post`: a bad signature is a 400; otherwise the event is handled and answered with 200. */
  function HandleWebhook(build: Build, s: Store, signatureValid: bool, ev: WebhookEvent, now: Timestamp): (r: (Store, Http))
    ensures !signatureValid ==> r == (s, BadRequest400)
    ensures signatureValid ==> r.1 == Ok200
    ensures ev.OtherEvent? ==> r.0 == s
    ensures Valid(s) ==> Valid(r.0)
    ensures NoDebit(s, r.0)
  {
    if !signatureValid then (s, BadRequest400)
    else
      match ev
      case PaymentSucceeded(ref) => (HandlePaymentSuccess(build, s, ref, now), Ok200)
      case PaymentFailed(ref) => (HandlePaymentFailure(build, s, ref), Ok200)
      case OtherEvent => (s, Ok200)
  }

  // ------------------------------------------------------------------ retrieve

  datatype RetrieveReply = NotAuthenticated | NotFound | Forbidden | Shown(order: Order, withKeys: bool)

  /**
   * `retrieve`. `get_object` already hides orders the caller may not see,
   * so the guest-by-e-mail branch after it can never be reached and the
   * 403 is never sent. Keys are shown once the order is fulfilled.
   */
  function Retrieve(s: Store, rq: Option<Requester>, oid: OrderId, email: Option<string>): (r: RetrieveReply)
    ensures rq.None? ==> r == NotAuthenticated
    ensures r.Shown? <==> rq.Some? && oid in s.orders && Visible(rq.value, s.orders[oid])
    ensures r.Shown? ==> r.order == s.orders[oid] && (r.withKeys <==> IsFulfilled(s.orders[oid]))
    ensures !r.Forbidden?
  {
    if rq.None? then NotAuthenticated
    else if oid !in s.orders || !Visible(rq.value, s.orders[oid]) then NotFound
    else
      var o := s.orders[oid];
      if !rq.value.isStaff && o.userId != Some(rq.value.id) then
        if o.isGuest && Some(o.email) == email then Shown(o, IsFulfilled(o)) else Forbidden
      else Shown(o, IsFulfilled(o))
  }
}
