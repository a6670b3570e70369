/**
 * The order aggregate (`Order` and `OrderItem`): status predicates, totals,
 * cashback earned, and the paid/fulfilled transitions.
 */
module Orders {
  import opened Base
  import opened Money

  datatype Status = Pending | PaymentProcessing | Paid | Fulfilled | Failed | Refunded

  datatype PaymentMethod = Stripe | PayPal | CashbackOnly

  /** One line of an order; `price` is the unit price snapshotted at checkout. */
  datatype OrderItem = OrderItem(productId: ProductId, price: Cents, quantity: nat)

  /**
   * An order row together with its items. The order id is the key under which
   * the store holds it; `userId` is None for a guest order (or once the user
   * row is deleted, which the foreign key turns into NULL).
   */
  datatype Order = Order(
    userId: Option<UserId>,
    email: string,
    isGuest: bool,
    status: Status,
    paymentMethod: PaymentMethod,
    stripeIntentId: Option<string>,
    items: seq<OrderItem>,
    subtotal: Cents,
    cashbackUsed: Cents,
    total: Cents,
    cashbackEarned: Cents,
    paidAt: Option<Timestamp>,
    fulfilledAt: Option<Timestamp>,
    ipAddress: Option<string>)

  /** `is_paid`: payment has been captured, whether or not keys went out yet. */
  predicate IsPaid(o: Order)
    ensures IsPaid(o) <==> o.status in {Paid, Fulfilled}
  {
    o.status == Paid || o.status == Fulfilled
  }

  /** `is_fulfilled`; a fulfilled order always counts as paid. */
  predicate IsFulfilled(o: Order)
    ensures IsFulfilled(o) ==> IsPaid(o)
  {
    o.status == Fulfilled
  }

  /** `item_total`. */
  function LineTotal(it: OrderItem): (r: Cents)
    ensures it.price >= 0 ==> r >= 0
    ensures ItemValid(it) ==> r >= it.price && r >= it.quantity
  {
    it.price * it.quantity
  }

  /** Sum of the line totals, as `calculate_total` computes the subtotal. */
  function ItemsSubtotal(items: seq<OrderItem>): Cents
    decreases |items|
  {
    if |items| == 0 then 0 else LineTotal(items[0]) + ItemsSubtotal(items[1..])
  }

  lemma {:induction false} SubtotalConcat(a: seq<OrderItem>, b: seq<OrderItem>)
    ensures ItemsSubtotal(a + b) == ItemsSubtotal(a) + ItemsSubtotal(b)
    decreases |a|
  {
    if |a| == 0 {
      assert a + b == b;
    } else {
      assert (a + b)[1..] == a[1..] + b;
      SubtotalConcat(a[1..], b);
    }
  }

  /** The `OrderItem` field constraints: price at least 0.01 and a positive quantity. */
  predicate ItemValid(it: OrderItem) {
    it.price >= 1 && it.quantity >= 1
  }

  /** Valid items, at most one per product (`unique_together = ('order', 'product')`). */
  ghost predicate ItemsValid(items: seq<OrderItem>) {
    && (forall i :: 0 <= i < |items| ==> ItemValid(items[i]))
    && (forall i, j :: 0 <= i < j < |items| ==> items[i].productId != items[j].productId)
  }

  /** Every valid line costs at least one cent, so valid items cost at least one cent each. */
  lemma {:induction false} SubtotalAtLeastLines(items: seq<OrderItem>)
    requires forall i :: 0 <= i < |items| ==> ItemValid(items[i])
    ensures ItemsSubtotal(items) >= |items|
    decreases |items|
  {
    if |items| > 0 {
      var it := items[0];
      MulAtLeast(it.quantity, it.price);
      assert LineTotal(it) >= 1;
      SubtotalAtLeastLines(items[1..]);
    }
  }

  /**
   * `calculate_total`: the subtotal is the sum of the line totals and the
   * total is the subtotal less the cashback used, floored at zero. Nothing
   * else in the order changes.
   */
  function CalculateTotal(o: Order): (r: Order)
    ensures r.subtotal == ItemsSubtotal(o.items)
    ensures r.total >= 0 && r.total >= r.subtotal - o.cashbackUsed
    ensures r.total == 0 || r.total == r.subtotal - o.cashbackUsed
    ensures r == o.(subtotal := r.subtotal, total := r.total)
  {
    var subtotal := ItemsSubtotal(o.items);
    var net := subtotal - o.cashbackUsed;
    o.(subtotal := subtotal, total := if net > 0 then net else 0)
  }

  /** Recomputing the totals with unchanged items and cashback gives the same order. */
  lemma CalculateTotalIdempotent(o: Order)
    ensures CalculateTotal(CalculateTotal(o)) == CalculateTotal(o)
  {
  }

  /** With cashback used between zero and the subtotal, the total is between zero and the subtotal. */
  lemma TotalWithinSubtotal(o: Order)
    requires 0 <= o.cashbackUsed <= ItemsSubtotal(o.items)
    ensures 0 <= CalculateTotal(o).total <= CalculateTotal(o).subtotal
    ensures CalculateTotal(o).total + o.cashbackUsed == CalculateTotal(o).subtotal
  {
  }

  /**
   * `calculate_cashback`: guests earn nothing; others earn the rate applied to
   * the gross subtotal (before cashback used), rounded half to even to the cent.
   */
  function CalculateCashback(o: Order, rate: Rate): (r: Order)
    ensures o.isGuest ==> r.cashbackEarned == 0
    ensures !o.isGuest ==>
      HalfEvenQuotient(o.subtotal * rate.units, Pow10(rate.scale), r.cashbackEarned)
    ensures r == o.(cashbackEarned := r.cashbackEarned)
  {
    o.(cashbackEarned := if o.isGuest then 0 else ApplyRate(o.subtotal, rate))
  }

  /** The cashback earned does not depend on how much cashback the order spent. */
  lemma CashbackOnGrossSubtotal(o: Order, used: Cents, total: Cents, rate: Rate)
    ensures CalculateCashback(o.(cashbackUsed := used, total := total), rate).cashbackEarned
         == CalculateCashback(o, rate).cashbackEarned
  {
  }

  /** `mark_as_paid` as written: status PAID and a fresh `paid_at`, whatever the status was. */
  function MarkAsPaid(o: Order, now: Timestamp): (r: Order)
    ensures r.status == Paid && r.paidAt == Some(now)
    ensures r == o.(status := Paid, paidAt := Some(now))
  {
    o.(status := Paid, paidAt := Some(now))
  }

  /**
   * Statuses from which a captured payment may move an order to PAID:
   * before payment, or after a failed attempt (the provider may retry).
   */
  predicate Payable(s: Status) {
    s == Pending || s == PaymentProcessing || s == Failed
  }

  /**
   * `mark_as_paid` with the guard the lifecycle needs: an order that is
   * already paid, fulfilled or refunded is left exactly as it is.
   */
  function MarkAsPaidGuarded(o: Order, now: Timestamp): (r: Order)
    ensures Payable(o.status) ==> r.status == Paid && r.paidAt == Some(now)
    ensures !Payable(o.status) ==> r == o
    ensures IsPaid(o) ==> r == o
    ensures r == o.(status := r.status, paidAt := r.paidAt)
  {
    if Payable(o.status) then MarkAsPaid(o, now) else o
  }

  /** The build-selected `mark_as_paid`. */
  function MarkPaid(build: Build, o: Order, now: Timestamp): Order {
    if build == AsWritten then MarkAsPaid(o, now) else MarkAsPaidGuarded(o, now)
  }

  /** `mark_as_fulfilled`: status FULFILLED and a fresh `fulfilled_at`; nothing else changes. */
  function MarkAsFulfilled(o: Order, now: Timestamp): (r: Order)
    ensures IsFulfilled(r) && IsPaid(r) && r.fulfilledAt == Some(now)
    ensures r == o.(status := Fulfilled, fulfilledAt := Some(now))
  {
    o.(status := Fulfilled, fulfilledAt := Some(now))
  }

  /**
   * Position of a status on the lifecycle. A failed attempt sits before
   * PAID because a provider may still capture the payment afterwards.
   */
  function Rank(s: Status): nat {
    match s
    case Pending => 0
    case PaymentProcessing => 1
    case Failed => 2
    case Paid => 3
    case Fulfilled => 4
    case Refunded => 5
  }

  /** b is reachable from a without a backward step. */
  predicate Advances(a: Status, b: Status) {
    Rank(a) <= Rank(b)
  }

  /** Advancing from a paid status never leaves the paid (or refunded) states. */
  lemma AdvancingKeepsPaid(a: Status, b: Status)
    requires a in {Paid, Fulfilled} && Advances(a, b)
    ensures b in {Paid, Fulfilled, Refunded}
    ensures a == Fulfilled ==> b in {Fulfilled, Refunded}
  {
  }

  /** The guarded transition only ever moves an order forward. */
  lemma GuardedMarkAdvances(o: Order, now: Timestamp)
    ensures Advances(o.status, MarkAsPaidGuarded(o, now).status)
  {
  }

  /** As written, marking a fulfilled order paid moves it backwards. */
  lemma MarkAsPaidRegresses(o: Order, now: Timestamp)
    requires IsFulfilled(o)
    ensures !Advances(o.status, MarkAsPaid(o, now).status)
    ensures !IsFulfilled(MarkAsPaid(o, now))
  {
  }
}
