/**
 * The in-memory store the lifecycle operations transform: the user,
 * product, digital-key and order tables, plus the confirmation e-mails
 * queued so far.
 */
module Store {
  import opened Base
  import opened Ledger
  import opened Catalog
  import opened Orders

  /**
   * Key rows are held in insertion order, which is also the order in which
   * the model hands out unsold keys. `outbox` records each
   * `send_order_confirmation_email.delay(order.id)` call.
   */
  datatype Store = Store(
    users: map<UserId, User>,
    products: map<ProductId, Product>,
    keys: seq<DigitalKey>,
    orders: map<OrderId, Order>,
    outbox: seq<OrderId>)

  /** Database-level invariants the lifecycle should keep. */
  ghost predicate Valid(s: Store) {
    && (forall u :: u in s.users ==> s.users[u].balance >= 0)
    && UniqueSlots(s.keys)
  }

  /** The order's user row is present, the order is not a guest order and it earned something. */
  predicate EarnsCashback(o: Order, users: map<UserId, User>) {
    o.userId.Some? && o.userId.value in users && !o.isGuest && o.cashbackEarned > 0
  }

  /**
   * `add_cashback_to_user`: credits the earned cashback to the order's user
   * (one CREDIT row) when the order earns any; otherwise the users are untouched.
   */
  function AddCashbackToUser(o: Order, users: map<UserId, User>): (r: map<UserId, User>)
    ensures !EarnsCashback(o, users) ==> r == users
    ensures EarnsCashback(o, users) ==>
      var uid := o.userId.value;
      && r.Keys == users.Keys
      && r[uid].balance == users[uid].balance + o.cashbackEarned
      && Posted(users[uid], r[uid], CashbackTransaction(o.cashbackEarned, Credit, EarnedNote))
      && (forall v :: v in users && v != uid ==> r[v] == users[v])
    ensures (forall u :: u in users ==> users[u].balance >= 0) ==> forall u :: u in r ==> r[u].balance >= 0
  {
    if EarnsCashback(o, users) then
      var uid := o.userId.value;
      users[uid := AddCashback(users[uid], o.cashbackEarned).value]
    else users
  }
}
