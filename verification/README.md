# gamekeys order lifecycle in Dafny

This project models the order lifecycle of the gamekeys digital-key shop: a Django back end sells game keys and a React front end keeps the cart. The model covers:

- how an order is validated and created from a cart (`OrderCreateSerializer`);
- how its totals and cashback are computed (`Order.calculate_total`, `Order.calculate_cashback`);
- how it is paid by Stripe, by PayPal or from the cashback balance (`OrderViewSet.create`, `_prepare_payment_data`, `confirm_payment`, `StripeWebhookView`);
- how it is fulfilled by handing out digital keys (`_fulfill_order`, `_get_external_key`, `DigitalKey.mark_as_sold`);
- how a user's cashback balance is credited and debited (`User.add_cashback`, `User.use_cashback`);
- the front-end cart operations (`CartContext.js`).

Modules, in dependency order:

| module | file | contents |
|---|---|---|
| `Base` | base.dfy | `Option`, `Result`, identifiers, `Build` |
| `Money` | money.dfy | cents, decimal rates, round-half-even |
| `Ledger` | ledger.dfy | users, the cashback balance and its transaction log |
| `Catalog` | catalog.dfy | products, prices, digital keys, stock |
| `Orders` | orders.dfy | orders, order items, status, totals |
| `Store` | store.dfy | the tables the request handlers work on |
| `Fulfilment` | fulfilment.dfy | key allocation and `_fulfill_order` |
| `Checkout` | checkout.dfy | request validation and order creation |
| `Payments` | payments.dfy | the payment endpoints and the Stripe webhook |
| `Lifecycle` | lifecycle.dfy | properties across several requests, and worked stores |
| `Cart` | cart.dfy | the front-end cart |

Representation choices:

- **Money.** Amounts are whole cents (`int`). A Decimal product rounded to two places becomes an exact integer division rounded half to even, as Python's `round` on a `Decimal` does. `Money.DivHalfEven` is that division. `Money.HalfEvenQuotient` characterises it independently.
- **Truthiness.** Python treats a sale price of `0.00` as "no sale" (`Catalog.OnSale`). The cart's `sale_price || price` sees the serialized decimal string, and any present string is truthy (`Cart.LinePrice`).
- **Two builds.** Every operation with a defect listed under Findings takes a `Build` argument. `AsWritten` follows the code line by line. `Corrected` is the evidently intended behaviour, and it carries the properties the code fails.
- **Providers as parameters.** Stripe, PayPal, the webhook signature check, the clock and the e-mail queue are parameters or records. An intent creation arrives as a `StripeCreation` value. An intent lookup arrives as an `IntentAnswer`. A signature check arrives as a boolean. `now` is an abstract timestamp. Every `send_order_confirmation_email.delay` call is appended to `Store.outbox`.
- **No transactions.** Writes are not wrapped in a transaction. The project settings are not part of this model, so `ATOMIC_REQUESTS` is taken to be off. A write made before an exception therefore persists, as it would under Django's default autocommit.

Behaviour of the code that the model keeps as it is:

- `mark_as_paid` has no status guard: it sets PAID from any status.
- A PayPal confirmation is accepted without asking the provider.
- `_fulfill_order` does not undo the keys it already sold when a later item fails.
- Cashback is rounded half to even, the default rounding of Python's `Decimal`.
- The guest branch of `retrieve` is unreachable, because `get_queryset` already restricts the queryset to the caller's own orders. The model returns "not found" for every order the caller cannot see.
- The cashback reserved on a Stripe or PayPal order (`cashback_used`) lowers the total but is never debited from the balance. Only the cashback-only path calls `use_cashback`. `Lifecycle.ReservationDebitedOnlyOnCashbackPath` states this.
- The corrected build lets a `FAILED` order be paid (`Orders.Payable`). A provider can still capture a payment after reporting an earlier attempt as failed.

## Model

| member | source | states |
|---|---|---|
| Money.DivHalfEven | backend/orders/models.py:123 | the quotient is the nearest integer to n/d, ties going to the even neighbour, as Decimal rounding does |
| Money.HalfEvenQuotientUnique | backend/orders/models.py:123 | at most one integer satisfies the half-even rounding condition, so the rounded cashback is well defined |
| Money.ApplyRate | backend/orders/models.py:116-126 | an amount times a decimal rate, rounded half-even to whole cents |
| Money.DefaultRateBounds | backend/orders/models.py:116-126 | cashback at the default 5% rate is never negative and never exceeds the amount it is taken on |
| Money.DefaultRateExamples | backend/orders/models.py:116-126 | 5% of 50.00 is 2.50; of 0.50 it is 0.02 (0.025 rounds to even); of 0.70 it is 0.04 (0.035 rounds to even); of 20.00 it is 1.00 |
| Ledger.AddCashback | backend/users/models.py:30-47 | a credit fails exactly when the amount is not positive; otherwise the balance rises by the amount and one CREDIT row is logged |
| Ledger.UseCashback | backend/users/models.py:49-71 | a debit succeeds exactly when 0 < amount <= balance, fails with the matching error otherwise, and on success lowers the balance by the amount and logs one DEBIT row |
| Ledger.LedgerReplay | backend/users/models.py:12-71 | after any sequence of credits and debits the balance stays non-negative, the log only grows, and the new rows' signed sum equals the balance movement |
| Catalog.CurrentPrice | backend/products/models.py:142-145 | the sale price when one is set and non-zero, otherwise the list price; at least one cent for validly priced products |
| Catalog.DiscountPercentage | backend/products/models.py:147-152 | zero unless on sale with a positive price; otherwise 100 - 100*sale/price rounded half-even |
| Catalog.DiscountIsSavingOnCurrentPrice | backend/products/models.py:142-152 | the discount is the rounded percentage saved by paying the current price instead of the list price |
| Catalog.DiscountBounds | backend/products/models.py:94-105 | for prices that pass the validators and a sale price at most the list price, the discount lies in 0..100 |
| Catalog.InStock | backend/products/models.py:154-165 | in stock exactly when the product is external or some unsold key for it exists |
| Catalog.AvailableKeysCount | backend/products/models.py:167-175 | 999 for external products, otherwise the number of unsold keys of the product |
| Catalog.InStockIffAvailable | backend/products/models.py:154-175 | a product is in stock exactly when its available key count is positive |
| Catalog.MarkAsSold | backend/products/models.py:207-212 | the key becomes sold, stamped with the time and the order, and keeps its product and code |
| Catalog.CreateKey | backend/products/models.py:199-202 | inserting a key fails exactly when a key with the same product and code exists; otherwise it is appended and codes stay unique per product |
| Catalog.Allocate | backend/orders/views.py:279-292 | selling q keys of a product marks min(q, available) of its unsold keys as sold to the order, touches no other row, and leaves every other product's stock unchanged |
| Orders.IsPaid | backend/orders/models.py:101-103 | paid means PAID or FULFILLED |
| Orders.IsFulfilled | backend/orders/models.py:105-107 | a fulfilled order also counts as paid |
| Orders.LineTotal | backend/orders/models.py:174-176 | a line's price times its quantity: non-negative for a non-negative price, and at least both the price and the quantity for a valid item; `Orders.SubtotalAtLeastLines` sums it over an order |
| Orders.SubtotalAtLeastLines | backend/orders/models.py:162-167 | with every price at least one cent and every quantity at least one, the subtotal is at least the number of lines |
| Orders.CalculateTotal | backend/orders/models.py:109-114 | the subtotal is the sum of price times quantity; the total is the subtotal less the cashback used, floored at zero; nothing else changes |
| Orders.CalculateTotalIdempotent | backend/orders/models.py:109-114 | recalculating the totals a second time changes nothing |
| Orders.TotalWithinSubtotal | backend/orders/models.py:109-114 | when the cashback used is at most the subtotal, the total lies between 0 and the subtotal and total plus cashback used equals the subtotal |
| Orders.CalculateCashback | backend/orders/models.py:116-126 | guests earn nothing; registered buyers earn the rate applied to the subtotal; no other field changes |
| Orders.CashbackOnGrossSubtotal | backend/orders/models.py:116-126 | the cashback earned does not depend on the cashback used or on the total |
| Orders.MarkAsPaid | backend/orders/models.py:128-133 | the order becomes PAID with the payment time, whatever its status was |
| Orders.MarkAsPaidRegresses | backend/orders/models.py:128-133 | applied to a fulfilled order, marking it paid moves it backwards and it is no longer fulfilled |
| Orders.MarkAsPaidGuarded | backend/orders/models.py:128-133 | corrected: only pending, processing or failed orders become PAID; paid, fulfilled and refunded orders are left unchanged |
| Orders.GuardedMarkAdvances | backend/orders/models.py:11-18 | the corrected mark-as-paid never moves an order backwards in the status order |
| Orders.MarkAsFulfilled | backend/orders/models.py:135-140 | the order becomes FULFILLED, hence paid, with the fulfilment time, and nothing else changes |
| Store.AddCashbackToUser | backend/orders/models.py:142-145 | a registered buyer with a positive earning is credited exactly that amount with one CREDIT row and other users are untouched; otherwise nothing changes; balances stay non-negative |
| Fulfilment.NatTextInjective | backend/orders/views.py:325 | distinct non-negative ids have distinct decimal texts |
| Fulfilment.ExternalKeyCode | backend/orders/views.py:325 | the code starts with `EXTERNAL-DEMO-KEY-` and has more after it; `Fulfilment.ExternalKeyCodeInjective` shows the rest determines order and product |
| Fulfilment.ExternalKeyCodeInjective | backend/orders/views.py:323-329 | the code written for an external key determines both its order and its product, so keys for different order/product pairs never clash |
| Fulfilment.AddExternalKeys | backend/orders/views.py:272-276 | fetching external keys only appends sold keys of that product, keeps existing keys and per-product code uniqueness, and on success adds one key per unit |
| Fulfilment.ExternalKeysKeepUnsold | backend/orders/views.py:323-329 | external keys are created already sold, so no product's count of unsold keys changes |
| Fulfilment.ExternalQuantityTwoFails | backend/orders/views.py:272-276 | as written, an external item with quantity 2 or more always fails: the second key repeats the first one's code |
| Fulfilment.ExternalUnitCodesDistinct | backend/orders/views.py:323-329 | corrected: the codes of two different units of one item differ |
| Fulfilment.ExternalDistinctCodesSucceed | backend/orders/views.py:323-329 | corrected: when none of the new codes is taken, fetching any quantity of external keys succeeds |
| Fulfilment.AllocateItems | backend/orders/views.py:263-293 | allocation only sells unsold keys to this order or appends keys, keeps code uniqueness, and on success lowers each product's unsold count by exactly its internal demand and appends exactly one key per unit of external demand |
| Fulfilment.FulfillOrder | backend/orders/views.py:255-309 | only a paid, unfulfilled order is processed; on success it is FULFILLED, the buyer gets its cashback, one e-mail is queued, each product loses exactly its demand and one key is created per external unit; on failure nothing but keys changes, and nothing at all in the corrected build |
| Fulfilment.FulfilmentAtMostOnce | backend/orders/views.py:259-261 | once fulfilment succeeds, a second attempt changes nothing, so keys and cashback go out once |
| Fulfilment.CorrectedRetryAllocatesOnce | backend/orders/views.py:263-309 | corrected: of two consecutive attempts at most one succeeds, and a failed one leaves the store as it was |
| Checkout.CheckItem | backend/orders/serializers.py:84-115 | an item passes exactly when both fields are present, the quantity is positive, the product exists and is active, and it is in stock with enough keys; a passing item is snapshotted at the current price |
| Checkout.ValidateEach | backend/orders/serializers.py:84-115 | the loop accepts exactly the lists whose every item passes (and, corrected, repeats no product), yields one snapshot per request in order, and on refusal reports the error of the first refused entry, every earlier entry having passed |
| Checkout.ValidateItems | backend/orders/serializers.py:80-120 | the empty list is rejected; a list is accepted exactly when it is non-empty, every item passes and, in the corrected build, no product repeats |
| Checkout.ValidateBuyer | backend/orders/serializers.py:122-137 | a request is refused exactly when it asks for cashback without a login; otherwise the order is a guest order exactly when nobody is logged in |
| Checkout.FirstField | backend/orders/serializers.py:139-142 | the result is the longest comma-free prefix of the header |
| Checkout.ClientIp | backend/orders/serializers.py:139-144 | with a non-empty forwarded-for header, its text up to the first comma; otherwise the remote address |
| Checkout.InsertItems | backend/orders/models.py:169-170 | inserting rows succeeds exactly when no two rows of the order name the same product, and then every row is in; a refusal happens at the first row that repeats a product, and exactly the rows before it stay inserted |
| Checkout.FreshOrder | backend/orders/serializers.py:159-168 | the order row as first stored: PENDING, no items, zero subtotal, total and cashback, owned by the caller with the request's e-mail, payment method and client address, nothing paid or fulfilled; `Checkout.OrderRow` states which of its fields survive a failed `create` |
| Checkout.OrderRow | backend/orders/serializers.py:159-192 | the order is the priced new order exactly when the entries name distinct products and the totals can be computed (always in the corrected build, never as written); a repeated product fails at its item row and keeps the rows before it; otherwise, as written, the totals raise with every item row in; either failure leaves the row exactly as `Checkout.FreshOrder` stored it (owner, e-mail, payment method, client address, PENDING, zero totals) apart from the item rows |
| Checkout.Reservation | backend/orders/serializers.py:183-189 | the reserved cashback is min(balance, total) when cashback is asked for and both are positive, and zero otherwise; it never exceeds the balance |
| Checkout.PricedOrder | backend/orders/serializers.py:139-192 | the new order is PENDING, owned by the caller, with the request's e-mail and payment method and the client address `Checkout.ClientIp` derives, has the snapshotted items, the subtotal of their prices, the reservation, the total net of it and the earned cashback |
| Checkout.CreateOrder | backend/orders/serializers.py:148-192 | creation succeeds exactly when validation passes in the corrected build; as written it raises the totals' TypeError exactly when validation passes with distinct products, and the integrity error otherwise; a validation error changes nothing; success or a server-side error adds exactly one order and nothing else; a created order is the priced new order, client address included |
| Checkout.DuplicateEntriesLeaveOrphanOrder | backend/orders/serializers.py:159-177 | as written, a request naming one product twice passes validation, fails on insertion with a server error and leaves a PENDING order with zero totals behind, holding exactly the item rows before the first repeated product |
| Checkout.AsWrittenCreateRaisesOnTotal | backend/orders/models.py:66-71 | as written, a request that passes validation with distinct products stores a PENDING order with zero totals holding every item row, then fails with the TypeError from `calculate_total` |
| Checkout.CorrectedCreateSucceeds | backend/orders/models.py:109-112 | corrected: every request that passes validation creates its priced order, and adds nothing else to the store |
| Checkout.CorrectedCreateFailsCleanly | backend/orders/serializers.py:80-120 | corrected: a request that does not create an order leaves the store unchanged |
| Checkout.CreatedOrderItemsValid | backend/orders/models.py:162-170 | (only the corrected build creates orders) when every product's prices are valid, a created order's rows are valid items, one per product, and its subtotal is at least one cent per row |
| Checkout.ReservationWithinBalance | backend/orders/serializers.py:183-189 | (only the corrected build creates orders) a created order never reserves more cashback than its buyer holds, reserves nothing for guests or when cashback is not asked for, and its total lies between 0 and its subtotal |
| Payments.PayAndFulfil | backend/orders/views.py:218-222 | pays and fulfils one order and touches no other order, debits no balance and keeps the invariants; as written the order always ends paid |
| Payments.CorrectedPayAndFulfil | backend/orders/views.py:218-222 | corrected: the order's status only moves forward, a payable order ends paid, and a fulfilled order leaves the store unchanged |
| Payments.ProcessCashbackOnly | backend/orders/views.py:172-185 | the payment succeeds exactly when the buyer exists and 0 < cashback used <= balance; then one DEBIT row is logged and the order is paid; otherwise the request raises and nothing changes |
| Payments.PreparePayment | backend/orders/views.py:108-170 | Stripe success stores the intent and moves to PAYMENT_PROCESSING, a Stripe error changes nothing, PayPal changes nothing, a cashback order with a zero total goes through the cashback path, anything else is an error; only the cashback path touches balances |
| Payments.PlaceOrder | backend/orders/views.py:88-106 | 400 exactly on a validation error, leaving the store unchanged; the errors `create` raises after storing the order row and a failed cashback debit are a 500; as written the endpoint never answers 201; on 201 the payment reply never reports an exception; only a cashback-only order touches balances; existing orders are untouched and invariants hold |
| Payments.ConfirmPayment | backend/orders/views.py:187-253 | no login gives 401, an invisible order 404; 200 exactly for a Stripe confirmation whose intent belongs to the order and succeeded, or for any PayPal confirmation; only a 200 pays and fulfils |
| Payments.HandlePaymentSuccess | backend/orders/views.py:369-396 | an event without a known order, or for an already paid order, changes nothing; otherwise the order is paid and fulfilled |
| Payments.HandlePaymentFailure | backend/orders/views.py:398-418 | as written, any referenced order becomes FAILED; corrected, only an order still awaiting payment does |
| Payments.HandleWebhook | backend/orders/views.py:340-367 | a bad signature gives 400 and changes nothing; any correctly signed event gives 200 and debits no balance; event types other than success and failure change nothing |
| Payments.Retrieve | backend/orders/views.py:41-86 | an order is shown exactly when the caller is staff or its owner, with its keys exactly when it is fulfilled; the forbidden branch cannot be reached |
| Lifecycle.ConfirmAfterFulfilmentRefulfils | backend/orders/views.py:235-248 | as written, a PayPal confirmation of a fulfilled order answers 200 and either drops it back to PAID or fulfils it again, with a second e-mail and a second cashback credit |
| Lifecycle.SecondConfirmationPaysTwice | backend/orders/views.py:235-248 | for a concrete fulfilled order with a spare key in stock, one more confirmation sells the spare key to it, credits its 1.00 cashback again and queues another e-mail |
| Lifecycle.CorrectedConfirmOnFulfilledIsNoop | backend/orders/views.py:187-253 | corrected: confirming a fulfilled order changes nothing |
| Lifecycle.CorrectedPayAndFulfilAdvances | backend/orders/views.py:218-222 | corrected: paying and fulfilling never moves any order backwards |
| Lifecycle.CorrectedConfirmAdvances | backend/orders/views.py:187-253 | corrected: a confirmation request never moves any order backwards |
| Lifecycle.FailureEventDemotesPaidOrder | backend/orders/views.py:398-414 | as written, a failure event for a paid or fulfilled order turns it FAILED and answers 200 |
| Lifecycle.CorrectedWebhookAdvances | backend/orders/views.py:340-418 | corrected: no webhook event moves any order backwards |
| Lifecycle.CorrectedPaidStaysPaid | backend/orders/views.py:340-418 | corrected: a paid order stays paid through any webhook event and any confirmation request |
| Lifecycle.ReservationDebitedOnlyOnCashbackPath | backend/orders/views.py:108-121 | placing a Stripe or PayPal order leaves every balance as it was, whatever cashback it reserved |
| Lifecycle.ShortStockLeavesOrderPaid | backend/orders/views.py:279-288 | asking for three keys when two are unsold fails fulfilment: the order stays PAID and no key is sold |
| Lifecycle.PartialAllocationKept | backend/orders/views.py:268-309 | as written, when the second item runs out of keys, the first item's key stays sold to an order left PAID |
| Lifecycle.CorrectedPartialAllocationDiscarded | backend/orders/views.py:268-309 | corrected: the same failure leaves every key unsold |
| Lifecycle.TotalsScenario | backend/orders/models.py:109-126 | a 50.00 order with 20.00 of cashback applied costs 30.00 and earns 2.50 |
| Lifecycle.CashbackOnlyScenario | backend/orders/views.py:88-185 | a 20.00 game ordered with cashback only by a buyer holding 50.00: corrected, it is created (201), paid from the balance, fulfilled with its key, and leaves 50.00 - 20.00 + 1.00 earned; as written the answer is a 500 that leaves a PENDING order with a zero total, sells no key, moves no balance and queues no e-mail |
| Cart.FindIndex | frontend/src/context/CartContext.js:28-30 | the index of the first line with the id, or -1 exactly when there is none |
| Cart.AddToCart | frontend/src/context/CartContext.js:25-45 | when the product is in the cart, its first line gains the quantity in place and no other line changes; otherwise the product is appended with the quantity |
| Cart.AddRaisesCount | frontend/src/context/CartContext.js:25-45 | adding q units raises the item count by exactly q |
| Cart.AddKeepsDistinct | frontend/src/context/CartContext.js:25-45 | adding keeps at most one line per product |
| Cart.RemoveFromCart | frontend/src/context/CartContext.js:51-55 | no line with the id survives, the cart does not grow, and removing an absent id changes nothing |
| Cart.RemoveKeepsOthers | frontend/src/context/CartContext.js:51-55 | a line survives removal exactly when it was in the cart and has a different id |
| Cart.RemoveKeepsDistinct | frontend/src/context/CartContext.js:51-55 | removal keeps at most one line per product |
| Cart.RemoveDropsLine | frontend/src/context/CartContext.js:51-55 | in a cart with one line per product, removing a line's id deletes exactly that line and keeps the others in order |
| Cart.RemoveUndoesAdd | frontend/src/context/CartContext.js:25-55 | adding a product and then removing it gives the same cart as removing it alone |
| Cart.UpdateQuantity | frontend/src/context/CartContext.js:62-75 | a quantity of zero or less removes the product; otherwise the matching lines take the new quantity and nothing else changes |
| Cart.UpdateKeepsDistinct | frontend/src/context/CartContext.js:62-75 | updating keeps at most one line per product |
| Cart.UpdateChangesCount | frontend/src/context/CartContext.js:62-90 | setting a line's quantity to q > 0 changes the item count by q minus its old quantity |
| Cart.ClearCart | frontend/src/context/CartContext.js:80-82 | the cart becomes empty |
| Cart.GetOrderItems | frontend/src/context/CartContext.js:107-112 | one order item per cart line, in order, carrying its product id and quantity |
| Cart.CartCount | frontend/src/context/CartContext.js:88-90 | the total quantity over the lines: non-negative for non-negative quantities and at least the number of lines when each has one unit; `Cart.CountConcat` makes it additive over concatenation |
| Cart.LinePrice | frontend/src/context/CartContext.js:98 | a line's sale price whenever one is present, even zero, and its list price otherwise; `Cart.CartPriceDiffersOnlyOnZeroSale` compares it with the server's price |
| Cart.CartPriceDiffersOnlyOnZeroSale | frontend/src/context/CartContext.js:98 | for a line carrying a product's prices, the cart's price differs from the server's current price exactly when the sale price is zero and the list price is not |
| Cart.CartSubtotal | frontend/src/context/CartContext.js:96-101 | the sum of each line's price times its quantity, non-negative for non-negative prices and quantities; `Cart.SubtotalsAgree` equates it with the order's subtotal line by line |
| Cart.LinePriceIsCurrentPrice | frontend/src/context/CartContext.js:96-101 | when a line carries the product's prices, the cart prices it as the server's current price does |
| Cart.OrderSubtotalMatchesCart | frontend/src/context/CartContext.js:96-112 | (only the corrected build creates orders) the order the server creates from the cart's items has the subtotal the cart showed, provided the cart's prices are current |

## Left out

- Payment providers: the Stripe and PayPal SDKs and the webhook signature check are left out. Their answers are parameters.
- E-mail: Celery and the e-mail task are not modelled. Each queued confirmation is a record in the outbox.
- Concurrency: simultaneous requests and database transactions are left out. Each request is one function from store to store.
- Stripe amount: the conversion of the total to cents for the intent (`int(order.total * 100)`) is left out. Cents are the model's unit already.
- Identifiers and time: order ids are UUIDs in the code and natural numbers here. Timestamps are opaque values.
- Email syntax: e-mail address validation by the serializer field is not modelled.
- Decimal precision: the 28-digit context limit and the ten-digit field limits are not modelled. Amounts are unbounded integers.
- Row order: the database's order for unsold keys is not specified, and `OrderItem` declares no `ordering`, so the order of an order's item rows is not either. The model uses insertion order for both. `_fulfill_order` walks the item rows in that order, so which item fails first, and which keys `Lifecycle.PartialAllocationKept` leaves sold, rests on this choice.
- Read-only endpoints: `my_orders`, the list endpoint and the serializers' field lists only read data and are not modelled.
- Webhook payload errors: an order id in a webhook that is not a well-formed UUID makes the lookup raise. The handler would answer 400, but the model's reference is already an order id or nothing.
- Front-end details: the cart's localStorage persistence and JavaScript floating-point arithmetic are left out. The cart works in cents.
- Cart.LinePrice: a sale price of `"0.00"` counts as a sale here, because the field arrives as a string. The validators make that value unreachable anyway.
- Payments.PreparePayment: the PayPal branch returns the placeholder reply only. No PayPal order is created, as in the code.

## Findings

| source | as written | input that shows it | evidently intended | confidence | as-written member | corrected member |
|---|---|---|---|---|---|---|
| backend/orders/models.py:128-133 | `mark_as_paid` sets PAID from any status, and `confirm_payment` calls it, then `_fulfill_order`, with no status check | a PayPal confirmation for an order that is already FULFILLED | only orders awaiting payment become PAID, and a fulfilled order is not sold again | high, not executed | Lifecycle.SecondConfirmationPaysTwice | Lifecycle.CorrectedConfirmOnFulfilledIsNoop |
| backend/orders/views.py:413-414 | a `payment_intent.payment_failed` event sets FAILED whatever the status | a failure event for an order that is PAID or FULFILLED | only an order still awaiting payment becomes FAILED | medium, not executed | Lifecycle.FailureEventDemotesPaidOrder | Lifecycle.CorrectedPaidStaysPaid |
| backend/orders/views.py:268-309 | keys sold to earlier items stay sold when a later item raises, and the order stays PAID | a paid order for one in-stock game and one DLC with no unsold keys | a failed fulfilment sells no keys | high, not executed | Lifecycle.PartialAllocationKept | Lifecycle.CorrectedPartialAllocationDiscarded |
| backend/orders/views.py:323-329 | every external key for one order and product gets the same code, which the product/code unique constraint rejects | an external item with quantity 2 | each unit gets its own key | high, not executed | Fulfilment.ExternalQuantityTwoFails | Fulfilment.ExternalDistinctCodesSucceed |
| backend/orders/models.py:66-71 | `cashback_used` defaults to the float `0.00` and `create` does not set it, so the first `calculate_total` (serializers.py:180) computes a Decimal subtotal minus a float, which raises TypeError; the order and its item rows stay, PENDING with zero totals | any valid request, e.g. one unit of an in-stock game | the default is a Decimal zero and the order is priced and created | high, not executed | Checkout.AsWrittenCreateRaisesOnTotal | Checkout.CorrectedCreateSucceeds |
| backend/orders/serializers.py:159-177 | validation accepts the same product twice; the order row is created before its items, and the second item breaks the order/product unique constraint | an item list naming one product twice | the request is rejected without creating an order | medium, not executed | Checkout.DuplicateEntriesLeaveOrphanOrder | Checkout.CorrectedCreateFailsCleanly |
