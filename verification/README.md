# Checkout order summary — a Dafny model

This project models the checkout component `OrderSummary` of a bookstore
front end (`src/app/features/cart/components/order-summary/order-summary.ts`).
The component:

- computes the checkout amounts: the subtotal, 18% GST on the discounted subtotal,
  the total, and the total in paise;
- applies the one coupon, `SALE100`, compared case-insensitively, at most once;
- opens the Razorpay payment gateway for the amount in paise;
- in the gateway's success handler, builds the order request from the freshly
  fetched cart, submits the order, and on the order service's answer confirms,
  clears the cart and saves the payment record.

Modules:

- `Wrappers`: `Option` and `Result`.
- `Amounts`: the amount functions over exact reals. `Math.round` is `Floor(x + 1/2)`, which is
  JavaScript's rounding for every finite number.
- `Coupon`: the case-insensitive code check and the two-field coupon state `(discount, applied)`.
- `Orders`: `createOrderRequest` as a function of the awaited cart, the selected address and the
  product list, returning a `Result`.
- `Trace`: the effects of checkout as a trace of abstract events. This covers the gateway
  opening, the success handler, the local snapshots, the order call and its answer, the
  confirmation, the cart clear and the payment save. The module also states the ordering
  guarantees of a trace.
- `Checkout`: the component as a class whose fields the methods update in place. `ApplyCoupon`,
  `PlaceOrder` and `OnPaymentSuccess` are each proved against the functions above. The object
  invariant `Valid()` keeps the discount at 0 or 100, in step with the applied flag. It also
  keeps the whole event trace well ordered:
  - at every point, no more orders are submitted than gateway payments succeeded;
  - no more confirmations, cart clears or payment saves happen than order answers arrived;
  - every payment saved names the order id of an earlier answer;
  - every submitted order request has an empty `items` list.

The handler empties the product list before it builds the order request. As written, every
order request the component submits therefore has no items. The model keeps this behaviour.
`Trace.HandlerEvents` and the invariant `SubmittedItemsEmpty` state it.

Behaviour of the code that the model keeps:

- A second application of the coupon raises the same "Invalid coupon code." notice as an unknown code.
- The only rounding is `Math.round` of the total times 100, which rounds halves up (towards
  positive infinity); the subtotal, GST and total are not rounded.
- The payment record's type is `razorpay`.
- Placing the order again while a checkout is open opens another gateway checkout. The
  `isLoading` flag is never read.
- The order request's items come from the product list after the handler has emptied it.

## Model

| member | source | states |
|---|---|---|
| `Amounts.SubtotalAppend` | src/app/features/cart/components/order-summary/order-summary.ts:44-46 | the left-to-right `reduce` subtotal of two lists in sequence is the sum of their subtotals |
| `Amounts.SubtotalIsSumOfLines` | src/app/features/cart/components/order-summary/order-summary.ts:44-46 | the subtotal equals an independent front-to-back sum of price × quantity; empty list gives 0 |
| `Amounts.SubtotalNonNegative` | src/app/features/cart/components/order-summary/order-summary.ts:44-46 | with non-negative prices and quantities the subtotal is ≥ 0 |
| `Amounts.Gst` | src/app/features/cart/components/order-summary/order-summary.ts:48-50 | GST is non-negative exactly when the discount does not exceed the subtotal, and then at most the discounted subtotal |
| `Amounts.Total` | src/app/features/cart/components/order-summary/order-summary.ts:52-54 | total = (subtotal − discount) × 1.18; it is ≥ 0 exactly when discount ≤ subtotal, and then ≥ subtotal − discount |
| `Amounts.Round` | src/app/features/cart/components/order-summary/order-summary.ts:66 | `Math.round` gives the integer r with r − 1/2 ≤ x < r + 1/2 |
| `Amounts.RoundIsUnique` | src/app/features/cart/components/order-summary/order-summary.ts:66 | that integer is unique, so the rounding is determined by its input |
| `Amounts.Paise` | src/app/features/cart/components/order-summary/order-summary.ts:65-67 | the paise amount is within 1/2 of total × 100 (halves up) and non-negative when discount ≤ subtotal |
| `Amounts.PaiseWithoutCoupon` | src/app/features/cart/components/order-summary/order-summary.ts:44-67 | one item at 500 × 2, no coupon: subtotal 1000, GST 180, total 1180, 118000 paise |
| `Amounts.PaiseWithCoupon` | src/app/features/cart/components/order-summary/order-summary.ts:44-67 | the same item with discount 100: GST 162, total 1062, 106200 paise |
| `Amounts.PaiseCanBeNegative` | src/app/features/cart/components/order-summary/order-summary.ts:48-66 | nothing bounds the discount by the subtotal: one item at 50 with discount 100 gives total −59 and −5900 paise |
| `Coupon.Upper` | src/app/features/cart/components/order-summary/order-summary.ts:57 | `toUpperCase` keeps the length and maps each character to its upper case |
| `Coupon.UpperCharMatches` | src/app/features/cart/components/order-summary/order-summary.ts:57 | for each character of `SALE100`, exactly its upper- and lower-case forms upper-case onto it |
| `Coupon.AcceptsIffMatchesIgnoringCase` | src/app/features/cart/components/order-summary/order-summary.ts:57 | a code is accepted if and only if it is `SALE100` up to the case of each letter |
| `Coupon.AcceptedSpellings` | src/app/features/cart/components/order-summary/order-summary.ts:57 | `SALE100`, `sale100` and `Sale100` are accepted; `bogus`, `SALE10` and `SALE100 ` are not |
| `Coupon.CouponStep` | src/app/features/cart/components/order-summary/order-summary.ts:56-63 | the notice is raised exactly when a coupon is already applied or the code is not accepted; a rejected check leaves the state unchanged; an accepted one sets discount 100 and applied |
| `Coupon.CouponStepKeepsConsistent` | src/app/features/cart/components/order-summary/order-summary.ts:56-62 | every check keeps the state at (0, not applied) or (100, applied), so the discount is always 0 or 100 |
| `Coupon.CouponStepIdempotent` | src/app/features/cart/components/order-summary/order-summary.ts:56-62 | checking a code twice leaves the same state as checking it once, and the second check raises the notice |
| `Coupon.CouponStepsKeepConsistent` | src/app/features/cart/components/order-summary/order-summary.ts:56-62 | over any series of codes the state stays consistent, and once applied it never changes |
| `Orders.ItemsOf` | src/app/features/cart/components/order-summary/order-summary.ts:81-84 | the items have the products' length and order, item i being (products[i].id, products[i].quantity) |
| `Orders.ItemsKeepUnits` | src/app/features/cart/components/order-summary/order-summary.ts:81-84 | the items ask for as many units in total as the products hold |
| `Orders.CreateOrderRequest` | src/app/features/cart/components/order-summary/order-summary.ts:69-86 | fails with an invalid-cart error exactly when the cart is missing or its id is falsy; fails for a missing address; otherwise carries the cart's id, the address's id and the products' items |
| `Orders.EmptyProductsGiveNoItems` | src/app/features/cart/components/order-summary/order-summary.ts:78-85 | with a usable cart and address, an empty product list gives a request with no items |
| `Orders.FalsyCartsRefused` | src/app/features/cart/components/order-summary/order-summary.ts:74-76 | no cart, a cart without id and a cart with id 0 are all refused |
| `Trace.HandlerEvents` | src/app/features/cart/components/order-summary/order-summary.ts:103-135 | the handler starts with the payment and the two snapshots (of the products before emptying); the order is submitted, with empty items, exactly when the request can be built; a run with a usable cart, an address and an answer goes on with the answer, the confirmation, the cart clear and the payment save (naming the answered order id, the gateway payment id and the amount captured at checkout), and a payment is saved in no other run |
| `Trace.WellFormedAppend` | src/app/features/cart/components/order-summary/order-summary.ts:103-135 | the ordering guarantees of two traces carry over to the two in sequence |
| `Trace.HandlerEventsWellFormed` | src/app/features/cart/components/order-summary/order-summary.ts:103-135 | every run of the success handler keeps the ordering guarantees |
| `Checkout.OrderSummary.constructor` | src/app/features/cart/components/order-summary/order-summary.ts:22-31 | a new component has no discount, no coupon applied, no order and an empty trace |
| `Checkout.OrderSummary.ApplyCoupon` | src/app/features/cart/components/order-summary/order-summary.ts:56-63 | updates the two coupon fields as `CouponStep` does and records the notice exactly when it rejects; keeps the invariant |
| `Checkout.OrderSummary.PlaceOrder` | src/app/features/cart/components/order-summary/order-summary.ts:88-99 | opens one more gateway checkout for the current paise amount, capturing the total and the paise |
| `Checkout.OrderSummary.OnPaymentSuccess` | src/app/features/cart/components/order-summary/order-summary.ts:103-135 | empties the products, appends exactly the handler's events, and on an answer sets the order id, the confirmation and the order details (paise / 100); keeps the invariant |
| `Checkout.CouponScenario` | src/app/features/cart/components/order-summary/order-summary.ts:56-67 | applying an accepted code twice gives discount 100 and one notice, and the gateway opens for 106200 paise |
| `Checkout.HandlerScenario` | src/app/features/cart/components/order-summary/order-summary.ts:103-135 | a paid checkout with cart 7 answered as order 42 saves the payment for order 42; a cart with id 0 saves nothing |

## Left out

- `src/app/core/services/user.service.ts` is not part of this model. It only passes HTTP calls through and reads the token from local storage.
- These foreign, asynchronous or UI calls appear only as abstract events in the trace: the Razorpay SDK (`Razorpay`, `open`), `NgZone.run`, the store dispatch, local storage, `alert` and `console.log`.
- The navigation to the confirmation page is not modelled. The component makes it one second after the confirmation signal is set, and the `OrderConfirmed` event stands for it.
- The `setTimeout` delays are not modelled. In particular, `PlaceOrder` reads the amounts when it runs, so a change to the products or the discount during the source's two-second delay is not modelled.
- `isLoading` is not modelled. It is a spinner flag that nothing reads.
- The date in the order details is wall-clock time and is not modelled.
- Prices are exact reals. The IEEE-754 rounding of JavaScript numbers (in × 0.18 and × 100) is not modelled.
- Coupon.Upper: changes only the ASCII letters a-z. JavaScript's `toUpperCase` also maps other characters. For example, it maps U+017F (long s) to `S`, so the source accepts `ſale100` and the model does not.
- Coupon.Upper: one-to-many mappings such as `ß` to `SS` are not modelled either.
- Orders.CreateOrderRequest: the awaited cart is an `Option`. A failed cart fetch and a missing cart are both `None`; each makes the handler stop, as a rejected `await` does.
- Orders.CreateOrderRequest: ids are integers. The only falsy `cartId` values modelled are a missing id and 0; `NaN` and the empty string are not.
- Orders.CreateOrderRequest: the selected address is an `Option`. A missing address makes reading its `addressId` throw, and the model returns `MissingAddress` for this. An address object without an `addressId` field is not modelled.
- The cart's item list is not modelled, because the component reads only its `cartId`.
- Checkout.OrderSummary.OnPaymentSuccess: an order call that fails and one that never answers are both `None`; in both the subscription callback never runs.
- Checkout.OrderSummary.OnPaymentSuccess: the result of the payment save is not modelled, because the source only logs it.
- The component handles no gateway cancellation, failure or timeout, and neither does the model.
- Checkout.OrderSummary.OnPaymentSuccess: it may run any number of times for each opened gateway checkout. The source has no guard against this, and the gateway's promise to call back at most once is not assumed.
- Checkout.OrderSummary.OnPaymentSuccess: runs the whole success handler as one atomic step. In the source, awaiting the order request and waiting for the order answer are suspension points. `applyCoupon`, `placeOrder` or the handler of another gateway checkout can run in between, so the source can interleave handler runs in ways the model does not produce. The ordering guarantees are stated by counting prefixes, so they are meant to hold on such interleavings too, but the model does not show it.
