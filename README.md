# A verified model of the R-Com storefront's payment webhooks and storefront logic

This project models, in Dafny, the core of a Rust e-commerce system:

- **The payment webhook pipeline** (`backend/src/webhooks/`). A Stripe or Square notification is
  authenticated and checked for redelivery. It is logged as a webhook-event row. It is then dispatched
  by event type, may create one order row, and is marked processed or failed.
  - The database is a `Webhooks.Store` object holding an events table, an orders table and an id
    counter. Its methods change the tables in place.
  - Each handler is a method proved to produce exactly what a pure specification function
    (`StripeWebhookSpec`, `SquareWebhookSpec`) returns for the old tables.
  - The properties of the pipeline are lemmas about those functions: idempotence of redelivery, the
    status-code policy, what each event type writes, and that nothing else changes.
- **The storefront's client-side logic**. This covers:
  - the shopping cart, a `Cart` object whose item list is updated in place;
  - the stock and order-status classifiers;
  - `truncate`;
  - the catalog's search filter, stable sort and reversal;
  - the product page's id lookup, quantity stepper and add-to-cart.
- **Small backend helpers**:
  - the SMS provider choice, phone-number normalisation toward ITU-T E.164, and the mapping of
    Textbelt and Twilio replies to results;
  - the Square payments client: the base URL, the request defaults and the classification of responses.

Calls into code that cannot be seen are parameters, so every lemma holds for every behaviour of them:

- the database driver: each call site has an explicit optional fault;
- Stripe's `construct_event`;
- HMAC-SHA256, base64, UTF-8 decoding and JSON (de)serialisation;
- HTTP transports;
- fresh UUIDs.

Modules follow the source files:

| Module | File |
|---|---|
| `Webhooks` | `webhooks.dfy` |
| `StripeWebhook` | `stripe_webhook.dfy` |
| `SquareWebhook` | `square_webhook.dfy` |
| `CartModel` | `cart.dfy` |
| `ProductTypes` | `product_types.dfy` |
| `OrderTypes` | `order_types.dfy` |
| `Utils` | `utils.dfy` |
| `Catalog` | `catalog.dfy` |
| `ProductPage` | `product_page.dfy` |
| `Sms` | `sms.dfy` |
| `SquarePayments` | `square_payments.dfy` |
| `HttpStatus` (the status codes answered) | `http_status.dfy` |
| `Text` (shared ASCII helpers) | `text.dfy` |
| `Wrappers` (`Option`, `Result`) | `wrappers.dfy` |

Behaviour of the code worth knowing, modelled as written:

- **A charge and a checkout session for the same payment intent can create two orders.** The charge
  handler first looks for an existing order with that payment intent
  (`backend/src/webhooks/stripe.rs:190-209`). The checkout handler does not
  (`backend/src/webhooks/stripe.rs:256-275`). So a `charge.succeeded` followed by a
  `checkout.session.completed` for the same intent creates two orders
  (`ChargeThenCheckoutCreatesTwoOrders`), while the reverse order creates one
  (`CheckoutThenChargeCreatesOneOrder`).
- **The Square signature test is a plain string comparison.** A comment describes it as constant-time,
  but the code compares with `==`. Timing is not modelled, and the result is the same as an equality
  test.
- **Square orders keep the currency verbatim.** Stripe upper-cases the currency; the Square handler
  copies it unchanged.
- **`processed` becomes the dispatch outcome.** It is not unconditionally true: a failed dispatch
  leaves `processed = false` with the error message.

Prices are modelled as `real`. A finite `f64` is a real number, and comparing two finite `f64` values
agrees with comparing their real values. So the price sorts are modelled exactly as stable sorts, as
are the name sorts.

## Model

| member | source | states |
|---|---|---|
| Webhooks.ProviderName | backend/src/webhooks/mod.rs:24-31 | the `Display` text of a provider, "stripe" or "square" |
| Webhooks.StatusName | backend/src/webhooks/mod.rs:47-56 | the `Display` text of an order status, one of "pending", "completed", "failed", "refunded" |
| Webhooks.Tables.HasEvent | backend/src/webhooks/mod.rs:206-220 | whether some webhook-event row carries the event id, whatever its `processed` flag |
| Webhooks.Tables.Log | backend/src/webhooks/mod.rs:125-146 | the tables after inserting one unprocessed event row under the next id, and that id |
| Webhooks.Tables.Mark | backend/src/webhooks/mod.rs:149-169 | the tables after the UPDATE that sets `processed` and `error_message` on the rows with that id |
| Webhooks.Tables.Insert | backend/src/webhooks/mod.rs:172-203 | the tables after inserting one order row under the next id, and that id |
| Webhooks.ProviderNameInjective | backend/src/webhooks/mod.rs:24-31 | `PaymentProvider`'s display strings "stripe" and "square" are distinct, so the provider column identifies the provider |
| Webhooks.StatusNameInjective | backend/src/webhooks/mod.rs:47-56 | the four order-status strings are pairwise distinct |
| Webhooks.LogAppendsOneRow | backend/src/webhooks/mod.rs:125-146 | logging appends exactly one row with a fresh id, the given provider, type, event id and payload, and `processed = false`; it changes no other row and does not touch the orders; the event id is then known |
| Webhooks.MarkChangesOnlyThatRow | backend/src/webhooks/mod.rs:149-169 | marking sets `processed := success` and `error_message := err` on the row with that id, and leaves every other row, the orders and the counter unchanged |
| Webhooks.MarkKeepsEvents | backend/src/webhooks/mod.rs:149-169 | marking keeps the tables valid and keeps the set of known event ids |
| Webhooks.MarkUnlessFailsKeepsEvents | backend/src/webhooks/mod.rs:149-169 | a mark whose result is ignored (`.ok()`) changes at most the status columns of that row, whether or not it fails |
| Webhooks.InsertAppendsOneOrder | backend/src/webhooks/mod.rs:172-203 | creating an order appends exactly one row with a fresh id and the given provider, status and amount, and leaves the events alone |
| Webhooks.Store.LogWebhookEvent | backend/src/webhooks/mod.rs:125-146 | on success the events table is the old table plus the one new row, under an id no old row has; on a database error nothing changes |
| Webhooks.Store.MarkWebhookProcessed | backend/src/webhooks/mod.rs:149-169 | the rows with that id get the new flag and message, and nothing else changes; on error nothing changes |
| Webhooks.Store.CreateOrderRow | backend/src/webhooks/mod.rs:172-203 | on success the orders table gains exactly the new row under a fresh id; on error nothing changes |
| Webhooks.Store.IsEventProcessed | backend/src/webhooks/mod.rs:206-220 | the answer is true iff some row has that event id, whatever its `processed` flag; a database error is passed on |
| Webhooks.Finish | backend/src/webhooks/stripe.rs:108-119 | the final step of both handlers: the 200 answer, with the error if any, and the tables after the final mark (a failed mark is ignored) |
| Webhooks.FinishAnswersOk | backend/src/webhooks/stripe.rs:108-119 | whatever dispatch returned, the answer is 200; an error is reported in the body and, unless the mark fails, recorded as `processed = false` with that message; a success is recorded as `processed = true` |
| Webhooks.FinishRequest | backend/src/webhooks/square.rs:176-187 | the store is changed exactly as `Finish` says |
| Webhooks.CreateOrderSpec | backend/src/webhooks/stripe.rs:159-161 | `create_order` with its error mapped to "Failed to create order: …": the result and the tables after it |
| Webhooks.CreateOrderSpecEffect | backend/src/webhooks/stripe.rs:159-161 | `create_order` either appends the order or yields "Failed to create order: …" and changes nothing |
| Webhooks.CreateOrderOrReport | backend/src/webhooks/stripe.rs:159-161 | the store is changed exactly as `CreateOrderSpec` says |
| Webhooks.MarkIsDispatchStep | backend/src/webhooks/stripe.rs:99-104 | a dispatch step that only marks the event keeps the orders and the known events |
| Webhooks.CreateOrderIsDispatchStep | backend/src/webhooks/stripe.rs:147-161 | a dispatch step that creates a completed order linked to the event adds at most that one order |
| StripeWebhook.PaymentIntentSucceededSpec | backend/src/webhooks/stripe.rs:123-172 | `handle_payment_intent_succeeded`: the "Expected PaymentIntent object" error for another object, else the order built from the intent, created |
| StripeWebhook.ChargeSucceededSpec | backend/src/webhooks/stripe.rs:175-234 | `handle_charge_succeeded`: the object check, the existing-order lookup by payment intent and its "Database error: …", then the charge's order, created |
| StripeWebhook.CheckoutSessionCompletedSpec | backend/src/webhooks/stripe.rs:237-286 | `handle_checkout_session_completed`: the object check, then the session's order with amount 0 and currency "USD" when absent, created |
| StripeWebhook.DispatchSpec | backend/src/webhooks/stripe.rs:89-105 | the dispatch on the event type: the three handled types go to their handlers; any other type is marked processed and succeeds |
| StripeWebhook.StripeWebhookSpec | backend/src/webhooks/stripe.rs:22-120 | the whole handler: header check, secret, `construct_event`, idempotency check, log, dispatch and final mark, as a response and the new tables |
| StripeWebhook.FindOrderByPaymentIntent | backend/src/webhooks/stripe.rs:195-208 | the lookup is true iff some order has that payment intent id |
| StripeWebhook.HandlePaymentIntentSucceeded | backend/src/webhooks/stripe.rs:123-172 | the response and new tables are exactly `PaymentIntentSucceededSpec` of the old tables |
| StripeWebhook.HandleChargeSucceeded | backend/src/webhooks/stripe.rs:175-234 | the response and new tables are exactly `ChargeSucceededSpec` of the old tables |
| StripeWebhook.HandleCheckoutSessionCompleted | backend/src/webhooks/stripe.rs:237-286 | the response and new tables are exactly `CheckoutSessionCompletedSpec` of the old tables |
| StripeWebhook.HandleStripeWebhook | backend/src/webhooks/stripe.rs:22-120 | the response and new tables are exactly `StripeWebhookSpec` of the old tables |
| StripeWebhook.DispatchEffect | backend/src/webhooks/stripe.rs:89-105 | dispatch writes at most one order; that order is a completed Stripe order pointing at the logged event; dispatch changes only the status columns of that event |
| StripeWebhook.LoggedRequestEffect | backend/src/webhooks/stripe.rs:52-119 | a new verified event is answered 200 and logged once with its id, type and payload; old rows are unchanged and at most one order is added; with the final mark applied, `processed` holds iff there was no error, and the row carries the error |
| StripeWebhook.UnverifiedIsRejected | backend/src/webhooks/stripe.rs:28-48 | a missing header or a failed signature check is a 400 and changes nothing |
| StripeWebhook.DuplicateOrStoreFailure | backend/src/webhooks/stripe.rs:52-86 | a known event id is a 200 duplicate with no change; a failed check or log is a 500 with the driver's message and no change |
| StripeWebhook.StatusPolicy | backend/src/webhooks/stripe.rs:22-120 | the status is 200, 400 or 500; every non-200 leaves the tables unchanged; every non-duplicate 200 was logged |
| StripeWebhook.IgnoredTypeCreatesNoOrder | backend/src/webhooks/stripe.rs:99-104 | another event type creates no order, is answered without error and is marked processed |
| StripeWebhook.MismatchedObjectIsReported | backend/src/webhooks/stripe.rs:128-131 | an event whose object has the wrong kind is reported with the matching "Expected … object" message, creates no order and is recorded as failed |
| StripeWebhook.PaymentIntentCreatesOrder | backend/src/webhooks/stripe.rs:141-161 | `payment_intent.succeeded` appends one completed order with the intent's id, email, amount and upper-cased currency, or reports the insert failure |
| StripeWebhook.ChargeCreatesOrderOnce | backend/src/webhooks/stripe.rs:190-229 | `charge.succeeded` for an intent that already has an order adds nothing; otherwise it appends an order with the charge's id, intent, billing email, billing name and upper-cased currency |
| StripeWebhook.ChargeLookupFailureIsReported | backend/src/webhooks/stripe.rs:197-203 | a failed existing-order lookup is reported as "Database error: …" and creates no order |
| StripeWebhook.CheckoutSessionCreatesOrder | backend/src/webhooks/stripe.rs:253-275 | `checkout.session.completed` appends one order with the session id, its intent, the amount or 0, and the upper-cased currency or "USD" |
| StripeWebhook.RedeliveryIsDuplicate | backend/src/webhooks/stripe.rs:52-56 | after a delivery is logged, any later request that verifies to an event with the same id (a replay or a re-signed retry) is a 200 duplicate that changes nothing; one delivery adds at most one order |
| StripeWebhook.OtherEventStillNew | backend/src/webhooks/stripe.rs:52-86 | handling one event never makes a different event id look processed |
| StripeWebhook.ChargeThenCheckoutCreatesTwoOrders | backend/src/webhooks/stripe.rs:195-208 | a charge and then a checkout session for the same intent create two orders for it |
| StripeWebhook.CheckoutThenChargeCreatesOneOrder | backend/src/webhooks/stripe.rs:195-208 | in the other order the charge finds the checkout's order and only one order exists |
| StripeWebhook.PaymentIntentExample | backend/src/webhooks/stripe.rs:147-157 | on an empty database a 2500 "usd" intent yields one processed event and one completed "USD" order of 2500 for `pi_1`; redelivering it is a duplicate |
| SquareWebhook.VerifySquareSignature | backend/src/webhooks/square.rs:191-216 | false when the key is refused; otherwise whether the signature equals base64 of HMAC-SHA256 over the notification URL followed by the body |
| SquareWebhook.PaymentUpdatedSpec | backend/src/webhooks/square.rs:219-285 | `handle_payment_updated`: the missing-payment error, success without an order unless COMPLETED, the lookup and its "Database error: …", no order when one exists, else the Square order, created |
| SquareWebhook.SquareWebhookSpec | backend/src/webhooks/square.rs:80-188 | the whole handler: header, key and URL defaults, signature, UTF-8 and JSON, idempotency check, log, dispatch and final mark, as a response and the new tables |
| SquareWebhook.SignatureIsHmacOfUrlAndBody | backend/src/webhooks/square.rs:191-216 | a signature passes iff the key is accepted and the signature is base64(HMAC-SHA256(key, url ++ body)) |
| SquareWebhook.AtMostOneSignaturePasses | backend/src/webhooks/square.rs:191-216 | for a given key, URL and body at most one signature string passes |
| SquareWebhook.FindSquareOrder | backend/src/webhooks/square.rs:247-253 | the lookup is true iff some Square order has that payment id |
| SquareWebhook.HandlePaymentUpdated | backend/src/webhooks/square.rs:219-285 | the result and new tables are exactly `PaymentUpdatedSpec` of the old tables |
| SquareWebhook.HandleSquareWebhook | backend/src/webhooks/square.rs:80-188 | the response and new tables are exactly `SquareWebhookSpec` of the old tables |
| SquareWebhook.DispatchEffect | backend/src/webhooks/square.rs:157-173 | dispatch writes at most one completed Square order pointing at the event, and an order it writes carries the payment's id |
| SquareWebhook.LoggedRequestEffect | backend/src/webhooks/square.rs:112-187 | a new authenticated event is answered 200 and logged once; old rows are unchanged and at most one order is added |
| SquareWebhook.UnverifiedIsRejected | backend/src/webhooks/square.rs:86-116 | a missing header is 400, a wrong signature is 401, and a body that is not UTF-8 JSON is 400; none of them changes anything |
| SquareWebhook.DuplicateOrStoreFailure | backend/src/webhooks/square.rs:119-154 | a known event id is a 200 duplicate; a failed check or log is a 500; no change in each case |
| SquareWebhook.StatusPolicy | backend/src/webhooks/square.rs:80-188 | the status is 200, 400, 401 or 500; non-200 changes nothing; every non-duplicate 200 was logged |
| SquareWebhook.CompletedPaymentCreatesOrder | backend/src/webhooks/square.rs:241-277 | a new COMPLETED payment appends one Square order with its id, no intent id, the buyer's email, and the amount and currency as sent |
| SquareWebhook.NoOrderUnlessNewCompletedPayment | backend/src/webhooks/square.rs:157-173 | another event type, a payment that is not COMPLETED, or a payment already ordered adds no order and no error |
| SquareWebhook.MissingPaymentIsReported | backend/src/webhooks/square.rs:225-230 | a `payment.updated` without a payment object is reported and recorded as failed, with no order |
| SquareWebhook.SquareRequestKeepsPaymentsUnique | backend/src/webhooks/square.rs:247-277 | if no two Square orders share a payment id before a request, none do after it |
| SquareWebhook.RedeliveryIsDuplicate | backend/src/webhooks/square.rs:119-135 | after a delivery is logged, any later authenticated request whose event has the same `event_id` is a 200 duplicate that changes nothing |
| CartModel.Added | frontend-leptos/src/types/cart.rs:39-45 | the items after `add_item`: the first item of that product gains the quantity, or a new item is pushed |
| CartModel.Removed | frontend-leptos/src/types/cart.rs:48-50 | the items after `remove_item`: every item of other products, in order |
| CartModel.Updated | frontend-leptos/src/types/cart.rs:53-59 | the items after `update_quantity`: removal for 0, else the first item of that product takes the quantity |
| CartModel.TotalQuantity | frontend-leptos/src/types/cart.rs:67-69 | the sum of the items' quantities |
| CartModel.Cart.TotalItems | frontend-leptos/src/types/cart.rs:67-69 | `total_items` of the cart's items |
| CartModel.Cart.IsEmpty | frontend-leptos/src/types/cart.rs:102-104 | whether the cart has no items |
| CartModel.FirstIndex | frontend-leptos/src/types/cart.rs:40 | the index found is the first item with that product id, and None means no item has it |
| CartModel.Cart.AddItem | frontend-leptos/src/types/cart.rs:39-45 | the items become `Added(old items)`, the cart's ids stay unique, and `total_items` rises by the quantity |
| CartModel.Cart.RemoveItem | frontend-leptos/src/types/cart.rs:48-50 | the items become `Removed(old items, id)` and the ids stay unique |
| CartModel.Cart.UpdateQuantity | frontend-leptos/src/types/cart.rs:53-59 | the items become `Updated(old items, id, q)` and the ids stay unique |
| CartModel.Cart.Clear | frontend-leptos/src/types/cart.rs:62-64 | after `clear`, `is_empty` holds and `total_items` is 0 |
| CartModel.AddedMeaning | frontend-leptos/src/types/cart.rs:39-45 | adding a product already present raises that one item's quantity; adding a new one appends one item at the end; no other item changes |
| CartModel.AddedKeepsIdsUnique | frontend-leptos/src/types/cart.rs:39-45 | adding keeps product ids unique |
| CartModel.AddedRaisesTotal | frontend-leptos/src/types/cart.rs:39-45 | `total_items` grows by exactly the quantity added |
| CartModel.TotalOfAppend | frontend-leptos/src/types/cart.rs:67-69 | the item total of a concatenation is the sum of the totals |
| CartModel.RemovedMeaning | frontend-leptos/src/types/cart.rs:48-50 | an item survives removal iff it was there and is for another product; removing an absent id changes nothing |
| CartModel.RemovedKeepsIdsUnique | frontend-leptos/src/types/cart.rs:48-50 | removal keeps product ids unique |
| CartModel.RemovedDropsOneItem | frontend-leptos/src/types/cart.rs:48-50 | in a valid cart, removing a present product drops exactly its one item, in place, and lowers the total by its quantity |
| CartModel.UpdatedMeaning | frontend-leptos/src/types/cart.rs:53-59 | quantity 0 is removal; otherwise the first matching item takes the new quantity, nothing else changes, and an absent id is a no-op |
| CartModel.UpdatedKeepsIdsUnique | frontend-leptos/src/types/cart.rs:53-59 | updating keeps product ids unique |
| ProductTypes.IsInStock | frontend-leptos/src/types/product.rs:19-21 | whether the inventory is positive |
| ProductTypes.StockStatus | frontend-leptos/src/types/product.rs:35-41 | "Out of Stock" for 0, "Low Stock" for 1 to 5, else "In Stock" |
| ProductTypes.StockStatusClass | frontend-leptos/src/types/product.rs:44-50 | the badge class for the same three ranges |
| ProductTypes.Label | frontend-leptos/src/types/product.rs:64-72 | the text shown for each sort order |
| ProductTypes.StockStatusRanges | frontend-leptos/src/types/product.rs:35-41 | "Out of Stock" is exactly inventory 0, "Low Stock" exactly 1..5, and "In Stock" everything else, negatives included |
| ProductTypes.StockStatusClassAgrees | frontend-leptos/src/types/product.rs:44-50 | the badge class uses the same three ranges: badge-error, badge-warning, badge-success |
| ProductTypes.NegativeInventoryShownInStock | frontend-leptos/src/types/product.rs:19-41 | `is_in_stock` holds iff inventory > 0, yet a negative inventory is shown as "In Stock" |
| ProductTypes.LabelInjective | frontend-leptos/src/types/product.rs:64-72 | the five sort-order labels are pairwise distinct |
| OrderTypes.Label | frontend-leptos/src/types/order.rs:39-47 | the text shown for each order status |
| OrderTypes.BadgeClass | frontend-leptos/src/types/order.rs:49-57 | the badge class for each order status |
| OrderTypes.LabelInjective | frontend-leptos/src/types/order.rs:39-47 | each status has its capitalised name, and the five labels are pairwise distinct |
| OrderTypes.BadgeClassInjective | frontend-leptos/src/types/order.rs:49-57 | the badge classes are badge, badge-primary, badge-info, badge-success and badge-error, pairwise distinct |
| Utils.Truncate | frontend-leptos/src/utils/mod.rs:9-15 | text that fits comes back unchanged; longer text becomes its first `max_len` characters followed by "..." |
| Utils.TruncateKeepsPrefix | frontend-leptos/src/utils/mod.rs:9-15 | the result always begins with the first min(len, max_len) characters and is at most `max_len + 3` long |
| Utils.TruncateIdempotent | frontend-leptos/src/utils/mod.rs:9-15 | truncating text that fits, or text already truncated to at most the limit, changes nothing |
| Catalog.SortOrderFromSelect | frontend-leptos/src/pages/catalog.rs:72-78 | the sort order chosen by a select value, Newest for any unknown value |
| Catalog.Searched | frontend-leptos/src/pages/catalog.rs:31-34 | the products whose lower-cased name or description contains the query, in order |
| Catalog.Kept | frontend-leptos/src/pages/catalog.rs:29-35 | all products for an empty query, else those matching the lower-cased query |
| Catalog.Le | frontend-leptos/src/pages/catalog.rs:38-43 | whether the comparison closure of a sort order puts one product no later than another: by name, by reversed name, by price or by reversed price |
| Catalog.StableSort | frontend-leptos/src/pages/catalog.rs:39-42 | the reference stable sort by that comparison |
| Catalog.SelectRoundTrip | frontend-leptos/src/pages/catalog.rs:72-85 | each option's value selects its own order; any value other than the four named ones selects Newest |
| Catalog.SearchedMeaning | frontend-leptos/src/pages/catalog.rs:31-34 | a product survives the filter iff it was listed and its lower-cased name or description contains the query; nothing is added or duplicated |
| Catalog.SearchedDistributes | frontend-leptos/src/pages/catalog.rs:31-34 | the filter distributes over concatenation, so the survivors keep their order |
| Catalog.KeptMeaning | frontend-leptos/src/pages/catalog.rs:29-35 | an empty query keeps every product, and the query's own case does not matter |
| Catalog.LeTotal | frontend-leptos/src/pages/catalog.rs:39-42 | each of the five comparisons is total |
| Catalog.LeTransitive | frontend-leptos/src/pages/catalog.rs:39-42 | each of the five comparisons is transitive |
| Catalog.SameKeyIsSameName | frontend-leptos/src/pages/catalog.rs:39-40 | for the name orders, comparing Equal means having the same name |
| Catalog.InsertSorted | frontend-leptos/src/pages/catalog.rs:39-42 | one insertion step keeps a sorted list sorted |
| Catalog.InsertStable | frontend-leptos/src/pages/catalog.rs:39-42 | an inserted element lands after every element with the same key |
| Catalog.InsertStableStep | frontend-leptos/src/pages/catalog.rs:39-42 | moving an element past one that compares greater never reorders elements of one key |
| Catalog.StableSortPermutes | frontend-leptos/src/pages/catalog.rs:39-42 | the sort returns a permutation of its input |
| Catalog.StableSortStable | frontend-leptos/src/pages/catalog.rs:39-42 | for every key, the sort keeps the elements with that key in their input order |
| Catalog.StableSortMeaning | frontend-leptos/src/pages/catalog.rs:39-42 | the sort is sorted, a permutation of its input, and stable: for every key the elements with that key keep their input order |
| Catalog.RetainMatching | frontend-leptos/src/pages/catalog.rs:31-34 | the loop keeps exactly the filter's survivors |
| Catalog.InsertInto | frontend-leptos/src/pages/catalog.rs:39-42 | the shifting loop places the element where the reference insertion does |
| Catalog.SortBy | frontend-leptos/src/pages/catalog.rs:39-42 | the insertion sort gives the reference stable sort: sorted, and a permutation of its input |
| Catalog.Reverse | frontend-leptos/src/pages/catalog.rs:43 | element i of the result is element n-1-i of the input |
| Catalog.FilteredProducts | frontend-leptos/src/pages/catalog.rs:25-49 | nothing until the fetch has succeeded; then the kept products, either as a stable sorted permutation or reversed for Newest |
| ProductPage.ParseI32 | frontend-leptos/src/pages/product.rs:25 | `str::parse::<i32>`: an optional sign, one or more digits, a value within `i32`; None otherwise |
| ProductPage.LookupProduct | frontend-leptos/src/pages/product.rs:22-42 | the product shown: the `id` parameter parsed, then the first fetched product with that id |
| ProductPage.AsU32 | frontend-leptos/src/pages/product.rs:138-139 | `inventory as u32`, with a negative value wrapping around |
| ProductPage.Decremented | frontend-leptos/src/pages/product.rs:130 | the "-" button's new quantity, `q.saturating_sub(1).max(1)` |
| ProductPage.Incremented | frontend-leptos/src/pages/product.rs:138 | the "+" button's new quantity, `(q + 1).min(inventory as u32)`, with the addition wrapping |
| ProductPage.MinusDisabled | frontend-leptos/src/pages/product.rs:131 | "-" is disabled when q is at most 1 |
| ProductPage.PlusDisabled | frontend-leptos/src/pages/product.rs:139 | "+" is disabled when q has reached `inventory as u32` |
| ProductPage.ParseI32RoundTrip | frontend-leptos/src/pages/product.rs:22-27 | parsing the decimal text of any `i32` gives that `i32` back |
| ProductPage.ParseI32Range | frontend-leptos/src/pages/product.rs:22-27 | an unsigned decimal parses iff its value fits in an `i32` |
| ProductPage.ParseI32Refuses | frontend-leptos/src/pages/product.rs:22-27 | an empty string, a bare sign and a non-digit do not parse; a leading '+' is accepted |
| ProductPage.FindById | frontend-leptos/src/pages/product.rs:37-38 | the product found is the first one with that id; None means no product has it |
| ProductPage.LookupMeaning | frontend-leptos/src/pages/product.rs:22-41 | a product is shown iff the parameter exists, parses, the fetch succeeded and some product has that id; it is then the first such product |
| ProductPage.StepperMeaning | frontend-leptos/src/pages/product.rs:130-139 | "-" never goes below 1; within 1..inventory both buttons stay in range; an enabled button moves q by exactly one; a disabled button (q <= 1, q >= inventory) leaves q unchanged |
| ProductPage.ClicksStayInRange | frontend-leptos/src/pages/product.rs:130-139 | from 1 with the stepper shown, any sequence of clicks keeps 1 <= q <= inventory |
| ProductPage.ProductPage.Decrement | frontend-leptos/src/pages/product.rs:130 | the new quantity is `max(1, q saturating- 1)` and the range invariant is kept |
| ProductPage.ProductPage.Increment | frontend-leptos/src/pages/product.rs:138 | the new quantity is `min(q + 1, inventory as u32)` and the range invariant is kept |
| ProductPage.ProductPage.HandleAddToCart | frontend-leptos/src/pages/product.rs:48-51 | the cart gains the current quantity of the product, so `total_items` grows by exactly that quantity |
| Sms.ProviderFromEnv | backend/src/textbelt_sms.rs:32-39 | the provider named by SMS_PROVIDER, ignoring ASCII case, with "textbelt" as default |
| Sms.Digits | backend/src/textbelt_sms.rs:239 | the ASCII digits of a string, in order |
| Sms.FormatPhoneNumber | backend/src/textbelt_sms.rs:237-254 | the E.164 form of a phone number, or the "at least 10 digits" error |
| Sms.TwilioFromPhone | backend/src/textbelt_sms.rs:175-179 | the sender number with a '+' added when it lacks one |
| Sms.SendTextbelt | backend/src/textbelt_sms.rs:126-159 | `send_textbelt_sms` over a given transport: the key check, the request, and the error strings for send, parse and refusal |
| Sms.SendTwilio | backend/src/textbelt_sms.rs:162-216 | `send_twilio_sms` over a given transport: the three settings checks, the request, and the error strings for send, HTTP status and parse |
| Sms.SendSmsViaProvider | backend/src/textbelt_sms.rs:219-234 | the configured provider's send, with its result mapped to (success, quota remaining) |
| Sms.ProviderChoice | backend/src/textbelt_sms.rs:32-39 | the provider is Twilio iff SMS_PROVIDER is set and lower-cases to "twilio"; otherwise, and when unset, it is Textbelt |
| Sms.ConfigFromEnv | backend/src/textbelt_sms.rs:31-50 | the configuration always exists, copies each setting, and defaults the Textbelt URL |
| Sms.DigitsMeaning | backend/src/textbelt_sms.rs:239 | exactly the ASCII digits are kept, in order |
| Sms.FormatPhoneNumberCases | backend/src/textbelt_sms.rs:242-253 | 10 digits give "+1" ++ digits; 11 or more give "+" ++ digits; fewer than 10 give the error, never Ok |
| Sms.FormatPhoneNumberShape | backend/src/textbelt_sms.rs:237-254 | every Ok result is '+' followed only by digits, with at least 11 characters |
| Sms.FormatPhoneNumberOnlyDigits | backend/src/textbelt_sms.rs:239 | only the digits decide the result |
| Sms.FormatPhoneNumberIdempotent | backend/src/textbelt_sms.rs:237-254 | formatting an accepted number again gives it back unchanged |
| Sms.TwilioFromPhoneMeaning | backend/src/textbelt_sms.rs:175-179 | the sender gains '+' iff it lacks one, always ends with the configured number, and prefixing is idempotent |
| Sms.TextbeltOutcomes | backend/src/textbelt_sms.rs:126-159 | without a key nothing is sent; a reply with `success = false` becomes its error or "Unknown error"; only a successful parsed reply is Ok |
| Sms.TwilioMissingSettings | backend/src/textbelt_sms.rs:167-172 | the account SID, auth token and sender number are demanded in that order |
| Sms.TwilioRequestOutcomes | backend/src/textbelt_sms.rs:174-216 | the message is sent from a '+' number; only a parsed reply to a success status is Ok; an unreadable error body is reported by its status |
| Sms.SendSmsViaProviderMeaning | backend/src/textbelt_sms.rs:219-234 | the configured provider is called and its errors pass through; Twilio success is `(true, None)`; Textbelt success is `(true, quota)` |
| SquarePayments.NewSquareClient | backend/src/square_payments.rs:20-33 | a client with the production URL for "production" and the sandbox URL otherwise |
| SquarePayments.ClientFromEnv | backend/src/square_payments.rs:126-132 | `square_client`: a client when the token and application id are set, the environment defaulting to "sandbox" |
| SquarePayments.LocationIdFromEnv | backend/src/square_payments.rs:134-136 | `square_location_id`: the configured location, or the default one |
| SquarePayments.BuildPaymentRequest | backend/src/square_payments.rs:155-174 | the request sent to Square: the idempotency key and location defaulted, autocomplete and note set |
| SquarePayments.ErrorDetails | backend/src/square_payments.rs:195-198 | the error entries joined by ", " |
| SquarePayments.ClassifyResponse | backend/src/square_payments.rs:194-210 | the answer for a parsed Square response: 400 with the errors, the payment's fields, or 500 |
| SquarePayments.CreateSquarePayment | backend/src/square_payments.rs:147-211 | `create_square_payment` over a given transport: client, request, send, parse and classification |
| SquarePayments.BaseUrlChoice | backend/src/square_payments.rs:21-24 | exactly "production" selects https://connect.squareup.com; any other string, "Production" included, selects the sandbox |
| SquarePayments.ClientFromEnvMeaning | backend/src/square_payments.rs:126-136 | a client exists iff the token and the application id are set; an unset environment means the sandbox; the location defaults to LP7V5561FPK0B |
| SquarePayments.BuildPaymentRequestMeaning | backend/src/square_payments.rs:155-174 | a supplied key and location are used verbatim, missing ones are defaulted; the nonce and amount pass through; autocomplete is `Some(true)` and the note is set; nothing else is |
| SquarePayments.BuildPaymentRequestKeepsSupplied | backend/src/square_payments.rs:155-159 | defaults apply only to missing values: rebuilding with the chosen key and location gives the same request |
| SquarePayments.ErrorEntries | backend/src/square_payments.rs:195-197 | one "code: detail" entry per error, in order |
| SquarePayments.ClassifyResponseMeaning | backend/src/square_payments.rs:194-210 | errors give 400 "Square API errors: …", even beside a payment or when the list is empty; a payment alone is copied into the answer; neither gives 500 "No payment data returned from Square"; the answer is a success iff there are no errors and there is a payment |
| SquarePayments.ErrorDetailsExamples | backend/src/square_payments.rs:195-198 | errors are joined by ", " in their order |
| SquarePayments.CreateSquarePaymentMeaning | backend/src/square_payments.rs:147-211 | without a client nothing is sent (500); the built request goes to base URL + "/v2/payments" with the bearer token; an unsent or unparsed answer is a failure; a parsed answer is classified; success iff the parsed answer has a payment and no errors; every failure is 400 or 500 |
| Text.LexLeTotal | frontend-leptos/src/pages/catalog.rs:39-40 | the string order used by the name sorts is total |
| Text.LexLeTransitive | frontend-leptos/src/pages/catalog.rs:39-40 | the string order used by the name sorts is transitive |
| Text.LexLeAntisymmetric | frontend-leptos/src/pages/catalog.rs:39-40 | the string order used by the name sorts is antisymmetric |

## Left out

- **Concurrency.** Two deliveries of the same event can race between the idempotency check and the
  insert. Handlers are modelled sequentially over one store.
- **Transport and framework.** HTTP and axum extraction, routing, status-code display text and JSON
  bodies are left out. A response is modelled as `Received(duplicate, error)` or `Rejected(status, message)`.
- **Foreign code.** Stripe's `Webhook::construct_event`, HMAC-SHA256, base64, UTF-8 decoding and serde
  are function parameters. The model proves nothing about what they compute.
- **Database.** SQL is modelled as in-memory tables. Each call can fail through an explicit fault input.
  The driver's error text is carried through unchanged.
- **Time.** Timestamps (`created_at`, `processed_at`) are not modelled.
  - StripeWebhook.RedeliveryIsDuplicate: `construct_event` is a parameter with no clock. The library
    also rejects a signature whose timestamp is older than its tolerance. So its verdict on a redelivery
    is whatever the second `construct_event` parameter gives. The lemma covers any second delivery it
    accepts, e.g. a re-signed retry, and `UnverifiedIsRejected` covers one it refuses (400).
- **UUIDs.** Ids are modelled as naturals drawn from a counter. The fresh idempotency key of a Square
  payment is a parameter.
- **Floating point.** Cart subtotal, tax and total, every `formatted_*` function, and the amounts in
  e-mail and SMS texts are left out. Prices are exact reals.
  - Catalog.FilteredProducts: does not model the panic of `partial_cmp().unwrap()` on a NaN price,
    because a real price cannot be NaN.
- **Fixed-width integers.**
  - CartModel.Cart.AddItem: quantities and `total_items` are unbounded naturals, not `u32`, because
    the wrap-around at 2^32 items is not a behaviour the cart intends.
  - The `u32` wrap-around is modelled where it can matter: the stepper's `q + 1` and
    `inventory as u32`.
  - Amounts (`i64`) are unbounded integers in the webhook tables.
- **Text.** Only ASCII case mapping is modelled. Byte-index slicing in `truncate`, which panics off a
  character boundary, is not modelled; strings are character sequences.
- **Browser state.** localStorage persistence of the cart (`save_cart`, `load_cart`), navigation,
  logging, and the Leptos views and signals are not modelled. The page's cart is the `Cart` object
  the page was built with.
- **Messaging.** The SMS route handlers (`send_sms`, `send_order_confirmation`, …) and their message
  texts are not modelled. Neither are the confirmation e-mail stubs the Stripe handler calls (they
  only print).
- **Event fields the handlers do not branch on.** Four fields of a Square `Payment` are not modelled:
  `source_type`, `card_details`, `receipt_number` and `receipt_url` (`backend/src/webhooks/square.rs:54-57`).
  Stripe's `Event` keeps only its id, its type and the few object fields the handlers read. The whole
  event is still serialised into the logged `payload` column (`backend/src/webhooks/square.rs:142`,
  `backend/src/webhooks/stripe.rs:74`). For both providers the payload is modelled as a function of the
  modelled event fields only, so it cannot differ between events that agree on them.
- **Timing.** The Square signature comparison is specified by its result only.
