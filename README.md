# Checkout core of a small e-commerce shop, modelled in Dafny

This project models the server side of checkout in a Next.js shop that uses the
Midtrans payment gateway. It covers three API routes:

- `POST /api/payment/create` re-prices the cart from the database and checks the client's
  total against the server's. In one transaction it decrements stock and inserts an `UNPAID`
  order with a 15-minute expiry. It then builds the gateway payload and returns the gateway's
  token and redirect URL.
- `POST /api/orders` runs the same validation without the quantity check. It prices the cart,
  with shipping defaulting to 0, and decrements stock and inserts an `UNPAID` order in one
  transaction. `GET /api/orders` lists the user's orders, newest first.
- `POST /api/payment/webhook` handles the gateway's notification. It ignores pings and checks
  the signature, a digest of order id, transaction status, amount and server key. The amount is
  the text of `gross_amount` before its first `.`. It
  then looks up the order, maps the gateway status to an order status and overwrites that
  order's status. Every answer is HTTP 200.

The database is an in-memory `Store.Db` class with fields `users`, `products` and `orders`.
Each `POST` handler is a method that changes those fields in place. `GET /api/orders` is the
read-only function `Orders.ListOrders`. `PaymentCreate.CreatePayment`
and `Orders.Post` are proved equal to a specification function over the whole
`Store.DbState`: `PaymentCreate.CreatePaymentSpec` and `Orders.PostSpec`.
`Webhook.HandleNotification` may change only `orders`. It is proved equal to
`Webhook.Reconcile`, a function over the orders table. The route's properties are lemmas about those
functions.

The two validation loops are one method, `Inventory.ValidateItems`. Its `checkQuantity` flag
is true for the payment route and false for the orders route. The transaction's decrement loop
is `Store.Db.DecrementStock`. Its specification, `Store.ApplyLines`, comes with the
stock-accounting lemmas.

Files: `values.dfy` (Option, Result, JavaScript truthiness), `store.dfy` (entities, the
database, the stock decrement), `inventory.dfy` (cart validation and pricing),
`payment_create.dfy`, `orders.dfy`, `webhook.dfy`.

The model follows the code, including where a careful checkout would behave differently:

- The transaction does not re-check stock. There is no commit-time abort. The product is
  re-read only to choose between the variant and the product decrement.
- The webhook starts from `UNPAID` and writes unconditionally. A capture that is not accepted,
  a `pending`, or any unknown status overwrites the order with `UNPAID`, even a `PAID` one
  (`Webhook.LateNotificationRevertsPaid`).
- The orders route has no quantity check (`Orders.NegativeQuantityAccepted`). In the payment
  route the quantity check comes after the stock check.
- Stock is checked per item against the stock before the order. A cart naming the same counter
  twice can pass and drive it negative (`Inventory.DuplicateItemsOversell`). With distinct
  counters no stock goes negative (`PaymentCreate.PaymentNoOversell`).

Money is whole rupiah (`int`). The price-mismatch tolerance `|server − client| > 0.01` is kept
with the constant 0.01 written as one hundredth. On integers it is exactly `server != client`
(`PaymentCreate.TotalsDiffer`).

## Model

| member | source | states |
|---|---|---|
| `Values.OrNull` | src/app/api/payment/create/route.ts:84-85 | the JavaScript or-null idiom: absent exactly when the string is missing or empty, otherwise the string itself |
| `Values.OrElse` | src/app/api/payment/create/route.ts:187 | the JavaScript or-default idiom (the `'Jakarta'` city default): the string when it is present and non-empty, otherwise the fallback |
| `Store.LineKey` | src/app/api/payment/create/route.ts:120 | the transaction's branch: the line's variant counter when the re-read product has variants and the line names one, otherwise the product's counter |
| `Store.ItemsOf` | src/app/api/payment/create/route.ts:155-161 | the order items, one per validated line in order, with product id, quantity, database price and variant id and name |
| `Store.Commit` | src/app/api/payment/create/route.ts:112-172 | the whole transaction: every stock decrement of the lines, then the order appended. Users stay the same |
| `Store.FindVariant` | src/app/api/payment/create/route.ts:56 | the lookup of a variant by id. A variant it finds has the id that was searched for |
| `Store.FindVariantFirst` | src/app/api/payment/create/route.ts:56 | the lookup finds nothing exactly when no variant has the id. Otherwise it finds the first variant with that id |
| `Store.DecVariant` | src/app/api/payment/create/route.ts:122-129 | the `variant.update` by id: the variant with the id loses the quantity, and the others stay as they were (stated by `FindDecVariant`) |
| `Store.ApplyLine` | src/app/api/payment/create/route.ts:115-140 | one iteration of the decrement loop. It decrements the variant when the product has variants and the line names one, otherwise the product. The set of products stays the same |
| `Store.ApplyLines` | src/app/api/payment/create/route.ts:114-141 | the decrement loop over the lines in order. The set of products stays the same |
| `Store.ApplyLinesSameCatalog` | src/app/api/payment/create/route.ts:114-141 | the decrement loop changes only stock counters: same products, names, prices and variant ids |
| `Store.ApplyLineStock` | src/app/api/payment/create/route.ts:120-140 | one decrement takes the line's quantity from exactly the line's counter: the variant's when the product has variants and the line names one, otherwise the product's |
| `Store.ApplyLinesStock` | src/app/api/orders/route.ts:136-165 | after the loop each counter holds its initial stock minus the summed quantities of the lines that draw from it |
| `Store.QtyForDistinct` | src/app/api/payment/create/route.ts:114-141 | with pairwise distinct counters, at most one line draws from any counter |
| `Store.NoOversellWithDistinctKeys` | src/app/api/payment/create/route.ts:61-68 | lines that fit the stock before the order and draw from distinct counters leave no non-negative counter negative |
| `Store.FindDecVariant` | src/app/api/payment/create/route.ts:122-129 | decrementing a variant by id changes only that variant's stock, as seen by the variant lookup |
| `Store.CommitKeepsValid` | src/app/api/payment/create/route.ts:146-163 | committing an order with an unused id keeps order ids and per-product variant ids unique |
| `Store.Db.DecrementStock` | src/app/api/orders/route.ts:138-165 | the in-place loop leaves the products equal to `ApplyLines` of the old products |
| `Inventory.ItemKey` | src/app/api/payment/create/route.ts:50-69 | the counter an item is checked against: the chosen variant's when the product has variants and the item names one, otherwise the product's |
| `Inventory.LineOf` | src/app/api/payment/create/route.ts:79-86 | the validated line: product id, database name and price, the client's quantity, and variant id and name or null |
| `Inventory.CheckItem` | src/app/api/payment/create/route.ts:45-86 | the per-item checks in the source's order, each failing with its own 400 error. An accepted item becomes a line with the database name and price |
| `Inventory.Subtotal` | src/app/api/payment/create/route.ts:76-77 | the running total: Σ price × quantity over the validated lines, taken in order |
| `Inventory.Validate` | src/app/api/payment/create/route.ts:38-87 | on success there is one line per item, and each line's product exists, its variant resolves and its quantity fits its counter's stock |
| `Inventory.CheckedLine` | src/app/api/orders/route.ts:78-129 | an accepted item's line has the database name and price, the client's quantity and variant id/name (or null), and is checked against the counter the transaction decrements |
| `Inventory.CheckItemAccepts` | src/app/api/payment/create/route.ts:45-86 | an item is accepted iff its product exists, a variant is named and found when the product has variants, its quantity fits the stock and, for the payment route, is positive; the line's price is the database price |
| `Inventory.CheckPrecedence` | src/app/api/payment/create/route.ts:45-73 | the order of the checks: product not found, then variant required, then variant not found, then insufficient stock, then invalid quantity |
| `Inventory.ValidateAccepts` | src/app/api/payment/create/route.ts:38-87 | the cart passes iff every item passes, and then its lines are the items' lines in cart order |
| `Inventory.ValidateFirstError` | src/app/api/orders/route.ts:65-116 | the first rejected item in cart order decides the error |
| `Inventory.ClientPriceIgnored` | src/app/api/payment/create/route.ts:75-86 | changing only the prices the client sent changes nothing in the validation or its lines |
| `Inventory.SubtotalIsCartValue` | src/app/api/orders/route.ts:118-120 | the accumulated subtotal is Σ database price × quantity over the cart |
| `Inventory.DuplicateItemsOversell` | src/app/api/payment/create/route.ts:66 | a cart naming a stock-1 product twice passes validation and leaves stock −1 |
| `Inventory.RejectedAt` | src/app/api/orders/route.ts:71-76 | rejecting item i after a valid prefix is the cart's error |
| `Inventory.CheckCartItem` | src/app/api/payment/create/route.ts:45-86 | the branch chain of one iteration returns what `CheckItem` specifies |
| `Inventory.ValidateItems` | src/app/api/payment/create/route.ts:38-87 | the loop returns what `Validate` specifies, with the running total equal to Σ price × quantity of its lines |
| `Inventory.AcceptedAt` | src/app/api/orders/route.ts:118-129 | accepting item i after a valid prefix appends its line and adds price × quantity to the subtotal |
| `PaymentCreate.OrderRef` | src/app/api/payment/create/route.ts:109 | the order id `ORDER-<now in decimal>-<random suffix>` |
| `PaymentCreate.OrderRefSuffix` | src/app/api/payment/create/route.ts:109 | two ids generated at the same `now` are equal exactly when their random suffixes are |
| `PaymentCreate.PaymentOrder` | src/app/api/payment/create/route.ts:144-163 | the row `order.create` inserts: the generated id, the user, the server total, the address, `UNPAID`, expiry `now` + 15 minutes, and the items of the lines |
| `PaymentCreate.ItemDetailsOf` | src/app/api/payment/create/route.ts:193-198 | one gateway item detail per validated line: product id, database price, quantity and name |
| `PaymentCreate.ShippingDetail` | src/app/api/payment/create/route.ts:199-204 | the SHIPPING item: price the shipping cost, quantity 1, named after the courier |
| `PaymentCreate.BuildPayload` | src/app/api/payment/create/route.ts:176-207 | the Snap payload: order id and server total; customer with city defaulting to Jakarta and country IDN; one item detail per line plus the SHIPPING line; the enabled payment methods |
| `PaymentCreate.ReplyToResponse` | src/app/api/payment/create/route.ts:227-249 | an accepted reply gives token, redirect URL and order id. A refusal gives the gateway's status with its body. An unreachable gateway gives 500 |
| `PaymentCreate.CreatePaymentSpec` | src/app/api/payment/create/route.ts:7-249 | the route's answer and next state, in order: 401, 404, the cart's 400, the price-mismatch 400, 500 on a taken id, otherwise the committed transaction with the gateway's answer |
| `PaymentCreate.TotalsDiffer` | src/app/api/payment/create/route.ts:94 | the 0.01 tolerance on whole-rupiah totals is exact inequality |
| `PaymentCreate.UnauthorizedPayment` | src/app/api/payment/create/route.ts:9-12 | without a session e-mail the answer is 401 and the store is unchanged |
| `PaymentCreate.InvalidCartPayment` | src/app/api/payment/create/route.ts:38-73 | the first rejected item gives a 400 with its error, and no stock or order changes |
| `PaymentCreate.PriceMismatchPayment` | src/app/api/payment/create/route.ts:89-106 | a client total that differs from Σ database price × quantity + shipping gives a 400, with no stock decremented and no order inserted |
| `PaymentCreate.PaymentCommitUnfolds` | src/app/api/payment/create/route.ts:108-172 | on the committing path the new state is the transaction's and the answer follows the gateway's reply |
| `PaymentCreate.QtyForIsCartQty` | src/app/api/payment/create/route.ts:114-120 | the lines draw from the same counters, in the same amounts, as the cart items |
| `PaymentCreate.PaymentCommitsStock` | src/app/api/payment/create/route.ts:112-141 | on commit each counter loses exactly the quantities of the cart items drawing from it; users and everything else in the catalogue are unchanged |
| `PaymentCreate.CommittedItems` | src/app/api/payment/create/route.ts:154-161 | the order's items follow the cart in order, at database prices |
| `PaymentCreate.PaymentCommitsOrder` | src/app/api/payment/create/route.ts:143-171 | exactly one order is appended: `UNPAID`, generated id, expiry now + 15 min, total = Σ database price × quantity + shipping, items in cart order; it stays committed whatever the gateway answers, and the answer is the gateway's token or error |
| `PaymentCreate.PaymentNoOversell` | src/app/api/payment/create/route.ts:59-69 | for a cart with distinct counters, no counter that started non-negative ends negative |
| `PaymentCreate.DetailsSumOfLines` | src/app/api/payment/create/route.ts:192-198 | the product item details sum to the validated subtotal |
| `PaymentCreate.PayloadBalances` | src/app/api/payment/create/route.ts:176-207 | `gross_amount` is the server total, and it equals Σ price × quantity over `item_details`; those are the lines plus a SHIPPING line of quantity 1 priced at shipping; city defaults to Jakarta; country is IDN |
| `PaymentCreate.PaymentKeepsValid` | src/app/api/payment/create/route.ts:146-153 | every outcome keeps order ids and variant ids unique |
| `PaymentCreate.CreatePayment` | src/app/api/payment/create/route.ts:7-249 | the handler's answer and new database are those of `CreatePaymentSpec` |
| `Orders.ShippingOf` | src/app/api/orders/route.ts:58 | the destructuring default: the shipping cost sent, or 0 when absent |
| `Orders.PlacedOrder` | src/app/api/orders/route.ts:168-192 | the created order: the user, `UNPAID`, the address, the server total, the shipping cost, courier and service or null, and the items of the lines |
| `Orders.PostSpec` | src/app/api/orders/route.ts:46-205 | the `POST` answer and next state, in order: 401, the cart's 400, 500 on an unknown user or taken id, otherwise the placed order and the committed transaction |
| `Orders.ListOrders` | src/app/api/orders/route.ts:7-44 | the `GET` answer: 401 without a session, otherwise the user's orders, newest first |
| `Orders.InsertNewest` | src/app/api/orders/route.ts:31-33 | adding one order to a newest-first list keeps it newest-first and adds exactly that order |
| `Orders.UnauthorizedOrders` | src/app/api/orders/route.ts:7-54 | with no session both `GET` and `POST` answer 401 and nothing changes |
| `Orders.OwnedOrders` | src/app/api/orders/route.ts:18-23 | the filter keeps exactly the orders of the user, each as often as in the table |
| `Orders.NewestFirst` | src/app/api/orders/route.ts:31-33 | the sort is a permutation ordered by `createdAt` descending |
| `Orders.ListIsOwnOrdersNewestFirst` | src/app/api/orders/route.ts:17-36 | `GET` returns exactly the orders whose user has the session's e-mail, newest first |
| `Orders.InvalidCartOrder` | src/app/api/orders/route.ts:65-116 | the first rejected item gives a 400 with its error, before any stock or order mutation |
| `Orders.FailedInsertOrder` | src/app/api/orders/route.ts:168-174 | an unknown user or taken id makes the insert throw: 500, and the stock decrements roll back |
| `Orders.PostCommitUnfolds` | src/app/api/orders/route.ts:132-203 | on the committing path the answer is the created order and the new state is the transaction's |
| `Orders.PostCommitsStock` | src/app/api/orders/route.ts:136-165 | on commit each counter loses exactly its lines' quantities; only stock fields change |
| `Orders.PostCommitsOrder` | src/app/api/orders/route.ts:167-194 | the order is `UNPAID` with total = Σ database price × quantity + shipping (default 0); the shipping cost is stored; courier and service are null when absent; items are in cart order at database prices |
| `Orders.NegativeQuantityAccepted` | src/app/api/orders/route.ts:65-130 | with no quantity check, quantity −2 is accepted: the total is negative and the stock rises |
| `Orders.PostKeepsValid` | src/app/api/orders/route.ts:168-194 | every outcome keeps order ids and variant ids unique |
| `Orders.Post` | src/app/api/orders/route.ts:46-205 | the handler's answer and new database are those of `PostSpec` |
| `Webhook.Authentic` | src/app/api/payment/webhook/route.ts:26-51 | the notification gets past the ping guard, since order id and status are non-empty, and its signature equals the expected digest |
| `Webhook.ExpectedSignature` | src/app/api/payment/webhook/route.ts:37-40 | the digest of order id, transaction status, amount and server key, concatenated in that order |
| `Webhook.Reconcile` | src/app/api/payment/webhook/route.ts:10-118 | the answer and next orders table, in order: the `ok` ping, the bad-signature `error`, the unknown-order `error`, otherwise the found order's status overwritten and `success` |
| `Webhook.AmountText` | src/app/api/payment/webhook/route.ts:35 | the amount is the prefix of `gross_amount` up to, not including, its first `.` |
| `Webhook.AmountPrefix` | src/app/api/payment/webhook/route.ts:35 | an amount with decimals truncates to its integer digits |
| `Webhook.MapStatus` | src/app/api/payment/webhook/route.ts:79-91 | PAID iff an accepted capture or a settlement; CANCELLED iff cancel, deny or expire; UNPAID otherwise |
| `Webhook.FindOrder` | src/app/api/payment/webhook/route.ts:63-65 | the lookup finds the first order with the id, and finds none iff no order has it |
| `Webhook.AlwaysHttp200` | src/app/api/payment/webhook/route.ts:51-118 | every answer has HTTP status 200 |
| `Webhook.PingIgnored` | src/app/api/payment/webhook/route.ts:26-29 | a notification without order id or transaction status is answered `ok` with no lookup and no write |
| `Webhook.BadSignatureIgnored` | src/app/api/payment/webhook/route.ts:37-58 | a signature other than the digest of id, status, amount and key gives `error` and changes no order |
| `Webhook.SignatureIgnoresDecimals` | src/app/api/payment/webhook/route.ts:34-40 | amounts that agree before the `.` authenticate alike |
| `Webhook.UnknownOrderIgnored` | src/app/api/payment/webhook/route.ts:63-76 | an authentic notification for an unknown order gives `error` and changes no order |
| `Webhook.AuthenticUpdatesOnlyThatOrder` | src/app/api/payment/webhook/route.ts:101-118 | an authentic notification overwrites the status of that order only, and answers `success` with the order id and new status |
| `Webhook.FindOrderIgnoresStatus` | src/app/api/payment/webhook/route.ts:63-65 | changing an order's status does not change which order is found |
| `Webhook.OldStatusIrrelevant` | src/app/api/payment/webhook/route.ts:79-106 | the outcome does not depend on the order's previous status |
| `Webhook.Idempotent` | src/app/api/payment/webhook/route.ts:79-106 | delivering a notification twice gives the same answer and table as delivering it once |
| `Webhook.LateNotificationRevertsPaid` | src/app/api/payment/webhook/route.ts:79-91 | an authentic `pending`, or a capture that is not accepted, sets the order to `UNPAID` whatever it was |
| `Webhook.HandleNotification` | src/app/api/payment/webhook/route.ts:10-118 | the handler's answer and new orders table are those of `Reconcile` |

## Left out

- Sessions (next-auth) are a parameter: the signed-in user's e-mail, or nothing. In the orders route, a session user without an e-mail is not modelled.
- Prisma is an in-memory store, and transactions follow from the order of the checks. Two failures make `order.create` throw: a duplicate order id and (orders route) an unknown user. The model decides both before the decrements, which gives the same state as rolling back. Other database exceptions and their `catch` answers (500, or 200 in the webhook) are not modelled.
- The `include: { items: { include: { product } } }` joins of the answers are not modelled. An order is returned with its items only.
- JSON parsing is left out: bodies are typed values. A missing `shipping_cost` in the payment route (JavaScript `NaN` arithmetic) and JSON `null` for `shippingCost` are not modelled.
- Floating point: amounts are whole rupiah.
- The Midtrans HTTP call is a function parameter from payload to reply: accepted, refused (status and body) or unreachable. This leaves out the URL choice by `MIDTRANS_IS_PRODUCTION`, the Basic credentials (section 2 of RFC 7617) and the development-only error details.
- SHA-512 (FIPS 180-4) is a function parameter `digest`, and only the comparison is modelled. The server key is a parameter.
- `Date.now()` and `Math.random()` are parameters: `now` in milliseconds and `suffix`. One `now` serves the order id, the expiry and `createdAt`.
- In the payment route, the order's `shippingCost`, `shippingCourier` and `shippingService` are not set. The model records `None` (schema default) for them.
- A variant decrement is modelled inside the line's product. The schema's variant ids are globally unique, and validation found the variant in that product.
- `Webhook.AuthenticUpdatesOnlyThatOrder`: requires unique order ids, the orders table's primary key. Without that it would describe only the first order with the id.
- The webhook's `GET` health check, logging, and the UI, e-mail and search files are left out: they contain no checkout logic.
- Concurrency between requests is left out: each handler runs alone.
