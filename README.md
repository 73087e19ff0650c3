# Payment-order lifecycle of the belibeli storefront, in Dafny

This project models the part of the storefront that turns a cart into a paid
order:

- the checkout page computes the cart total and the items to send, guards the
  request, and routes the payment popup's outcomes;
- the cart context adds products, clears the cart and loads it from the store;
- the checkout route inserts a pending order, derives its external id
  `belibeli-trx-<serial>`, asks the gateway (Midtrans Snap) for a token, and
  deletes the order again when the gateway refuses;
- the repay route mints a new attempt `belibeli-trx-<uuid>`, asks for a token
  first and then inserts a new pending row copied from the old order;
- the notification route verifies the gateway's SHA-512 signature, recovers
  the internal id from the external one, maps the gateway status and writes it
  to the order row.

The `orders` table is a class over a map from row id (a database serial or a
UUID text) to order. The gateway client is a class that records every token
request; what the gateway answers is a function given when it is built. Every
store write takes an `ok` argument that says whether the store reported an
error. SHA-512, the authenticated user, the profile lookup, the fresh UUID and
the server key are arguments of the handlers.

The model follows the code as written, and its lemmas expose how it behaves:

- The status write has no non-regression guard. A later `pending` overwrites
  `"success"`, and a `settlement` after `expire` revives a failed order
  (`OverwritesStoredStatus`, `LatePendingDowngradesSuccess`, `SettlementAfterExpire`).
  Replaying one notification is still idempotent (`ReplayIdempotent`).
- Failure is written as `"failed"`, while the order pages are typed with
  `"failure"` (`WrittenFailureUnreadable`).
- A gateway status the handler does not recognise writes `"pending"`. It does
  not leave the row unchanged (`NewStatus`).
- Repay ids (`belibeli-trx-` + UUID) never parse. A notification for a repay
  attempt is therefore always refused, and UUID-keyed rows are never updated
  (`RepayIdNeverParses`, `RepayNotificationNeverApplied`, `UuidRowsUntouched`).
- The page sends `totalAmount`, but the route reads `totalPrice`. The stored
  `total_price` and the `gross_amount` sent to the gateway are therefore
  undefined (`ClientTotalNeverReachesRoute`).
- The route answers `{ token }`, but the page waits for `success` and
  `snapToken`. The popup never opens and the cart is never cleared after a
  checkout (`RouteReplyNeverOpensPopup`).
- The page's total matches the sum the gateway computes from the forwarded
  item details (`PageTotalMatchesItemDetails`).

## Model

| member | source | states |
|---|---|---|
| `MidtransNotification.ExtractInternalOrderId` | app/api/midtrans-notification/route.ts:9-15 | yields a number exactly for `belibeli-trx-` followed by one or more ASCII digits and nothing else, and that number is the digits' decimal value; every other string yields None |
| `MidtransNotification.ExtractAfterCheckoutFormat` | app/api/midtrans-notification/route.ts:10-12 | round trip with the checkout format: `belibeli-trx-${n}` parses back to n for every natural n |
| `MidtransNotification.ExtractCanonical` | app/api/midtrans-notification/route.ts:9-15 | conversely, an id that parses and has no leading zero is exactly `belibeli-trx-${n}` of the number n it parses to |
| `MidtransNotification.SelectedOrderId` | app/api/midtrans-notification/route.ts:56-58 | a truthy `custom_field1` (present and not empty) selects the row; otherwise `order_id` does |
| `MidtransNotification.SignatureInput` | app/api/midtrans-notification/route.ts:43-47 | the signed text is `order_id`, `status_code`, `gross_amount` and the server key joined without delimiters, in that order |
| `MidtransNotification.SignatureValid` | app/api/midtrans-notification/route.ts:43-49 | the signature check passes exactly when the SHA-512 hex digest of the signed text equals `signature_key`; `transaction_status` and `custom_field1` play no part in it |
| `MidtransNotification.NewStatus` | app/api/midtrans-notification/route.ts:72-95 | result is one of success, pending, failed; success exactly for `settlement` or `capture` with code "200"; failed exactly for deny/expire/cancel/failure; everything else, unrecognised statuses and `capture` with another code included, gives pending; the stored status is not an input |
| `MidtransNotification.WrittenFailureUnreadable` | app/api/midtrans-notification/route.ts:87-95 | the written status is one of the readers' `pending`/`success`/`failure` exactly when the gateway status is not a failure; "failure" is never written |
| `MidtransNotification.Reconcile` | app/api/midtrans-notification/route.ts:17-127 | answers 200, 400, 403 or 500; anything but 200 leaves the table unchanged; keys never change; a changed row is serial-keyed and differs only in `status`; a thrown request or status call gives 500; a bad signature gives 403 whatever the id; a valid signature with an id that does not parse or parses to 0 gives 400; otherwise a store error gives 500 and a successful update gives 200 and writes the mapped status to the row with that id |
| `MidtransNotification.Post` | app/api/midtrans-notification/route.ts:17-127 | the imperative handler (signature check, id extraction, if-chain on `newStatus`, row update) produces exactly Reconcile's answer and table, and keeps the table's invariant |
| `MidtransNotification.ReplayIdempotent` | app/api/midtrans-notification/route.ts:109-112 | handling the same notification twice gives the same answer and the same table as handling it once |
| `MidtransNotification.OverwritesStoredStatus` | app/api/midtrans-notification/route.ts:72-112 | a verified notification for an existing row with a nonzero id replaces that row's status with the mapped one, whatever it held, and changes nothing else |
| `MidtransNotification.LatePendingDowngradesSuccess` | app/api/midtrans-notification/route.ts:76-112 | a verified `settlement` marks the row success, and a later verified `pending` for the same id turns it back to pending |
| `MidtransNotification.CustomFieldSelectsRow` | app/api/midtrans-notification/route.ts:58-62 | with a truthy `custom_field1`, the row it names is updated, whatever `order_id` says |
| `MidtransNotification.UuidRowsUntouched` | app/api/midtrans-notification/route.ts:109-112 | a row keyed by a UUID is never changed by any notification |
| `OrderStore.WithStatus` | app/api/midtrans-notification/route.ts:109-112 | the status update keeps the keys, changes only the `status` of the matching row, and matches nothing when the key is absent |
| `OrderStore.WithMidtransOrderId` | app/api/checkout/route.ts:100-104 | the link update keeps the keys and sets only `midtrans_order_id` of the matching row |
| `OrderStore.WithStatusIdempotent` | app/api/midtrans-notification/route.ts:109-112 | writing the same status twice equals writing it once |
| `OrderStore.OrdersTable.Insert` | app/api/checkout/route.ts:44-59 | on success the row is added under the next serial, a key not used before; on a store error nothing changes |
| `OrderStore.OrdersTable.InsertWithUuid` | app/api/repay/route.ts:48-60 | inserts under the given UUID unless the store errs or the key already exists; otherwise nothing changes |
| `OrderStore.OrdersTable.UpdateStatus` | app/api/midtrans-notification/route.ts:109-117 | applies WithStatus when the store reports no error, else leaves the table unchanged |
| `OrderStore.OrdersTable.UpdateMidtransOrderId` | app/api/checkout/route.ts:100-104 | applies WithMidtransOrderId when the store reports no error, else leaves the table unchanged |
| `OrderStore.OrdersTable.Delete` | app/api/checkout/route.ts:122-133 | removes the key when the store reports no error, else leaves the table unchanged |
| `Snap.ItemDetails` | app/api/checkout/route.ts:72-77 | `item_details` has the items' length and order and copies id, price, quantity and name of each |
| `Snap.SnapClient.CreateTransactionToken` | app/api/checkout/route.ts:107-110 | records the request after all earlier ones and returns the gateway's answer to it |
| `CheckoutRoute.BeforeAt` | app/api/checkout/route.ts:37 | `split("@")[0]`: a prefix of the e-mail containing no '@', followed in the e-mail by '@' unless it is the whole text |
| `CheckoutRoute.CustomerDetails` | app/api/checkout/route.ts:36-41 | first name is the profile's full name when truthy, else the e-mail's local part, else undefined; the e-mail is the user's; the phone is the placeholder |
| `CheckoutRoute.PendingOrder` | app/api/checkout/route.ts:44-52 | the inserted row is pending, owned by the caller, unlinked, with `total_price` and `items` exactly as read from the body (not recomputed) |
| `CheckoutRoute.ExternalId` | app/api/checkout/route.ts:64 | the external id is `belibeli-trx-` followed by canonical decimal text (digits, no leading zero) whose value is the serial |
| `CheckoutRoute.ExternalIdInjective` | app/api/checkout/route.ts:64 | two serials get the same external id exactly when they are equal |
| `CheckoutRoute.Post` | app/api/checkout/route.ts:8-153 | no user gives 401 with no insert and no gateway call; an insert error gives 500 with no gateway call; a body whose `items` is not an array gives 500 and leaves the unlinked pending row; otherwise exactly one token request is made with the external id, the stored total as `gross_amount` and the item details; a gateway error gives 500 and deletes the row, which stays only if the delete fails, linked when the link update succeeded; a token gives 200 `{ token }` and the row stays, linked when the link update succeeded |
| `RepayRoute.RepayOrder` | app/api/repay/route.ts:48-56 | the new row copies `total_price`, `items` and `customer_details` of the old order, is pending, owned by the caller and linked to `belibeli-trx-<uuid>` |
| `RepayRoute.RepayIdDiffersFromCheckoutId` | app/api/repay/route.ts:26-27 | a UUID-shaped repay id never equals any id the checkout route mints |
| `RepayRoute.RepayIdsFollowUuids` | app/api/repay/route.ts:26-27 | two repay external ids are equal exactly when their UUIDs are, so a fresh UUID gives a fresh id |
| `RepayRoute.Post` | app/api/repay/route.ts:8-72 | no existing row is ever updated or deleted; no user gives 401 with no token request and no insert; the token is requested before any write, with the old total as `gross_amount`; a gateway error gives 500 with no insert; an insert error or key conflict after the token gives 500 and the token is not returned; otherwise 200 with the token and the new internal id, and the copied row is added |
| `CartContext.Find` | context/cart-context.tsx:98 | None exactly when no item has the id; otherwise the index of the first item that has it |
| `CartContext.WithQuantity` | context/cart-context.tsx:61-64 | `{ ...product, quantity }` keeps every product field and adds the quantity |
| `CartContext.IncrementMatching` | context/cart-context.tsx:107-113 | same length and order; items with the id get quantity + 1, all others are unchanged |
| `CartContext.IncrementAddsOneUnit` | context/cart-context.tsx:98-113 | with unique ids and the id present, the cart's total quantity grows by exactly one |
| `CartContext.IncrementKeepsUnique` | context/cart-context.tsx:107-113 | incrementing keeps product ids unique |
| `CartContext.AppendNewKeepsUnique` | context/cart-context.tsx:115-124 | appending `{ ...product, quantity: 1 }` for an absent id keeps product ids unique |
| `CartContext.AppendNewAddsOneUnit` | context/cart-context.tsx:115-124 | appending `{ ...product, quantity: 1 }` adds exactly one unit to the cart's total quantity |
| `CartContext.LoadedCart` | context/cart-context.tsx:57-66 | the loaded cart is no longer than the rows |
| `CartContext.LoadedCartAppend` | context/cart-context.tsx:57-66 | loading distributes over concatenation, so the relative order of the kept rows is preserved |
| `CartContext.LoadedCartAt` | context/cart-context.tsx:57-66 | each row contributes, in place between the rows before and after it, `{ ...products, quantity }` when its product is not null (whatever the quantity) and nothing when it is null |
| `CartContext.LoadedCartFromRows` | context/cart-context.tsx:57-66 | every loaded item is `{ ...products, quantity }` of a row whose product is not null |
| `CartContext.CartProvider.constructor` | context/cart-context.tsx:34-35 | the cart starts empty and loading |
| `CartContext.CartProvider.FetchCartItems` | context/cart-context.tsx:39-72 | loading ends false; with a user and query data the cart becomes the loaded cart, otherwise it is unchanged |
| `CartContext.CartProvider.AddToCart` | context/cart-context.tsx:89-126 | no user: no write and no change; an existing id: writes the first match's quantity + 1 and, on success, increments; a new id: inserts quantity 1 and, on success, appends `{ ...product, quantity: 1 }`; a store error leaves the cart unchanged; unique ids stay unique |
| `CartContext.CartProvider.ClearCart` | context/cart-context.tsx:128-144 | with a user, deletes the user's rows and empties the cart on success; with no user or on error the cart is unchanged |
| `CheckoutPage.CartTotalAppend` | app/checkout/page.tsx:55-62 | the cart total is additive over concatenation |
| `CheckoutPage.CartTotal` | app/checkout/page.tsx:56-62 | the accumulated total is not negative when no price or quantity is, and is 0 when every quantity is 0 |
| `CheckoutPage.PositiveTotalNeedsPaidItem` | app/checkout/page.tsx:114-117 | with non-negative prices and quantities the total is non-negative and is positive only if some item has a positive price and quantity |
| `CheckoutPage.ComputeSummary` | app/checkout/page.tsx:55-83 | the loop's total is the sum of price × quantity; `apiItems` and `cartSummary` have the cart's length and order and copy id, name, price and quantity |
| `CheckoutPage.ApiItemsOf` | app/checkout/page.tsx:64-69 | one API item per cart item, in order, copying its id, name, price and quantity |
| `CheckoutPage.Payload` | app/checkout/page.tsx:122-130 | the body has exactly the keys `userId`, `totalAmount` and `items`, carrying the user id, the total and the API items |
| `CheckoutPage.FieldText` | app/checkout/page.tsx:143 | `${data.orderId}` renders an absent field as "undefined" and a string as itself |
| `CheckoutPage.StatusParam` | app/checkout/page.tsx:140-156 | `onSuccess` gives success, `onError` gives failure, `onPending` and `onClose` give pending, and nothing else is produced |
| `CheckoutPage.PopupRoute` | app/checkout/page.tsx:143-155 | each pushed path is `/order/`, the rendered order id, then `?status=` and the callback's status value |
| `CheckoutPage.PopupRoutes` | app/checkout/page.tsx:140-156 | every callback goes to `/order/<orderId>`; closing routes like pending; success, pending and failure routes differ |
| `CheckoutPage.OutcomeOf` | app/checkout/page.tsx:132-165 | the popup opens exactly when the reply is JSON with truthy `success` and `snapToken`, and then pays with `data.snapToken` and routes with `${data.orderId}`; any other JSON reply alerts the failure prefix followed by a truthy `message` or the generic text; a thrown fetch or a non-JSON reply is the connection alert |
| `CheckoutPage.CheckoutPage.constructor` | app/checkout/page.tsx:46-47 | the page starts not loading, with the given user id and no request sent |
| `CheckoutPage.CheckoutPage.HandleCheckout` | app/checkout/page.tsx:109-169 | no user id: no request and nothing changes; total ≤ 0 or an empty cart: no request and nothing changes; otherwise exactly one body `{ userId, totalAmount, items }` is sent, loading ends false, and the cart is cleared only when the popup opens and clearCart succeeds |
| `Handshake.ClientTotalNeverReachesRoute` | app/api/checkout/route.ts:17 | for every body the page sends, the route reads `totalPrice` as undefined, so the stored total is undefined while the items arrive intact |
| `Handshake.RouteReplyNeverOpensPopup` | app/checkout/page.tsx:132-134 | the route's success reply `{ token }` ends in the generic failure alert, and its text replies in the connection alert: the popup never opens |
| `Handshake.PageTotalMatchesItemDetails` | app/api/checkout/route.ts:67-77 | the sum of the item details built from the page's API items equals the page's cart total |
| `Handshake.RepayIdNeverParses` | app/api/repay/route.ts:26-27 | `belibeli-trx-` followed by a UUID never parses to an internal id |
| `Handshake.RepayNotificationNeverApplied` | app/api/midtrans-notification/route.ts:58-70 | a notification that selects a repay id is answered 400 or 403 and leaves the table unchanged |
| `Handshake.CheckoutThenSettlement` | app/api/midtrans-notification/route.ts:58-112 | for the row checkout leaves under serial k, a verified settlement for its external id answers 200 and marks only that row success; a duplicate changes nothing |
| `Handshake.SettlementAfterExpire` | app/api/midtrans-notification/route.ts:76-112 | an expired order is marked failed, and a later verified settlement still turns it into success |
| `Decimal.NatToString` | app/api/checkout/route.ts:64 | `${n}` is canonical decimal text (digits only, no leading zero) that parses back to n |
| `Decimal.ParseDigits` | app/api/midtrans-notification/route.ts:12 | `parseInt` of the non-empty digit run `\d+` captures: a leading zero does not change the value (the empty run, value 0, is only the recursion's base case and never reaches `parseInt`), so `belibeli-trx-007` selects row 7 |
| `Decimal.PrintParsed` | app/api/midtrans-notification/route.ts:12 | printing the value `parseInt` gives for a canonical digit run returns that run |

## Left out

- Midtrans notification `transaction.notification`: it is a network call. Its result is an argument, and None stands for any exception before the signature check (a malformed request body included). All of these end in 500.
- SHA-512 and its hex encoding: the hash is an argument. Only the concatenation order and the equality check are modelled. Comparison timing is not modelled.
- `parseInt` precision: digit runs are parsed with unbounded integers. JavaScript loses precision above 2^53, and the model does not capture this.
- Number arithmetic: prices, quantities and totals are unbounded integers. Floating-point `price * quantity` and non-integer prices are not modelled.
- JSON: bodies are maps from field name to a small value type. Request items carry exactly `id`, `name`, `price` and `quantity`, and extra fields are not modelled. JSON `null` and `undefined` are both JNull in stored columns.
- Request bodies the routes cannot parse: `req.json()` failures in the checkout and repay routes are not modelled. A repay `order` without the expected fields is modelled only as non-array `items`.
- The exact wording of the runtime `TypeError` when `items.map` is not a function is not modelled. The route answers 500 with an opaque text.
- Token request fields `enabled_payments`, the GoPay callback URL and repay's `finish_redirect_url`: these are configuration strings built from environment variables. They are left out of the token request.
- Supabase client construction, cookies and sessions (lib/supabase/server.ts, lib/supabase/admin.ts, middleware.ts): these are I/O glue. The authenticated user and the profile's full name are arguments.
- The database schema: whether `orders.id` accepts repay's UUID is unknown. The store's answer to each insert is an argument, and row ids are either serials or UUID text.
- UUID generation: the fresh UUID is an argument of the repay route.
- `window.snap.pay`, loading the Snap script, alerts and router pushes: these are browser effects. The page's outcome records what is shown or opened, and `PopupRoute` gives the path each callback pushes.
- The `cart_items` table: `addToCart` and `clearCart` return the write they send, and the store's answer is an argument. The table's contents are not modelled.
- Concurrency: concurrent or duplicated webhook deliveries and React's stale-closure races in `addToCart` are not modelled. Notifications are applied one after another.
- Logging (`console.log`, `console.error`): no effect on state.
- Rendering pages and components, `formatPrice`/`formatDate`, the upload and revalidate routes, and lib/actions.ts are not part of this model.
