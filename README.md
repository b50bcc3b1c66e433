# Ease Pay for WooCommerce: payment-status reconciliation, checkout and wallet check

This project models the behaviour of the Ease Pay WooCommerce plugin in Dafny.
The plugin sends a shopper to a hosted USDC checkout. Later it applies a
payment-status notification to the order. Three pieces are modelled and proved:

- **Status notifications.** The REST route handler `easepay_handle_webhook` and
  the older `wc-api` callback `handle_callback` each run a guard chain and then a
  status switch. The switch maps `completed`/`confirmed` to payment complete,
  `pending` to on-hold, and `failed`/`expired` to failed plus a stock restore.
  Any other status changes nothing.
  - `Reconciliation.Webhook` and `Reconciliation.Callback` are pure
    specifications over the table of order values.
  - `Plugin.HandleWebhook` and `Gateway.EasePayGateway.HandleCallback` are
    imperative methods over the `WooCommerce.Store` and `WooCommerce.Order`
    objects. Each is proved equal to its specification: the answer, the order
    table afterwards, and the ids passed to `wc_get_order`.
- **Checkout.** `process_payment` sets the order to pending, reduces stock once,
  empties the cart, and returns the hosted-checkout redirect.
- **Settings.** The wallet pattern `^0x[a-fA-F0-9]{40}$` is used by
  `is_available` and by the admin options check. The constructor normalises
  `api_base` with `rtrim`.

The WooCommerce calls (`payment_complete`, `update_status`, `add_order_note`,
`wc_reduce_stock_levels`, `wc_increase_stock_levels`, `wc_get_order`) are opaque
to the plugin. Each is one abstract step on the order's value
(`WooCommerce.OrderState`):

- `payment_complete` appends the hash it receives to `payments`. A non-empty
  `payments` means the order has been marked paid. The status WooCommerce then
  moves the order to is its own.
- `update_status` sets `status` and records its note. So `status` is the last
  status the plugin itself set, not the status `payment_complete` leaves.
- The stock functions move a per-order `stock` counter by one. It counts calls,
  not units on the shelf.
- `add_order_note` appends to `notes`.

The PHP primitives the handlers use on the decoded payload are in module `Php`:
`empty`, truthiness, `isset`, the `(int)` cast behind `absint`, the string form
behind `sanitize_text_field`, `substr` and `rtrim`.

The model follows the code, not a redesign of it:

- No handler takes a credential. The REST route's permission callback
  (ease-pay-woocommerce.php:84) admits every caller.
- There is no idempotency guard. A repeated failure calls `wc_increase_stock_levels` again. A
  repeated success calls `payment_complete` again.
- Nothing checks the order's current status before `payment_complete`. A
  success after a failure still completes payment.
- Nothing reports a late settlement as an anomaly, and the amount is never
  re-checked.

The lemmas show these unguarded behaviours as they are.

Three details of the code that a quick reading misses are modelled as written:

- The note prints "N/A" for every hash PHP reads as false. That is `""` and
  also `"0"`, and `payment_complete` still receives `"0"`.
- PCRE's `$` without the `D` modifier also matches before one final newline.
  So the wallet pattern accepts `"0x"` + 40 hex digits + `"\n"`.
- `empty($wallet)` treats `"0"` as empty. So the admin check never flags the
  wallet `"0"`, yet the gateway stays unavailable with it.

## Model

| member | source | states |
|---|---|---|
| `Plugin.HandleWebhook` | ease-pay-woocommerce.php:91-136 | The REST handler, run in place on the order objects. Its answer and the new order table are exactly those of `Reconciliation.Webhook` for the old table. It asks `wc_get_order` for one id, `absint(order_id)`, and only when both required fields are non-empty. Only that order object changes. |
| `Reconciliation.Webhook` | ease-pay-woocommerce.php:91-136 | No order is created or removed. No lookup happens iff `order_id` or `status` is PHP-empty. The looked-up id is `absint(order_id)`. Success holds iff the order exists and its payment method is `easepay`. Every error leaves every order unchanged. Only the looked-up order can change. |
| `Reconciliation.WebhookRejectsEmptyFields` | ease-pay-woocommerce.php:94-96 | If `order_id` or `status` is empty (null, false, 0, "", "0", []), the answer is 400 `invalid_payload`, with no lookup and no change. |
| `Reconciliation.WebhookRejectsUnknownOrder` | ease-pay-woocommerce.php:98-106 | A non-empty payload whose `absint(order_id)` is not an order gets 404 `order_not_found`. That id was looked up and nothing changes. |
| `Reconciliation.WebhookNonNumericIdNotFound` | ease-pay-woocommerce.php:98-106 | A non-empty `order_id` string without leading digits (such as "abc") passes the empty guard. `absint` turns it into 0, and the answer is 404. |
| `Reconciliation.WebhookRejectsForeignGateway` | ease-pay-woocommerce.php:109-111 | An order whose payment method is not exactly `easepay` gets 400 `invalid_gateway` and stays untouched, for every status value. |
| `Reconciliation.WebhookSettles` | ease-pay-woocommerce.php:114-121 | `completed` and `confirmed` append exactly one `payment_complete` call carrying the hash and one note. There is no condition on the order's prior status. The plugin sets no status of its own in this arm and makes no stock call. The status `payment_complete` moves to is WooCommerce's and is not stated. |
| `Reconciliation.WebhookNoteShowsTruncatedHash` | ease-pay-woocommerce.php:117-120 | The settlement note links the hash. Its link text is the first min(16, length) characters followed by "..." (characters, not bytes: see "## Left out"). A hash PHP reads as false ("" or "0") shows as "N/A". |
| `Reconciliation.WebhookHolds` | ease-pay-woocommerce.php:123-125 | `pending` sets the status to `on-hold` and records the pending note. Stock and payments stay the same. |
| `Reconciliation.WebhookFails` | ease-pay-woocommerce.php:127-132 | `failed` and `expired` set the status to `failed`, record the note, and make one `wc_increase_stock_levels` call (+1 on the stock-call counter). |
| `Reconciliation.WebhookIgnoresUnknownStatus` | ease-pay-woocommerce.php:113-135 | Any non-empty status other than the five recognised ones leaves every order unchanged and still answers success. |
| `Reconciliation.WebhookReplayedFailureRestoresStockAgain` | ease-pay-woocommerce.php:127-132 | Delivering the same failure twice calls `wc_increase_stock_levels` twice (+2 on the stock-call counter), because no guard exists. |
| `Reconciliation.WebhookReplayedSettlementCompletesAgain` | ease-pay-woocommerce.php:114-121 | Delivering the same success twice calls `payment_complete` twice with the same hash. |
| `Reconciliation.WebhookSettlesAfterFailure` | ease-pay-woocommerce.php:114-132 | A success that follows a failure still calls `payment_complete`, so the order ends marked paid. The stock call the failure made is not undone. |
| `Reconciliation.ActionOf` | ease-pay-woocommerce.php:113-133 | The switch acts exactly on the five recognised status values. Every other value falls through. |
| `Reconciliation.Reconcile` | ease-pay-woocommerce.php:113-133 | Only a settlement records a payment, and only a failure makes a stock call (one restore). Hold sets `on-hold` and fail sets `failed`. Every arm except the fall-through adds exactly one note, and the fall-through changes nothing. The payment method never changes. |
| `Reconciliation.ApplySwitch` | ease-pay-woocommerce.php:113-133 | One switch arm performed on the order object. Its new value is the arm's steps applied in the code's order. |
| `Reconciliation.Callback` | includes/class-wc-gateway-easepay.php:213-259 | No lookup happens iff `order_id` is empty. The looked-up id is `absint(order_id)`. Success holds iff the order exists, whatever its gateway. Errors change nothing, and only the looked-up order can change. |
| `Gateway.EasePayGateway.HandleCallback` | includes/class-wc-gateway-easepay.php:213-259 | The legacy callback, run in place. Its answer, the new order table and the lookups are exactly those of `Reconciliation.Callback`. |
| `Reconciliation.CallbackIgnoresGateway` | includes/class-wc-gateway-easepay.php:221-231 | Once the order exists, the callback applies the switch to it whatever its payment method. It rejects only a missing id (400) and an unknown order (404). |
| `Reconciliation.CallbackFailsForeignOrder` | includes/class-wc-gateway-easepay.php:250-254 | A failure for another gateway's order fails that order and makes one `wc_increase_stock_levels` call for it. The REST handler leaves the same order untouched. |
| `Reconciliation.CallbackIgnoresUnknownStatus` | includes/class-wc-gateway-easepay.php:233-257 | A missing, empty or unrecognised status changes nothing and answers success. |
| `Reconciliation.CallbackAgreesWithWebhook` | includes/class-wc-gateway-easepay.php:236-255 | On a payload the REST handler accepts, the callback gives the same answer and the same lookup. The order ends with the same status, stock, payments and number of notes. For every switch arm, the note added is the callback's own text. |
| `Reconciliation.HandlerNotesDiffer` | includes/class-wc-gateway-easepay.php:236-255 | The two handlers word every note differently: the settlement note (for every hash), the hold note and the fail note (ease-pay-woocommerce.php:117-129). |
| `Gateway.AllHex` | includes/class-wc-gateway-easepay.php:123 | `[a-fA-F0-9]` holds of every character. |
| `Gateway.MatchesWalletPattern` | includes/class-wc-gateway-easepay.php:123 | The pattern matches iff the string is "0x" and 40 hex digits of either case, optionally followed by one final "\n". |
| `Gateway.WalletPatternEdges` | includes/class-wc-gateway-easepay.php:123 | "0x" + 40 hex digits matches, and so does the same with one trailing newline. Two newlines, an upper-case "0X" or 39 digits do not match. |
| `Gateway.EasePayGateway.IsAvailable` | includes/class-wc-gateway-easepay.php:117-128 | Available iff `enabled == "yes"` and the wallet matches the pattern. The emptiness test never decides the result. |
| `Gateway.DisabledGatewayUnavailable` | includes/class-wc-gateway-easepay.php:118-120 | A gateway that is not enabled is never available, whatever the wallet. |
| `Gateway.EasePayGateway.ProcessAdminOptions` | includes/class-wc-gateway-easepay.php:133-143 | Returns the parent's result unchanged. It adds one error exactly when the saved wallet is non-empty and does not match, and adds nothing otherwise. |
| `Gateway.AdminCheckAgreesWithAvailability` | includes/class-wc-gateway-easepay.php:138 | A wallet that draws no admin error and still fails the pattern is "" or "0", and nothing else. |
| `Gateway.ApiBaseOf` | includes/class-wc-gateway-easepay.php:47 | The normalised API base never ends in "/". |
| `Gateway.ApiBaseIgnoresTrailingSlashes` | includes/class-wc-gateway-easepay.php:47 | Any number of trailing slashes on the configured URL gives the same base. |
| `Gateway.EasePayGateway.constructor` | includes/class-wc-gateway-easepay.php:45-49 | `enabled`, `merchant_wallet` and `api_base` come from the settings with their defaults. `api_base` is right-trimmed of "/" and does not end in "/". |
| `Gateway.CheckoutRedirect` | includes/class-wc-gateway-easepay.php:178-188 | The redirect goes to `api_base + "/pay/" + wallet`. It carries exactly the nine named parameters, in the code's order: amount, currency, merchant_wallet, order_id, return_url, cancel_url, webhook_url, store_name, customer_email. Each has the value the code gives it, and `order_id` is the id in decimal. |
| `Gateway.RedirectHasOneSlashBeforePay` | includes/class-wc-gateway-easepay.php:47 | Because `api_base` is right-trimmed, the redirect has "/pay/" right after the base and no second "/" before it. |
| `Gateway.EasePayGateway.ProcessPayment` | includes/class-wc-gateway-easepay.php:166-208 | A missing order gives `failure` with one error notice, and no order or cart change. A found order gets `success` with the redirect on `api_base + "/pay/" + wallet`. The order is set `pending` with its note and its stock is reduced once. The cart is emptied and nothing else changes. |
| `Gateway.Checkout` | includes/class-wc-gateway-easepay.php:190-194 | Checkout leaves the order `pending` with the awaiting-payment note. It makes exactly one `wc_reduce_stock_levels` call (-1 on the stock-call counter). Payments and payment method stay the same. |
| `Gateway.CheckoutThenReplayedFailure` | ease-pay-woocommerce.php:127-132 | After checkout, a failure delivered twice makes two `wc_increase_stock_levels` calls against one reduce call: the stock-call counter ends one above where it started. |
| `Gateway.EasePayGateway.ProcessRefund` | includes/class-wc-gateway-easepay.php:312-327 | A missing order gives the `invalid_order` error and no change. Otherwise exactly one refund note is added (reason "N/A" when PHP reads it as false). The answer is success, and status and stock stay the same. |
| `Gateway.RefundNote` | includes/class-wc-gateway-easepay.php:320-324 | The refund note names the printed amount and then the reason. A reason PHP reads as false ("" or "0") shows as "N/A". |
| `Gateway.GetOption` | includes/class-wc-gateway-easepay.php:45-49 | The value is the saved setting or the fallback. It is the fallback when the key is missing, and it is empty only when the fallback is. |
| `WooCommerce.Store.Get` | ease-pay-woocommerce.php:102 | `wc_get_order` returns the order stored under the id, or nothing, and records the id asked for. |
| `Php.Empty` | ease-pay-woocommerce.php:94 | PHP `empty`, used by the guards at ease-pay-woocommerce.php:94 and includes/class-wc-gateway-easepay.php:123, 138 and 221. Every value that is not set is empty. An empty value prints as "" or "0". |
| `Php.StringToInt` | ease-pay-woocommerce.php:98 | PHP's `(int)` cast of a string. A string of digits alone reads as its decimal value, and a string with no digit at all reads as 0. |
| `Php.IntVal` | ease-pay-woocommerce.php:98 | PHP's `(int)` cast of a decoded value. Every empty value casts to 0. A string of digits casts to its value. |
| `Php.TextOf` | ease-pay-woocommerce.php:99-100 | `sanitize_text_field` taken as a string conversion. An integer's text casts back to the integer. Null and arrays give "". |
| `Php.OptionalText` | includes/class-wc-gateway-easepay.php:233-234 | `isset($v) ? sanitize_text_field($v) : ''` always equals the plain conversion, so the `isset` test never changes the value. |
| `Php.AbsInt` | ease-pay-woocommerce.php:98 | `absint` is the absolute value of PHP's integer cast of the value. |
| `Php.AbsIntOfNumericString` | ease-pay-woocommerce.php:98 | An order id sent as a JSON string of digits finds the same order as the same id sent as a JSON number. |
| `Php.StringToIntOfIntString` | ease-pay-woocommerce.php:98 | The integer cast of an integer's string form gives the integer back. |
| `Php.DigitsValueOfDecimalString` | includes/class-wc-gateway-easepay.php:182 | The decimal digits printed for an order id read back as that id. |
| `Php.DecimalString` | includes/class-wc-gateway-easepay.php:182 | The `order_id` query value is a non-empty run of decimal digits with no leading zero (except "0"). |
| `Php.Prefix` | ease-pay-woocommerce.php:119 | `substr($tx, 0, 16)` is the first 16 characters, or the whole of a shorter string. |
| `Php.RTrim` | includes/class-wc-gateway-easepay.php:47 | `rtrim($s, '/')` is a prefix of `s` that does not end in "/". Everything removed was "/". |

## Left out

- Hook, filter and REST route registration, the `wc-crypto-pending` status, the plugin constants and the HPOS declaration (ease-pay-woocommerce.php:22-86, 141-155). They are wiring with no behaviour of their own. No handler has a credential to check, because the route's permission callback admits everyone.
- `payment_fields`, `thankyou_page`, `receipt_page` and `enqueue_scripts`. They only produce HTML or load assets.
- Logging (`log` and the debug checks), `__()`/`_x()` and `init_form_fields`. Translations are the identity here, and the form fields are static data.
- WooCommerce's own behaviour inside its calls is not modelled. This covers the status and transaction id that `payment_complete` sets, the transition note that `update_status` writes, any guard inside the stock functions, and `wc_price` (its printed amount is a parameter of `ProcessRefund`). It also covers how `add_query_arg` joins the query string (it adds the values without encoding them), which is why the redirect is kept as base plus parameters. `get_return_url`, `wc_get_checkout_url`, `get_rest_url` and `get_bloginfo` are inputs (`OrderDetails`, `Site`).
- WooCommerce.PaymentCompleted: records only the call and its hash. WooCommerce moves an on-hold, pending, failed or cancelled order to processing or completed. That transition is not modelled, and `status` stays the last status the plugin set. So the model does not show that a success after a failure leaves a paid order whose stock was already restored. It shows only the payment record and the stock-call counter.
- WooCommerce stock: `stock` counts calls to `wc_reduce_stock_levels` and `wc_increase_stock_levels`. WooCommerce skips items that carry no reduced-stock marker, so a second restore call may move no real stock.
- Php.Prefix: strings are sequences of characters, but PHP's `substr` counts bytes. The two agree on ASCII strings such as hex transaction hashes. For a hash with multi-byte characters, PHP keeps 16 bytes and may cut a character in half, while the model keeps 16 characters.
- Reconciliation.WebhookNoteShowsTruncatedHash: states the link text in characters, for the reason given under Php.Prefix.
- `json_decode` and `get_json_params` are not modelled. The handlers receive the decoded body, and a body that is not a JSON object is an empty payload. JSON numbers with a fraction or exponent are not modelled.
- Php.StringToInt: a string in exponent form such as "1e3", which PHP casts through a float, reads as its leading digits. PHP's saturation of integers beyond 64 bits is not modelled either.
- `sanitize_text_field` only converts to a string here. Stripping tags and folding white space are not modelled.
- Gateway.GetOption: follows WooCommerce's `get_option($key, $empty_value)`, which gives the fallback for a missing or empty saved value. For the three keys read, the form default equals the fallback. The title and description options are UI and not modelled.
- The `exit` after `wp_send_json_*` in `handle_callback` is not modelled. The method returns its response instead.
- Concurrent or interleaved deliveries are not modelled. Each delivery runs alone, and a repeated delivery is modelled as two calls in sequence.
- Reconciliation.ApplySwitch: both handlers run the same switch. The model states it once, parameterised by the handler whose note texts it uses, and does not write it out twice.
