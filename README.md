# EBANX for WooCommerce: payment links and My Account actions

This project models two pieces of the EBANX WooCommerce gateway plugin and proves properties of them in Dafny.

**Payment-by-link issuance** (`WC_EBANX_Payment_By_Link`, module `PaymentByLink`). An administrator's save action calls `create(post_id, config)`. It runs a single pass:

1. a permission gate;
2. validation: a pending-status check, then the currency, minimum-amount, supported-country and e-mail checks, then the payment-method check when a method is set. Each check adds messages to a duplicate-free error list kept in a static field;
3. the request payload;
4. the EBANX SDK call;
5. the result handling. It either writes the payment hash and checkout URL to the order's post metadata, with an order note, or flashes the accumulated errors.

The static fields of the PHP class are the fields of the Dafny class `PaymentByLink.PaymentByLink`. The WordPress, WooCommerce and SDK state it writes is the class `PaymentByLink.Platform`: flash messages, order notes, post metadata, the SDK configuration and direct-mode flag, and the log of requests sent.

Every method is proved against a function on `World`, a snapshot of both classes. `Create` is proved against `CreateSpec`, `Validate` against `ValidateErrors`, and so on. The pipeline's properties are lemmas about those functions.

**My Account actions** (`WC_EBANX_My_Account`, module `MyAccount`). `my_orders_banking_ticket_link` is a pure filter on the actions list. `order_details` is a switch from payment-method id to a gateway's `thankyou_page`. It is modelled as a method that appends to a log of thank-you page calls.

Shared modules:
- `Php`: `empty()` on strings (true for `""` and `"0"`), `strtolower`/`strtoupper` on ASCII, integer-to-string conversion, and the `!` and `===` operators.
- `Orders`: the order record.
- `Wrappers`: `Option`. `None` stands for PHP's `null`.

## Behaviour as written

The model follows the code. Several of these behaviours differ from what the code's own doc comments say. The comment on `post_request` (class-wc-ebanx-payment-by-link.php:123) says it is called "if the request was successful". The comment on `is_it_pending` (line 154) says it returns "true if it is pending":

- **The pending check never fires.** `is_it_pending` tests `! self::$order->status === 'pending'`. That parses as `(!status) === 'pending'`, a boolean compared with a string, which is never identical. So the pending error is never added and `validate` runs every other check on orders of any status. See `PendingCheckAlwaysPasses`, `ValidationIgnoresStatus` and `CompletedOrderPassesValidation`.
- **Exceptions still write metadata.** When the SDK throws, `send_request` adds and flashes the exception's message and returns `false`. The guard `$request && $request->status !== 'SUCCESS'` is then false, so `post_request` still runs: it adds the order note and writes both metadata keys with null values. See `CreateOnExceptionStillPosts`.
- **Errors persist between calls.** `self::$errors` is never reset. Errors left by one `create` call stay in the list, so every later call in the same PHP process fails validation and never sends a request. See `StaleErrorsFailValidation` and `StaleErrorsBlockLaterCalls`.
- **The account method does not stop the other checks.** Choosing `ebanx-account` only stops the remaining payment-method checks. The currency, amount, country and e-mail checks have already run, and their errors are reported as well. See `AccountMethodDoesNotSilenceOtherChecks`.
- **A missing local currency fails the currency check.** When the lower-cased billing country has no entry in `LOCAL_CURRENCIES`, the lookup yields null. The check then fails unless the store currency is USD or EUR.
- **An unmapped method yields a null payment type code.** If a non-empty payment method has no entry in `GATEWAY_TO_PAYMENT_TYPE_CODE`, the payload's `payment_type_code` is null. Validation rejects such an order first, so this does not happen for an order that passed validation (`ValidatedPayloadIsComplete`).

## Model

| member | source | states |
|---|---|---|
| `PaymentByLink.AddError` | woocommerce-gateway-ebanx/services/class-wc-ebanx-payment-by-link.php:141-145 | the old list is a prefix of the result; the message is in the result; the length grows by one exactly when the message was absent; a duplicate-free list stays duplicate-free |
| `PaymentByLink.AddErrorIdempotent` | woocommerce-gateway-ebanx/services/class-wc-ebanx-payment-by-link.php:141-145 | adding the same message twice equals adding it once |
| `PaymentByLink.AddAll` | woocommerce-gateway-ebanx/services/class-wc-ebanx-payment-by-link.php:141-145 | a run of `add_error` calls keeps the old list as a prefix, holds exactly the old and the new messages, grows by at most the number of messages and keeps the list duplicate-free |
| `PaymentByLink.AddAllConcat` | woocommerce-gateway-ebanx/services/class-wc-ebanx-payment-by-link.php:69-75 | running two batches of checks one after the other equals adding their concatenated messages |
| `PaymentByLink.PendingCheckAlwaysPasses` | woocommerce-gateway-ebanx/services/class-wc-ebanx-payment-by-link.php:156-162 | as written, `is_it_pending` returns true for every order status |
| `PaymentByLink.ValidationIgnoresStatus` | woocommerce-gateway-ebanx/services/class-wc-ebanx-payment-by-link.php:65-77 | the status never changes the outcome of `validate`; it always runs all remaining checks; it never adds the pending message |
| `PaymentByLink.RaisedIgnoresStatus` | woocommerce-gateway-ebanx/services/class-wc-ebanx-payment-by-link.php:169-229 | the checks after the pending gate give the same messages whatever the order's status |
| `PaymentByLink.ValidateRunsEveryCheck` | woocommerce-gateway-ebanx/services/class-wc-ebanx-payment-by-link.php:65-77 | as written, `validate` always gets past the pending gate and adds exactly the messages the remaining checks raise |
| `PaymentByLink.ChecksAddAtMostOneMessage` | woocommerce-gateway-ebanx/services/class-wc-ebanx-payment-by-link.php:169-208 | the currency, minimum-amount, country and e-mail checks each add at most one fixed message, exactly when their condition fails; validation raises at most five messages |
| `PaymentByLink.PaymentMethodPriority` | woocommerce-gateway-ebanx/services/class-wc-ebanx-payment-by-link.php:217-229 | at most one message; the account method always yields exactly the account error, whatever the tables hold, and no other method yields it; the unsupported-method error appears exactly when the method is not the account method and has no payment type code; the result is exactly the country error if and only if the method is mapped, not the account method, and missing from the country's list; a country without a list restricts nothing; no error exactly when the method is mapped, not the account method, and allowed where the country has a list |
| `PaymentByLink.PendingMessageNotRaised` | woocommerce-gateway-ebanx/services/class-wc-ebanx-payment-by-link.php:169-229 | no check after the pending gate produces the pending message |
| `PaymentByLink.ValidationCleanIff` | woocommerce-gateway-ebanx/services/class-wc-ebanx-payment-by-link.php:65-77 | from an empty list, `validate` finds no error if and only if every check's condition holds |
| `PaymentByLink.StaleErrorsFailValidation` | woocommerce-gateway-ebanx/services/class-wc-ebanx-payment-by-link.php:65-77 | errors already in the static list make `validate` return a non-zero count |
| `PaymentByLink.BuildPayload` | woocommerce-gateway-ebanx/services/class-wc-ebanx-payment-by-link.php:97-105 | `name` splits back into first name, a space and last name; `email` and `amount` are the order's; `country` is the lower-cased billing country; the currency code is the upper-cased store currency (same length, no lower-case letter); `_all` when there is no method, otherwise the mapped code or null; the merchant code is the id, `_` and the time token |
| `PaymentByLink.AllMethodsExactlyWhenNoMethod` | woocommerce-gateway-ebanx/services/class-wc-ebanx-payment-by-link.php:101 | when no mapped code is `_all`, the payload asks for `_all` if and only if the order has no payment method |
| `PaymentByLink.MerchantCodesDiffer` | woocommerce-gateway-ebanx/services/class-wc-ebanx-payment-by-link.php:102 | the payloads of two orders with distinct ids have distinct merchant payment codes, whatever their time tokens |
| `PaymentByLink.ValidatedPayloadIsComplete` | woocommerce-gateway-ebanx/services/class-wc-ebanx-payment-by-link.php:97-105 | for an order that passed validation, the payload has a payment type code and a supported country, and the method is in that country's list |
| `PaymentByLink.CanCreatePayment` | woocommerce-gateway-ebanx/services/class-wc-ebanx-payment-by-link.php:54-58 | the gate holds exactly when the user may edit the post and the save is neither an autosave nor a revision |
| `PaymentByLink.CreateWithoutPermissionChangesNothing` | woocommerce-gateway-ebanx/services/class-wc-ebanx-payment-by-link.php:26-28 | without edit permission, or on an autosave or a revision, `create` changes nothing |
| `PaymentByLink.CreateWithErrorsSendsNothing` | woocommerce-gateway-ebanx/services/class-wc-ebanx-payment-by-link.php:30-33 | validation errors are flashed exactly as listed; no request, note, metadata or SDK configuration follows |
| `PaymentByLink.CreateOnSuccessRecordsLink` | woocommerce-gateway-ebanx/services/class-wc-ebanx-payment-by-link.php:35-44 | on SUCCESS: one note; the hash and redirect URL stored under the post id; every other metadata entry, of this post or any other, unchanged; one request sent with the payload in non-direct mode |
| `PaymentByLink.CreateOnRejectionReportsOneError` | woocommerce-gateway-ebanx/services/class-wc-ebanx-payment-by-link.php:36-42 | on a non-SUCCESS status the only error is `code: message` under WP_DEBUG, otherwise the generic text; it is flashed; no note and no metadata |
| `PaymentByLink.CreateOnExceptionStillPosts` | woocommerce-gateway-ebanx/services/class-wc-ebanx-payment-by-link.php:110-119 | on an exception its message is the only error and is flashed; the note and both metadata keys are still written, with null values |
| `PaymentByLink.CreateSendsExactlyWhenValid` | woocommerce-gateway-ebanx/services/class-wc-ebanx-payment-by-link.php:21-45 | a request is sent if and only if the gate passes, no error is left over and the order satisfies every check; a note is added if and only if, in addition, the response was not a non-SUCCESS one |
| `PaymentByLink.CreateKeepsErrorsDuplicateFree` | woocommerce-gateway-ebanx/services/class-wc-ebanx-payment-by-link.php:21-45 | `create` keeps the error list duplicate-free; whenever it changes the flash store, the store holds the error list |
| `PaymentByLink.StaleErrorsBlockLaterCalls` | woocommerce-gateway-ebanx/services/class-wc-ebanx-payment-by-link.php:21-33 | once errors are in the never-reset static list, `create` sends no request and writes no note and no metadata |
| `PaymentByLink.SmallBrazilianOrderOnlyFailsMinimum` | woocommerce-gateway-ebanx/services/class-wc-ebanx-payment-by-link.php:182-186 | a 0.50 BRL Brazilian order that is otherwise valid gets only the minimum-amount error |
| `PaymentByLink.CompletedOrderPassesValidation` | woocommerce-gateway-ebanx/services/class-wc-ebanx-payment-by-link.php:156-162 | a completed, otherwise valid order passes validation with no error |
| `PaymentByLink.AccountMethodDoesNotSilenceOtherChecks` | woocommerce-gateway-ebanx/services/class-wc-ebanx-payment-by-link.php:217-221 | the account method yields the account error; with an invalid e-mail the e-mail error comes first as well |
| `PaymentByLink.PaymentByLink.Create` | woocommerce-gateway-ebanx/services/class-wc-ebanx-payment-by-link.php:21-45 | the new error list and platform state are `CreateSpec` of the old; the static post id, order and config are set |
| `PaymentByLink.PaymentByLink.Validate` | woocommerce-gateway-ebanx/services/class-wc-ebanx-payment-by-link.php:65-77 | the new error list is `ValidateErrors` of the old; the returned count is its length |
| `PaymentByLink.PaymentByLink.ValidateAll` | woocommerce-gateway-ebanx/services/class-wc-ebanx-payment-by-link.php:69-75 | the five checks, run in order, add exactly the raised messages |
| `PaymentByLink.PaymentByLink.SendErrors` | woocommerce-gateway-ebanx/services/class-wc-ebanx-payment-by-link.php:84-89 | the flash store is cleared, then holds exactly the errors in their order |
| `PaymentByLink.PaymentByLink.SendRequest` | woocommerce-gateway-ebanx/services/class-wc-ebanx-payment-by-link.php:96-120 | configures the SDK and sets non-direct mode; sends the payload; on an exception adds and flashes its message and returns `false` (None); otherwise returns the response |
| `PaymentByLink.PaymentByLink.PostRequest` | woocommerce-gateway-ebanx/services/class-wc-ebanx-payment-by-link.php:129-133 | adds one note to the order and writes the hash and URL under the post id |
| `PaymentByLink.PaymentByLink.RecordError` | woocommerce-gateway-ebanx/services/class-wc-ebanx-payment-by-link.php:141-145 | the error list becomes `AddError` of the old one |
| `PaymentByLink.PaymentByLink.IsItPendingCheck` | woocommerce-gateway-ebanx/services/class-wc-ebanx-payment-by-link.php:156-162 | returns `IsItPending` of the status; the pending error is added only when it returns false |
| `PaymentByLink.PaymentByLink.CheckCurrencyOverCountry` | woocommerce-gateway-ebanx/services/class-wc-ebanx-payment-by-link.php:169-175 | adds the currency message unless the currency is USD, EUR or the country's local currency |
| `PaymentByLink.PaymentByLink.CheckMinAmount` | woocommerce-gateway-ebanx/services/class-wc-ebanx-payment-by-link.php:182-186 | adds the minimum-amount message when the total is below 1 |
| `PaymentByLink.PaymentByLink.CheckSupportedCountry` | woocommerce-gateway-ebanx/services/class-wc-ebanx-payment-by-link.php:193-197 | adds the country message when the lower-cased country is not supported |
| `PaymentByLink.PaymentByLink.CheckValidEmail` | woocommerce-gateway-ebanx/services/class-wc-ebanx-payment-by-link.php:204-208 | adds the e-mail message when the validator rejects the address |
| `PaymentByLink.PaymentByLink.CheckPaymentMethod` | woocommerce-gateway-ebanx/services/class-wc-ebanx-payment-by-link.php:217-229 | adds the one message `PaymentMethodCheck` selects |
| `Php.Lower` | woocommerce-gateway-ebanx/services/class-wc-ebanx-payment-by-link.php:100 | `strtolower` keeps the length, lower-cases each ASCII letter and leaves no upper-case ASCII letter |
| `Php.Upper` | woocommerce-gateway-ebanx/services/class-wc-ebanx-payment-by-link.php:103 | `strtoupper` keeps the length, upper-cases each ASCII letter and leaves no lower-case ASCII letter |
| `Php.NatToString` | woocommerce-gateway-ebanx/services/class-wc-ebanx-payment-by-link.php:102 | the order id in the merchant code is a non-empty run of decimal digits |
| `Php.NatToStringRoundTrip` | woocommerce-gateway-ebanx/services/class-wc-ebanx-payment-by-link.php:102 | the digits written for an order id denote that id |
| `Php.NatToStringInjective` | woocommerce-gateway-ebanx/services/class-wc-ebanx-payment-by-link.php:102 | distinct order ids are written as distinct strings |
| `Php.Empty` | woocommerce-gateway-ebanx/services/class-wc-ebanx-payment-by-link.php:73 | `empty()` on a string holds for `""` and also for `"0"` |
| `Php.Not` | woocommerce-gateway-ebanx/services/class-wc-ebanx-payment-by-link.php:157 | `!` always yields a boolean, and that boolean is truthy exactly when the operand is not |
| `Php.NegationNeverIdenticalToString` | woocommerce-gateway-ebanx/services/class-wc-ebanx-payment-by-link.php:157 | a negated value is never `===` to a string |
| `MyAccount.MyOrdersBankingTicketLink` | woocommerce-gateway-ebanx/includes/class-wc-ebanx-my-account.php:35-49 | actions are unchanged unless the method is the banking ticket, the status is pending or on-hold, and the stored ticket URL is non-empty; then exactly one `{url, View Banking Ticket}` entry is appended after all prior entries |
| `MyAccount.GatewayFor` | woocommerce-gateway-ebanx/includes/class-wc-ebanx-my-account.php:59-84 | the gateway chosen is the one whose id is the payment method; no gateway exactly when no id matches |
| `MyAccount.GatewayForMethodId` | woocommerce-gateway-ebanx/includes/class-wc-ebanx-my-account.php:60-81 | the eight case labels are distinct: each gateway is reached by its own id and by no other |
| `MyAccount.OrderDetails` | woocommerce-gateway-ebanx/includes/class-wc-ebanx-my-account.php:57-85 | one `thankyou_page` call, with the order id, for the matching gateway; no call for any other method |

## Left out

- WordPress and WooCommerce calls are inputs or platform state. `current_user_can`, `wp_is_post_autosave`, `wp_is_post_revision`, `wc_get_order` and `get_woocommerce_currency` are fields of `Env`. `WC_EBANX_Flash`, `add_order_note` and `update_post_meta` are fields of `Platform`.
- `wc_get_order` is assumed to find the order. A missing order makes the source fail with a fatal error, which is not modelled.
- `__()` translation is the identity, and `sprintf` is string concatenation.
- The EBANX SDK is foreign: `EBANX::doRequest` is the input `Outcome` (a response, or an exception with its message). `Config::set` and `setDirectMode` are recorded in `Platform`; what the SDK does with them is not modelled.
- `md5(time())` is the input `timeToken`, combining hashing and the clock.
- `filter_var(..., FILTER_VALIDATE_EMAIL)` is the input predicate `isValidEmail`. E-mail syntax is not modelled.
- The order total, a PHP float, is a `real`. Only the `< 1` comparison and the payload use it.
- The `WC_EBANX_Constants` tables are the parameter `Constants`. The constants class is not part of this model.
- `WC_EBANX_Flash` is not part of this model. Its store is a sequence that `clear_messages` empties and `add_message` appends to.
- PHP notices and warnings (undefined index, property read on `false`) are not modelled. Only the null value they yield is.
- Loose comparisons: `in_array` (class-wc-ebanx-payment-by-link.php:194, 226 and class-wc-ebanx-my-account.php:37), `array_key_exists` with numeric-string keys (class-wc-ebanx-payment-by-link.php:222, 225) and the `switch` in class-wc-ebanx-my-account.php:59 are modelled with exact equality. PHP's looseness only differs for numeric strings, and no country code, method id or status the plugin uses is numeric.
- `PaymentByLink.AddError`: uses exact string equality, where `in_array` compares loosely. Two different numeric strings such as "10" and "1e1" count as duplicates in the source but not in the model.
- `Php.Lower`: `strtolower` and `strtoupper` are modelled on ASCII letters only. Older PHP versions also map locale-dependent letters.
- `MyAccount.MyOrdersBankingTicketLink`: the actions array is a sequence, so its keys are not modelled. The source's keyed entries and the integer key `$actions[] =` picks are left out; only the order of the entries is kept.
- What a gateway's `thankyou_page` renders is not modelled, only the call and its order id.
- The `WC_EBANX_My_Account` constructor, which registers the two hooks, and the top-level `new WC_EBANX_My_Account()` are not modelled.
- Concurrent `create` calls for the same order are not modelled. PHP runs one request per process and the source has no locking.
- The logging database wrapper, the loggers, the PagoEfectivo gateway, the credit-card template and the order-received script are not part of this model. They are platform glue, UI, or depend on classes not included.
