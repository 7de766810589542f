# imeicheck backend core, modelled in Dafny

This project models the business rules of the imeicheck backend, an Express/Sequelize server that sells IMEI checks. Users pay for checks through Stripe checkout sessions or from an account balance.

The model covers:

- the derived balance of a user (`getUserBalance`);
- the Stripe webhook reconciler and the two checkout-session creators;
- manual payments, and polling of a cached HTML result;
- the IMEI order pipeline (normalise, validate, price, call the verification API once per IMEI, aggregate the status);
- the worker's status update and the admin order list;
- the account life cycle (register, verify e-mail, log in, reset password, resend verification), the admin user edits and the admin user list;
- the JWT middleware and the admin gate;
- the bulk service update and the not-found rules of the service handlers;
- the dashboard's month axis, zero-filled totals, order counters and service-usage names;
- the stand-alone `/api/check-imei` endpoint's validators and result handling.

**How the state is modelled.** The database and the process's HTML result cache are one `Tables.Store` class. Its sequence and map fields are updated through one primitive method per `create`/`save`/`destroy`, and it keeps a ghost journal of every write (`Tables.Write`).

**How each handler is modelled.** Each stateful handler has two halves:

- a pure specification function (for example `PaymentController.Webhook` or `UserController.VerifyEmailReply`) that returns the writes, in the order the source issues them, and the HTTP status;
- a method on the store (`PaymentController.StripeWebhook`, `UserController.VerifyEmail`, …) that performs those writes step by step and is proved to leave exactly `Apply(old state, writes)`.

The properties are lemmas about the specification functions.

**Inputs in place of the outside world.** Everything the server asks of the outside world is an input:

- the Stripe signature check is a boolean;
- one IMEI API call is an `ApiOutcome` (a reply, or a transport error), and `calls(i)` is the outcome of call number `i`;
- whether a mail is delivered is a boolean (or the mailer's error message);
- JWT verification is a function from token to user id, and password comparison is a function;
- the clock is an integer number of milliseconds;
- verification and reset codes, password hashes and the frontend URL are inputs.

Money is `real` (DECIMAL columns). Stripe amounts in cents are divided by 100 explicitly.

**Behaviour of the code worth knowing:**

- The top-up branches record `balance_before` from the stored `user.balance` column (backend/src/controllers/payment.controller.js:290-291 and :440-441). `getUserBalance` never reads that column (backend/src/utils/getUserBalance.js:7-21), so the recorded figure and the derived balance can disagree.
- The guest guard in `createOrder` (backend/src/controllers/imei_order.controller.js:21-23) can never fire, because a guest's `user_id` is already 999 (line 19). A guest order without a guest e-mail is refused with 401 by the auth middleware (backend/src/middleware/auth.js:9-22), not by the controller.
- The payment created when an IMEI is bought through Stripe has no `credited_amount` (backend/src/controllers/payment.controller.js:202-213), yet the order completes under the buyer's `user_id`. Since the balance sums `credited_amount` (backend/src/utils/getUserBalance.js:7-11), a registered buyer's derived balance drops by the price of a Stripe-paid order (`PaymentController.PurchaseChargesBuyer`).
- The generic `payment_intent.succeeded` branch creates a payment without `user_id` (backend/src/controllers/payment.controller.js:468-477). The NOT NULL column (backend/src/models/payment.js:15-18) refuses it, so the branch writes nothing.
- `getOrderBySession` of the payment controller (backend/src/controllers/payment.controller.js:630), the one with the cache, is modelled as written. The route `/by-session/:session_id` serves the order controller's handler of the same name instead (backend/src/routes/imei_order.routes.js:18).

## Model

| member | source | states |
|---|---|---|
| Balance.GetUserBalance | backend/src/utils/getUserBalance.js:5-22 | reads the two tables, changes nothing, and returns the approved credited sum minus the completed price sum of the user |
| Balance.NoMatchingRows | backend/src/utils/getUserBalance.js:7-21 | with no approved payment and no completed order of the user the balance is 0 |
| Balance.ApprovedPaymentRaises | backend/src/utils/getUserBalance.js:7-11 | appending an approved payment of the user with credited amount c raises the balance by exactly c |
| Balance.CompletedOrderLowers | backend/src/utils/getUserBalance.js:14-18 | appending a completed order of the user lowers the balance by exactly its `price_used` |
| Balance.UncreditedPurchase | backend/src/utils/getUserBalance.js:7-21 | a payment with NULL `credited_amount` adds nothing, so a purchase changes the balance only by its order's charge |
| Balance.IrrelevantRowsKeep | backend/src/utils/getUserBalance.js:9-16 | rows of other users, non-approved or uncredited payments and non-completed orders leave the balance unchanged wherever they are inserted |
| Balance.CompleteOrderLowers | backend/src/utils/getUserBalance.js:14-21 | saving a not-yet-completed order row of the user as completed lowers the balance by its price |
| Balance.CreditSumConcat | backend/src/utils/getUserBalance.js:7-11 | the credited sum splits over concatenated payment lists |
| Balance.ChargeSumConcat | backend/src/utils/getUserBalance.js:14-18 | the charged sum splits over concatenated order lists |
| AuthMiddleware.SecondField | backend/src/middleware/auth.js:24 | `split(' ')[1]` exists iff the header has a space, and holds no space |
| AuthMiddleware.BearerTokenRoundTrip | backend/src/middleware/auth.js:20-24 | `Bearer <t>` passes the prefix test and its second field is `t` |
| AuthMiddleware.Authenticate | backend/src/middleware/auth.js:9-49 | the bypass first whatever the header; 401 for a missing or non-Bearer header; past those, 401 iff the second field is missing, the token does not verify, or no stored user has its id; a user only from a Bearer header whose token verifies to that user's id |
| AuthMiddleware.GuestExactlyOnBypass | backend/src/middleware/auth.js:9-17 | a request continues as guest iff it is POST `/api/imei-orders` at `/` or empty with a truthy `guest_email` |
| AuthMiddleware.ValidTokenAuthenticates | backend/src/middleware/auth.js:20-46 | a Bearer token that verifies to a stored user's id authenticates as that user |
| AuthMiddleware.BypassedOrderIsGuest | backend/src/middleware/auth.js:9-17 | a bypassed request reaches the handler with no user and a truthy guest e-mail |
| OnlyAdmin.OnlyAdmin | backend/src/middleware/onlyAdmin.js:1-7 | `next()` iff a caller exists with tier `admin` or `superadmin`; no caller gives 403 |
| OnlyAdmin.NonAdminTiersForbidden | backend/src/middleware/onlyAdmin.js:3-4 | `registered`, `pro`, `premium`, `pending`, `guest` and empty tiers are all refused |
| Mailer.Delivered | backend/src/utils/mailer.js:88-106 | `sendMail` resolves iff the type has a template, the template is not `order_result` (which reads an undeclared `order`, line 37) and the transport succeeds |
| CheckImeiEndpoint.Validate | backend/index.js:60-71 | IMEI first, then service id, then optional e-mail: each error exactly when the earlier checks pass and this one fails |
| CheckImeiEndpoint.ResultOrFallback | backend/index.js:83 | a truthy result is kept, a falsy one becomes the fixed message; the outcome is always truthy |
| CheckImeiEndpoint.CheckImei | backend/index.js:60-117 | validation errors answer 400 and a failed API call 500; a valid request with a reply is answered 200 iff no e-mail is asked for or the fallback-applied result is text, and 500 otherwise; a 200 carries that result and, iff an e-mail was given, the mail of its text and its tag-stripped text to that address |
| CheckImeiEndpoint.MailIsClean | backend/index.js:68-101 | a mail goes only to an address matching the e-mail pattern, for a 15-digit IMEI, with a plain text that has no tag and is the HTML with tags stripped |
| CheckImeiEndpoint.ImeiCheckedFirst | backend/index.js:60-63 | a bad IMEI is answered 400 whatever the service id and e-mail |
| CheckImeiEndpoint.ObjectResultNeedsNoMail | backend/index.js:86-117 | an object result answers 200 without an e-mail, and 500 with one since `replace` is called on it |
| Text.IndexOf | backend/src/middleware/auth.js:24 | the first position of the character, or the length when absent |
| Text.TrimStart | backend/src/controllers/user.controller.js:19 | a suffix of the input, cutting only white space, not starting with white space |
| Text.TrimEnd | backend/src/controllers/user.controller.js:19 | a prefix of the input, cutting only white space, not ending with white space |
| Text.Trim | backend/src/controllers/imei_order.controller.js:34 | the result is unpadded, an unpadded input is kept, and the result is empty iff the input is all white space |
| Text.ToLower | backend/src/controllers/user.controller.js:19 | same length, each character mapped by the ASCII lower-casing `LowerChar` |
| Text.ToLowerIdempotent | backend/src/controllers/user.controller.js:19 | lower-casing twice is lower-casing once |
| Text.TagLength | backend/src/controllers/payment.controller.js:22 | a match of `<[^>]+>` at the start: `<`, at least one non-`>`, then `>` |
| Text.StripTags | backend/src/controllers/payment.controller.js:22 | removing tags never lengthens the text or introduces a `>` |
| Text.StripTagsKeepsText | backend/src/controllers/payment.controller.js:22 | text before the first `<` is kept unchanged, and stripping goes on after it |
| Text.StripTagsDropsTag | backend/src/controllers/payment.controller.js:22 | a leading `<x>` with non-empty `x` free of `>` is removed whole |
| Text.StripTagsPlainText | backend/src/controllers/payment.controller.js:22 | a text without `<` is left as it is |
| Text.StripTagsTagFree | backend/index.js:93 | the output of tag stripping contains no further tag span |
| Text.TagFreeHasNoTag | backend/index.js:93 | a tag-free text has no substring matching `<[^>]+>` |
| Text.CollapseSpaces | backend/src/controllers/payment.controller.js:23 | collapsing white space introduces no `>` |
| Text.CollapseSingleSpaced | backend/src/controllers/payment.controller.js:23 | a text with no two adjacent white-space characters is left as it is |
| Text.CollapseNoDoubleSpace | backend/src/controllers/payment.controller.js:23 | after `replace(/\s\s+/g, ' ')` no two adjacent characters are white space |
| Text.CollapseKeepsTagFree | backend/src/controllers/payment.controller.js:22-23 | collapsing white space does not create a tag |
| Text.TrimKeeps | backend/src/controllers/payment.controller.js:24 | trimming keeps a text tag-free and free of double white space |
| Text.BreakLength | backend/src/controllers/payment.controller.js:21 | a match of `<br\s*\/?>` (case-insensitive) starts with `<`, then `b`/`B`, `r`/`R`, then only white space up to an optional `/` just before the closing `>`; at least four characters |
| Text.ReplaceBreaks | backend/src/controllers/payment.controller.js:21 | replacing every `<br>` tag by one space never lengthens the text |
| Text.SpaceRunOfSpaces | backend/src/controllers/payment.controller.js:21 | a run of white space followed by a non-space is measured in full, as `\s*` matches it |
| Text.BreakLengthOfTag | backend/src/controllers/payment.controller.js:21 | every tag `<br`, `<BR`, `<bR`, `<Br`, followed by any white space, an optional `/` and `>`, is matched in full |
| Text.ReplaceBreaksTag | backend/src/controllers/payment.controller.js:21 | such a tag at the front of a text becomes exactly one space, followed by the replacement of the rest |
| Text.ReplaceBreaksPlainText | backend/src/controllers/payment.controller.js:21 | a text without `<` holds no `<br>` and is left as it is |
| Text.SpaceRun | backend/src/controllers/payment.controller.js:23 | the leading white-space run: all white space, followed by a non-space |
| Text.IsEmailMatchesPattern | backend/index.js:68-71 | the computed e-mail test accepts exactly the strings the regular expression `^[^@\s]+@[^@\s]+\.[^@\s]+$` matches |
| Tables.ReplyStatus | backend/src/controllers/imei_order.controller.js:93 | a reply gives `completed` iff it reports success, else `failed` |
| Tables.FindUser | backend/src/controllers/user.controller.js:250 | `findByPk` finds a row with that id, or reports that none has it |
| Tables.FindUserByEmail | backend/src/controllers/user.controller.js:74 | the first row with exactly that e-mail, or none |
| Tables.FindOrder | backend/src/controllers/imei_order.controller.js:166 | `findByPk` on orders: a row with that id, or none has it |
| Tables.FindPaymentBySession | backend/src/controllers/payment.controller.js:634 | the first payment with that checkout-session id, or none |
| Tables.SessionCount | backend/src/controllers/payment.controller.js:176-179 | the number of payments with a session id is 0 iff none exists |
| Tables.ReplaceUser | backend/src/controllers/user.controller.js:411 | `save()` replaces exactly the rows with the user's id |
| Tables.ReplaceOrder | backend/src/controllers/imei_order.controller.js:179 | `save()` replaces exactly the rows with the order's id |
| Tables.Store.CreateUser | backend/src/controllers/user.controller.js:35-46 | the row gets the next id and is appended; the journal records the insert |
| Tables.Store.UpdateUser | backend/src/controllers/user.controller.js:407-411 | the store after saving a user row, journalled |
| Tables.Store.UpdateService | backend/src/controllers/service.controller.js:108-111 | the store after saving a service row, journalled |
| Tables.Store.DestroyService | backend/src/controllers/service.controller.js:84 | the service row removed, journalled |
| Tables.Store.CreateOrder | backend/src/controllers/imei_order.controller.js:58-70 | the order gets the next id and is appended, journalled |
| Tables.Store.UpdateOrder | backend/src/controllers/imei_order.controller.js:178-179 | the store after saving an order row, journalled |
| Tables.Store.CreatePayment | backend/src/controllers/payment.controller.js:202-213 | the payment gets the next id and is appended, journalled |
| Tables.Store.PutCache | backend/src/controllers/payment.controller.js:237-243 | the HTML result stored under the session id, journalled |
| Tables.Store.DeleteCache | backend/src/controllers/payment.controller.js:642-652 | the cache entry removed, journalled |
| Tables.InsertKeepsUnique | backend/src/models/user.js:11-21 | an insert the uniqueness and `isEmail` constraints let through, under a fresh id, keeps ids, usernames and e-mails unique |
| Tables.SaveKeepsUnique | backend/src/models/user.js:11-21 | a save of a stored row that the constraints let through keeps ids, usernames and e-mails unique |
| PaymentController.CleanImeiResult | backend/src/controllers/payment.controller.js:19-25 | "" for an empty input; otherwise no tag span, no two adjacent white-space characters, and no white space at either end |
| PaymentController.CleanSteps | backend/src/controllers/payment.controller.js:19-25 | the replace, strip, collapse and trim chain has those three properties |
| PaymentController.CleanKeepsCleanText | backend/src/controllers/payment.controller.js:19-25 | a text without `<`, without double white space and without padding is returned unchanged |
| PaymentController.GetFrontendUrl | backend/src/controllers/payment.controller.js:27-32 | fails iff `FRONTEND_URL` is unset or empty; otherwise removes exactly one trailing `/` when there is one |
| PaymentController.FrontendUrlSlash | backend/src/controllers/payment.controller.js:27-32 | appending `/` is undone; `//` loses only one slash |
| PaymentController.NonEmpty | backend/src/controllers/payment.controller.js:60-64 | a metadata string reads back as present iff it is non-empty |
| PaymentController.CreateStripeCheckoutSession | backend/src/controllers/payment.controller.js:34-74 | 400 for a missing or non-positive amount, 404 for an unknown user; a session exactly when both pass and the URL is set, charging the amount with the user id and `original_amount` (or the amount) in the metadata |
| PaymentController.CheckoutPrice | backend/src/controllers/payment.controller.js:105-110 | guests pay `price_guest`, every other tier `price_registered` |
| PaymentController.CreateImeiCheckoutSession | backend/src/controllers/payment.controller.js:76-147 | 400 for a bad IMEI, a missing or zero service id, an unknown or inactive service, or a non-positive tier price; 500 when `FRONTEND_URL` is unset; a session iff all those pass; a session names the IMEI and service, bills a caller-less request as user 999 at the guest price and an authenticated caller under its own id and tier at `CheckoutPrice` of its tier |
| PaymentController.TopUpAmounts | backend/src/controllers/payment.controller.js:271-277 | the amount is `recharge_amount` or cents/100, and the credit is `original_amount` or the amount |
| PaymentController.CheckoutTopUpAmounts | backend/src/controllers/payment.controller.js:269-277 | a checkout top-up charges and credits those amounts under its session id |
| PaymentController.StoredResult | backend/src/controllers/payment.controller.js:228-232 | (the webhook repeats this at lines 387-391) a string result is stored cleaned, an object serialised, `null` as the text "null" (`JSON.stringify(null)`), an absent result leaves the column NULL |
| PaymentController.ApiStatus | backend/src/controllers/payment.controller.js:232-234 | the order is `completed` iff the API replied with success, else `failed` (a transport error included) |
| PaymentController.OutcomeWrites | backend/src/controllers/payment.controller.js:232-264 | the order is saved at least once after the API call |
| PaymentController.PurchaseWrites | backend/src/controllers/payment.controller.js:187-264 | an IMEI purchase makes at least the order insert, the payment insert and the outcome save |
| PaymentController.CreditWrites | backend/src/controllers/payment.controller.js:290-305 | a credit is two writes: the user save, then the payment |
| PaymentController.Webhook | backend/src/controllers/payment.controller.js:154-486 | a bad signature answers 400 with no write; otherwise 200, and other event types write nothing |
| PaymentController.OutcomeApplies | backend/src/controllers/payment.controller.js:232-264 | the writes after the API call touch only the orders and the cache, and the cache gains the HTML iff a truthy result arrived for a session |
| PaymentController.OutcomeOrders | backend/src/controllers/payment.controller.js:232-264 | those writes leave the final row in place of the pending one |
| PaymentController.PurchaseApplies | backend/src/controllers/payment.controller.js:187-264 | after a purchase: one payment appended, users and services unchanged, the cache as above, the order and payment counters advanced by one |
| PaymentController.PurchaseEffect | backend/src/controllers/payment.controller.js:181-264 | one order and one payment appended; the payment is `approved`, linked by `order_id`, at the order's tier price, with no credited amount; the order is `completed` iff the API succeeded and no guest mail failed, never `partial` or `pending` |
| PaymentController.PurchaseChargesBuyer | backend/src/controllers/payment.controller.js:202-234 | a completed Stripe-paid order lowers its buyer's derived balance by its price, and a failed one leaves it unchanged |
| PaymentController.CreditEffect | backend/src/controllers/payment.controller.js:290-305 | the payment records `balance_after = balance_before + credited`; stored and derived balances both rise by exactly the credit |
| PaymentController.WebhookPayment | backend/src/controllers/payment.controller.js:163-483 | a delivery that writes anything appends exactly one payment carrying the session or intent id it de-duplicates by, and keeps every user id |
| PaymentController.WebhookIdempotent | backend/src/controllers/payment.controller.js:176-179 | a redelivered event writes nothing, whatever the API outcome and mail result |
| PaymentController.CheckoutSessionCount | backend/src/controllers/payment.controller.js:176-305 | a first checkout delivery leaves one payment with the session id iff it writes anything |
| PaymentController.CheckoutOrderCount | backend/src/controllers/payment.controller.js:187-200 | it adds one order iff it is an IMEI purchase that writes anything |
| PaymentController.CheckoutTwice | backend/src/controllers/payment.controller.js:176-179 | after two deliveries of one checkout event there is exactly one payment with that session id if the first wrote anything, none otherwise, and exactly one new order for an IMEI purchase that wrote |
| PaymentController.CheckoutThenIntent | backend/src/controllers/payment.controller.js:325-329 | a later `payment_intent.succeeded` for an IMEI checkout's intent writes nothing |
| PaymentController.PurchaseConsistent | backend/src/controllers/payment.controller.js:187-213 | a purchase keeps every stored id below the next auto-increment id |
| PaymentController.CreditConsistent | backend/src/controllers/payment.controller.js:294-305 | a credit keeps the ids fresh |
| PaymentController.WebhookConsistent | backend/src/controllers/payment.controller.js:154-486 | every delivery keeps the ids fresh |
| PaymentController.TopUpRoundTrip | backend/src/controllers/payment.controller.js:60-64 | the session the top-up creator asks for, once paid, credits `original_amount` (or the amount) and records the amount |
| PaymentController.TopUpDelivery | backend/src/controllers/payment.controller.js:269-305 | a first top-up delivery for a known user appends the credit payment and raises the derived balance by the credit |
| PaymentController.ImeiRoundTrip | backend/src/controllers/payment.controller.js:130-200 | the session the IMEI creator asks for, once paid, creates one order for the same buyer, IMEI and service at the price charged |
| PaymentController.StripeWebhook | backend/src/controllers/payment.controller.js:154-486 | on the store: answers `Webhook`'s status and makes exactly its writes |
| PaymentController.CheckoutCompletedHook | backend/src/controllers/payment.controller.js:163-317 | the checkout branch on the store makes exactly its writes |
| PaymentController.IntentSucceededHook | backend/src/controllers/payment.controller.js:320-483 | the intent branch on the store makes exactly its writes |
| PaymentController.PayForImei | backend/src/controllers/payment.controller.js:187-264 | the IMEI-purchase branch: order, payment, outcome in that order |
| PaymentController.SaveOutcome | backend/src/controllers/payment.controller.js:232-264 | the outcome save, cache insert and guest-mail failure save on the store |
| PaymentController.SaveReply | backend/src/controllers/payment.controller.js:232-258 | the same for an API reply |
| PaymentController.CreditUser | backend/src/controllers/payment.controller.js:290-305 | the balance save, then the payment with both balances, on the store |
| PaymentController.ManualPayment | backend/src/controllers/payment.controller.js:509-550 | 400 for a missing e-mail, amount or reference or a non-positive amount, 404 for an unknown e-mail; otherwise writes and 201, or 500 when the mail fails |
| PaymentController.ManualPaymentRaises | backend/src/controllers/payment.controller.js:519-533 | a manual payment raises the stored and the derived balance by exactly the amount and records `manual` with its balance after |
| PaymentController.CreateManualPayment | backend/src/controllers/payment.controller.js:509-550 | on the store: `ManualPayment`'s writes and status |
| PaymentController.OrderBySession | backend/src/controllers/payment.controller.js:630-666 | 404 without a linked order; a cached HTML is answered and deleted, otherwise the stored result is answered with no write |
| PaymentController.CacheTakenOnce | backend/src/controllers/payment.controller.js:642-652 | the next poll gets no HTML, writes nothing, and finds the order iff the first did |
| PaymentController.PurchaseThenPoll | backend/src/controllers/payment.controller.js:237-243 | polling right after a checkout purchase with a truthy result hands out that HTML for the IMEI |
| ImeiOrderController.Normalize | backend/src/controllers/imei_order.controller.js:34 | no longer than the input, and every entry non-empty and trimmed |
| ImeiOrderController.NormalizeIdempotent | backend/src/controllers/imei_order.controller.js:34 | cleaning a cleaned list changes nothing |
| ImeiOrderController.NormalizeFixed | backend/src/controllers/imei_order.controller.js:34 | a list of non-empty trimmed entries is its own cleaning |
| ImeiOrderController.NormalizeConcat | backend/src/controllers/imei_order.controller.js:34 | cleaning works entry by entry |
| ImeiOrderController.FirstInvalid | backend/src/controllers/imei_order.controller.js:40-44 | the first entry that is not 15 digits, all before it valid |
| ImeiOrderController.Validate | backend/src/controllers/imei_order.controller.js:36-44 | accepted iff 1 to 50 entries all of 15 digits; the count error iff 0 or more than 50; otherwise the first invalid entry is named |
| ImeiOrderController.SingleImeiAccepted | backend/src/controllers/imei_order.controller.js:30-44 | a single 15-digit IMEI is accepted as it is |
| ImeiOrderController.ImeiListJson | backend/src/controllers/imei_order.controller.js:56 | the stored IMEI column is a bracketed JSON list |
| ImeiOrderController.QuotedRoundTrip | backend/src/controllers/imei_order.controller.js:56 | the quoted, comma-joined entries read back as the entries when none holds a `"` |
| ImeiOrderController.ImeiListRoundTrip | backend/src/controllers/imei_order.controller.js:56 | parsing the stored column of a list of 15-digit IMEIs gives back exactly that list |
| ImeiOrderController.ImeiListInjective | backend/src/controllers/imei_order.controller.js:56 | two lists of IMEIs store the same column only when they are equal |
| ImeiOrderController.OrderPrice | backend/src/controllers/imei_order.controller.js:46-54 | guests pay `price_guest`, `pro` `price_pro`, `premium` `price_premium`, any other tier `price_registered` |
| ImeiOrderController.OrderPriceVersusCheckout | backend/src/controllers/imei_order.controller.js:46-54 | outside `pro` and `premium`, the balance order charges what a Stripe checkout charges |
| ImeiOrderController.RunChecks | backend/src/controllers/imei_order.controller.js:76-100 | with no error, one check per IMEI, in order, with the reply and its status |
| ImeiOrderController.RunChecksMeans | backend/src/controllers/imei_order.controller.js:76-112 | the loop finishes iff every call replies; otherwise it stops with the first thrown error |
| ImeiOrderController.RunChecksErrStays | backend/src/controllers/imei_order.controller.js:107-112 | after a throw no later IMEI is called |
| ImeiOrderController.AllCompletedMeans | backend/src/controllers/imei_order.controller.js:102 | `every` holds iff each check completed |
| ImeiOrderController.AnyCompletedMeans | backend/src/controllers/imei_order.controller.js:103 | `some` holds iff one check completed |
| ImeiOrderController.Aggregate | backend/src/controllers/imei_order.controller.js:102-104 | `completed` iff all completed, `partial` iff some but not all, `failed` iff none of a non-empty list, never `pending` |
| ImeiOrderController.ClientView | backend/src/controllers/imei_order.controller.js:94-98 | one client entry per check with its IMEI, result and status |
| ImeiOrderController.Recipient | backend/src/controllers/imei_order.controller.js:116-121 | never an empty address, and a truthy guest e-mail is chosen over the account's e-mail |
| ImeiOrderController.ActiveService | backend/src/controllers/imei_order.controller.js:25-28 | found iff the id is given, stored and active |
| ImeiOrderController.CreateOrderReply | backend/src/controllers/imei_order.controller.js:15-158 | 400 with no write for the guest guard; 404 with no write for a missing or inactive service; 400 with no write for a wrong count or an invalid IMEI; otherwise exactly `PlacedReply` of the validated list; it writes iff it answers 201 or 500 |
| ImeiOrderController.PlacedReply | backend/src/controllers/imei_order.controller.js:58-153 | an accepted order inserts the pending row, then saves it with its outcome, and answers 201 or 500 |
| ImeiOrderController.PlacedShape | backend/src/controllers/imei_order.controller.js:21-70 | a request that writes passed the guard, the service check and the IMEI validation |
| ImeiOrderController.PlacedDecision | backend/src/controllers/imei_order.controller.js:115-153 | 500 with no results when a notified order's mail fails, else 201 with the results |
| ImeiOrderController.CreateOrderReplyAsWritten | backend/src/controllers/imei_order.controller.js:145-150 | as written the completion mail (`type: null`) is never delivered |
| ImeiOrderController.NotifiedOrderFailsAsWritten | backend/src/controllers/imei_order.controller.js:115-157 | as written a completed or partial order with a recipient is saved and answered 500, where 201 was intended |
| ImeiOrderController.GuestOrderCounterexample | backend/src/controllers/imei_order.controller.js:148 | a one-IMEI guest order whose check succeeds is answered 500 as written and 201 as intended |
| ImeiOrderController.SingleCheckCompletes | backend/src/controllers/imei_order.controller.js:93-104 | one successful reply completes a one-IMEI order, keeping its guest e-mail |
| ImeiOrderController.GuestGuardUnreachable | backend/src/controllers/imei_order.controller.js:19-23 | the guest guard never fires for a guest (999) or a caller with a non-zero id |
| ImeiOrderController.GuestEmailOnlyForGuests | backend/src/controllers/imei_order.controller.js:62 | only the caller-less order keeps `guest_email` |
| ImeiOrderController.CreateOrderRows | backend/src/controllers/imei_order.controller.js:30-70 | writes only for 1 to 50 valid IMEIs and a known service: a pending row with the next id, the caller's id, the tier price and the IMEI list, then that row with its outcome |
| ImeiOrderController.OutcomeOf | backend/src/controllers/imei_order.controller.js:101-112 | a throw fails the order with the error payload; replies for all IMEIs store the checks with the aggregate status; nothing else in the row changes |
| ImeiOrderController.CreateOrderCharges | backend/src/controllers/imei_order.controller.js:58-106 | an accepted order appends one row and touches no payment or user; the buyer's derived balance drops by the price iff it completed |
| ImeiOrderController.PlacedCharges | backend/src/controllers/imei_order.controller.js:58-106 | the same for the accepted half alone |
| ImeiOrderController.CreateOrderIgnoresBalance | backend/src/controllers/imei_order.controller.js:15-158 | the stored balances, the caller's included, do not change the reply or the writes |
| ImeiOrderController.PlacedIgnoresBalance | backend/src/controllers/imei_order.controller.js:58-153 | the same for the accepted half |
| ImeiOrderController.CallApi | backend/src/controllers/imei_order.controller.js:76-112 | the loop computes exactly `RunChecks` over all IMEIs and the client results |
| ImeiOrderController.CreateOrder | backend/src/controllers/imei_order.controller.js:15-158 | on the store: `CreateOrderReply`'s status, results and writes |
| ImeiOrderController.Place | backend/src/controllers/imei_order.controller.js:58-153 | on the store: `PlacedReply`'s status, results and writes |
| ImeiOrderController.ParseStatus | backend/src/controllers/imei_order.controller.js:169-172 | accepted iff `pending`, `completed` or `failed`, each mapped to its own status; `partial` refused |
| ImeiOrderController.UpdateOrderStatusReply | backend/src/controllers/imei_order.controller.js:161-208 | 404 for an unknown order, 400 for a status off the list, and writes iff both pass |
| ImeiOrderController.UpdateOrderStatusReplyAsWritten | backend/src/controllers/imei_order.controller.js:181-200 | as written the `order_result` mail is never delivered |
| ImeiOrderController.CompletionFailsAsWritten | backend/src/controllers/imei_order.controller.js:181-207 | as written marking an order with a recipient completed saves it and answers 500, where the order was intended |
| ImeiOrderController.UpdateOrderStatusEffect | backend/src/controllers/imei_order.controller.js:174-179 | the saved row is the found one with the new status and the result replaced iff given (a string stored as it is, otherwise serialised); nothing else changes |
| ImeiOrderController.UpdateOrderStatusIdempotent | backend/src/controllers/imei_order.controller.js:161-179 | repeating an update leaves the store as the first left it |
| ImeiOrderController.CompletionCharges | backend/src/controllers/imei_order.controller.js:178-179 | completing an order lowers its user's derived balance by its price |
| ImeiOrderController.UpdateOrderStatus | backend/src/controllers/imei_order.controller.js:161-208 | on the store: the reply's status, order and writes |
| ImeiOrderController.AdminEmail | backend/src/controllers/imei_order.controller.js:313-318 | `guest_email` (or "") for a guest-tier order, else the joined user's e-mail, else "" |
| ImeiOrderController.AdminList | backend/src/controllers/imei_order.controller.js:312-331 | one row per order, newest table row first |
| ImeiOrderController.AdminListDescending | backend/src/controllers/imei_order.controller.js:309 | over ascending ids the rows come by `order_id DESC` |
| ImeiOrderController.InsertKeepsAscending | backend/src/controllers/imei_order.controller.js:58-70 | inserting with the next id keeps ids ascending |
| ImeiOrderController.AdminListShowsBuyer | backend/src/controllers/imei_order.controller.js:313-318 | a placed order shows the guest's e-mail or the account's e-mail |
| UserController.NormalizeEmail | backend/src/controllers/user.controller.js:19 | no longer than the input, unpadded and lower-case in the ASCII sense |
| UserController.NormalizeEmailIdempotent | backend/src/controllers/user.controller.js:19 | normalising twice is normalising once |
| UserController.OrNull | backend/src/controllers/user.controller.js:35-46 | a truthy field is kept, anything else stored as NULL |
| UserController.RegisterReply | backend/src/controllers/user.controller.js:11-62 | 400 without username, e-mail or password; 409 when the normalised e-mail exists; 500 with no write when the username is taken or the e-mail fails `isEmail` (backend/src/models/user.js:11-21); otherwise the pending user is inserted and the answer is 201, or 500 when the mail fails |
| UserController.RegisterCreatesPending | backend/src/controllers/user.controller.js:35-46 | the new row is `pending`, unverified, with the code valid 24 hours, the normalised e-mail passing `isEmail`, the next id, and an e-mail and username no other row has |
| UserController.RegisterKeepsUnique | backend/src/models/user.js:11-21 | over a consistent table with unique ids, usernames and e-mails, `register` keeps all three unique |
| UserController.Register | backend/src/controllers/user.controller.js:11-62 | on the store: `RegisterReply`'s writes and status |
| UserController.LoginGate | backend/src/controllers/user.controller.js:65-116 | 200 iff known, verified and the password matches; 403 iff known and unverified; 401 iff unknown or wrong password; 200 carries the derived balance |
| UserController.LoginIgnoresStoredBalance | backend/src/controllers/user.controller.js:97-107 | the stored `balance` column does not change the login answer |
| UserController.VerifyEmailReply | backend/src/controllers/user.controller.js:384-418 | answers 200 or 400, and writes iff 200 |
| UserController.VerifyEmailSucceedsIff | backend/src/controllers/user.controller.js:391-411 | 200 iff the stored code matches and `now` is not past its expiry; then the user is verified, `registered`, and code and expiry cleared |
| UserController.VerifyEmailOnce | backend/src/controllers/user.controller.js:391-411 | after success a second verification of that e-mail fails with any code at any time |
| UserController.VerifyEmail | backend/src/controllers/user.controller.js:384-418 | on the store: the fields set one by one give `VerifyEmailReply`'s write |
| UserController.ResetRequestUniform | backend/src/controllers/user.controller.js:319-348 | known and unknown e-mails both get 200; only a known user gets a 15-minute reset code |
| UserController.RequestPasswordReset | backend/src/controllers/user.controller.js:319-348 | on the store: the reply's writes and status |
| UserController.ResetPasswordReply | backend/src/controllers/user.controller.js:351-381 | answers 200 or 400, and writes iff 200 |
| UserController.ResetPasswordSucceedsIff | backend/src/controllers/user.controller.js:359-374 | 200 iff the stored reset code matches and is unexpired; then the new hash is stored and the code cleared |
| UserController.ResetPasswordOnce | backend/src/controllers/user.controller.js:371-374 | a reset code works at most once |
| UserController.ResetPassword | backend/src/controllers/user.controller.js:351-381 | on the store: the reply's writes and status |
| UserController.RequestedEmail | backend/src/controllers/user.controller.js:423 | the body's e-mail if given, else the query's; empty iff neither |
| UserController.ResendUniform | backend/src/controllers/user.controller.js:421-453 | 400 without an e-mail; 200 and no write for an unknown one; 400 for a verified user; otherwise the new 24-hour code and 200, or 500 when the mail fails |
| UserController.ResendVerificationEmail | backend/src/controllers/user.controller.js:421-453 | on the store: the reply's writes and status |
| UserController.RegisterVerifyLogin | backend/src/controllers/user.controller.js:11-116 | right after registering, login answers 403; with the mailed code within 24 hours verification answers 200, and then login answers 200 |
| UserController.Patched | backend/src/controllers/user.controller.js:290-296 | each supplied field replaced (the e-mail normalised), every other field kept |
| UserController.EmptyPatchKeeps | backend/src/controllers/user.controller.js:290-296 | an empty body saves the user unchanged |
| UserController.UpdateUserReply | backend/src/controllers/user.controller.js:284-304 | 404 iff the id is unknown; else 500 with no write when a changed username or e-mail is held by another row or the changed e-mail fails `isEmail`, and otherwise the patched user saved with 200 |
| UserController.UpdateUserKeepsUnique | backend/src/models/user.js:11-21 | over a table with unique ids, usernames and e-mails, `updateUser` keeps all three unique |
| UserController.UpdateUser | backend/src/controllers/user.controller.js:284-304 | on the store: the step-by-step assignments give `Patched`, saved |
| UserController.UpdateTypeReply | backend/src/controllers/user.controller.js:244-260 | 400 without a type, 404 for an unknown id, else the type saved |
| UserController.UpdateTypeIsPatch | backend/src/controllers/user.controller.js:253-254 | setting a type is `updateUser` with that field alone |
| UserController.UpdateType | backend/src/controllers/user.controller.js:244-260 | on the store: the reply's writes and status |
| UserController.AdminUserList | backend/src/controllers/user.controller.js:185-235 | one row per user, newest table row first, with that user's totals |
| UserController.AdminUserListDescending | backend/src/controllers/user.controller.js:192 | over a table whose ids ascend, the user ids descend down the list |
| UserController.InsertKeepsUsersAscending | backend/src/controllers/user.controller.js:35 | inserting under the next id keeps the user ids ascending |
| UserController.NoActivityZeroRow | backend/src/controllers/user.controller.js:221-235 | a user without approved payments or completed orders gets zero counts and amounts |
| UserController.AdminTotalsVersusBalance | backend/src/controllers/user.controller.js:185-241 | when each approved payment credited what it charged, the admin payment total equals the balance's credit sum |
| UserController.UncreditedCountsOnlyInAdminTotal | backend/src/controllers/user.controller.js:185-241 | an uncredited approved payment raises the admin total by its amount and leaves the balance unchanged |
| ServiceController.Merge | backend/src/controllers/service.controller.js:108-110 | keeps `service_id`; each of the ten other fields takes the defined key's value and keeps the stored value when the key is absent |
| ServiceController.MergeLaws | backend/src/controllers/service.controller.js:108-110 | merging no keys keeps the row; merging the same keys twice is merging once |
| ServiceController.MergeOverlay | backend/src/controllers/service.controller.js:108-110 | two merges are one merge of both key sets, the later winning |
| ServiceController.GetService | backend/src/controllers/service.controller.js:16-25 | the row iff the id is stored, else 404 |
| ServiceController.UpdateServiceReply | backend/src/controllers/service.controller.js:64-76 | 404 for an unknown id, 500 when the save throws, else the merged row saved |
| ServiceController.DeleteServiceReply | backend/src/controllers/service.controller.js:79-91 | 404 for an unknown id, else the row removed |
| ServiceController.DeleteThen404 | backend/src/controllers/service.controller.js:19-82 | after a delete, delete, get and update of that id all answer 404 |
| ServiceController.BulkStep | backend/src/controllers/service.controller.js:101-117 | each entry adds exactly one to `updated + failed` and at most one error, counted as failed; keys and keying kept |
| ServiceController.BulkRun | backend/src/controllers/service.controller.js:100-117 | after n entries, `updated + failed == n` and `errors` no longer than `failed` |
| ServiceController.BulkUpdateReply | backend/src/controllers/service.controller.js:94-122 | a non-array body is 400 with no write; otherwise 200 with `updated + failed` equal to the entries and `errors.length <= failed` |
| ServiceController.BulkRunApplies | backend/src/controllers/service.controller.js:100-117 | the loop's table is what its saves give, and only the services table changes |
| ServiceController.BulkUntouched | backend/src/controllers/service.controller.js:101-117 | rows no entry names keep their values |
| ServiceController.BulkSingle | backend/src/controllers/service.controller.js:105-112 | a single known entry whose save returns is one update writing the row as `updateService` would |
| ServiceController.BulkSkipsUnknown | backend/src/controllers/service.controller.js:102-107 | an entry without id, with id 0 or unknown is one failure and no write |
| ServiceController.BulkSaveThrows | backend/src/controllers/service.controller.js:113-116 | a throwing save is one failure, one error and no write |
| ServiceController.BulkUpdate | backend/src/controllers/service.controller.js:94-122 | the loop on the store gives `BulkUpdateReply`'s answer and writes |
| Dashboard.FromIndex | backend/src/controllers/dashboard.controller.js:85 | `new Date(y, m, 1)` normalises any month index to a valid month with that index |
| Dashboard.NextMonth | backend/src/controllers/dashboard.controller.js:93 | `setMonth(+1)` gives the valid month with the next index |
| Dashboard.NatStr | backend/src/controllers/dashboard.controller.js:86 | a non-empty digit string with no leading zero, one or two digits below 100 |
| Dashboard.ParseNatStr | backend/src/controllers/dashboard.controller.js:86 | reading the digits back gives the number |
| Dashboard.Pad2 | backend/src/controllers/dashboard.controller.js:86 | `padStart(2, '0')` of a month gives two digits |
| Dashboard.Pad2Parse | backend/src/controllers/dashboard.controller.js:86 | the two digits read back as the month |
| Dashboard.YearStr | backend/src/controllers/dashboard.controller.js:86 | a year prints as at least one character |
| Dashboard.ParseYearStr | backend/src/controllers/dashboard.controller.js:86 | the printed year reads back as the year |
| Dashboard.LabelParts | backend/src/controllers/dashboard.controller.js:86 | a label is the year, `-`, and the two-digit month |
| Dashboard.ParseLabel | backend/src/controllers/dashboard.controller.js:92 | any text that reads back as a month reads back as a valid one |
| Dashboard.ParseLabelRoundTrip | backend/src/controllers/dashboard.controller.js:86-92 | reading a label back gives its month |
| Dashboard.LabelInjective | backend/src/controllers/dashboard.controller.js:109-114 | distinct months have distinct labels, so a label names one totals entry |
| Dashboard.Labels | backend/src/controllers/dashboard.controller.js:86-92 | one label per month, in order |
| Dashboard.Span | backend/src/controllers/dashboard.controller.js:84-94 | n consecutive valid months from the given index |
| Dashboard.DefaultAxis | backend/src/controllers/dashboard.controller.js:82-87 | twelve valid months |
| Dashboard.DefaultAxisShape | backend/src/controllers/dashboard.controller.js:82-87 | consecutive, ascending, ending at the current month and starting eleven months earlier |
| Dashboard.RangeAxis | backend/src/controllers/dashboard.controller.js:88-95 | one valid month per index from start through end, none when start is after end |
| Dashboard.RangeAxisShape | backend/src/controllers/dashboard.controller.js:72-95 | consecutive, empty iff start is after end, otherwise first the start and last the end |
| Dashboard.Axis | backend/src/controllers/dashboard.controller.js:82-95 | the default twelve unless both start and end are given, then the range |
| Dashboard.DefaultMonths | backend/src/controllers/dashboard.controller.js:83-87 | the `for` loop yields the labels of the default axis |
| Dashboard.RangeMonths | backend/src/controllers/dashboard.controller.js:89-94 | the `while` loop yields the labels of the range axis |
| Dashboard.TimelineMonths | backend/src/controllers/dashboard.controller.js:80-95 | `months` is the labels of `Axis` |
| Dashboard.ToMap | backend/src/controllers/dashboard.controller.js:109-112 | the keys are exactly the rows' labels |
| Dashboard.ToMapLookup | backend/src/controllers/dashboard.controller.js:109-112 | with one row per month, each row's total is found under its label |
| Dashboard.TotalsByMonth | backend/src/controllers/dashboard.controller.js:109-112 | the `forEach` builds `ToMap` of the rows |
| Dashboard.ZeroFill | backend/src/controllers/dashboard.controller.js:114 | one total per month: the map's value when present, else 0 |
| Dashboard.TimelineTotals | backend/src/controllers/dashboard.controller.js:109-114 | an axis month with a grouped row shows that row's total, one without shows 0 |
| Dashboard.StatusPartition | backend/src/controllers/dashboard.controller.js:19-22 | the four status counts add up to the total |
| Dashboard.OrderStatsOf | backend/src/controllers/dashboard.controller.js:17-27 | `total` is the orders; `completed`, `failed` and `pending` are the counts of those statuses; with partial orders they sum to `total`, without them exactly when no order is partial |
| Dashboard.NoPartial | backend/src/controllers/dashboard.controller.js:19-22 | the partial count is 0 iff no order is partial |
| Dashboard.UsageName | backend/src/controllers/dashboard.controller.js:57 | never empty; `Other` iff the name is NULL, empty or `Other`; a real name kept |
| Dashboard.ServicesUsage | backend/src/controllers/dashboard.controller.js:55-60 | one row per group, in order, with its name and count |
| Dashboard.OtherMerges | backend/src/controllers/dashboard.controller.js:57 | a NULL and an empty name both show as `Other` |

## Left out

- The Stripe SDK (`checkout.sessions.create`, `webhooks.constructEvent`). The signature check is a boolean input, sessions are the request the server would send, and events arrive as data.
- The HTTP calls to the IMEI verification API. Each call is an `ApiOutcome` input; JSON parsing errors count as transport errors.
- Mail templates, addresses and the transport. Only whether `sendMail` resolves or throws is modelled (`Mailer.Delivered`). The mailer in utils/mailer.js and `sendMailgunEmail` are not part of this model.
- bcrypt hashing and comparison, `jwt.sign`/`jwt.verify` and utils/jwt.js. Hashes are inputs, the comparison is a function input, and token verification is an oracle from token to user id. The 500 for an unset JWT secret in `login` is a boolean input.
- `Math.random` code generation. The codes are inputs.
- The `setTimeout` expiry of the HTML cache. Only insertion and take-once are modelled.
- Floating point. `Math.round(amount * 100)`, `Number()`/`parseFloat` coercions, NaN and DECIMAL rounding are not modelled; money is `real`.
- JavaScript `Date` parsing and time zones in the dashboard. Months are (year, month) pairs, and the end-of-month bound of `paymentsApprovedTimeline` is the end month itself.
- SQL aggregation and ordering.
  - The grouped timeline sums and the service-usage groups arrive as rows.
  - The `payments` list of the timeline, `quickStats` and `registeredUsersCount` are not modelled.
  - The sort of `servicesUsage` by count is not modelled.
- Concurrency. Two concurrent webhook deliveries can both pass the check-then-insert de-duplication; the model processes requests one at a time.
- `bulkCreateFromExcel` (XLSX parsing), `createService`, `getAllServices`, the other order and payment read handlers, and the country list.
- Express wiring, CORS, routes, database configuration, model associations, the migration and console logging.
- The contents of the verification e-mails and of the reset e-mails (subjects, links, HTML). Only whether the mail is delivered is modelled.
- The check-imei endpoint's fetch URL encoding and the `success: true` field of its reply.
- Text.ToLower: lower-cases ASCII letters only, where `toLowerCase` maps every Unicode letter; `UserController.NormalizeEmail` inherits this, so two e-mails differing only in a non-ASCII letter's case stay distinct in the model.
- Text.StripTags: its own contract states only bounds; what it removes is stated by `Text.StripTagsKeepsText`, `Text.StripTagsDropsTag` and `Text.StripTagsPlainText`.
- Text.CollapseSpaces: its own contract states only that no `>` appears; `Text.CollapseNoDoubleSpace` and `Text.CollapseSingleSpaced` state what it does.
- PaymentController.CleanImeiResult: its contract states the shape of the result; `PaymentController.CleanKeepsCleanText` states that clean text passes through unchanged.
- ImeiOrderController.ImeiListJson: its contract states only the brackets; the contents are stated by `ImeiOrderController.ImeiListRoundTrip` against a JSON array reader without escapes, which is all 15-digit entries need.
- Tables.ApiReply: the flag `success` stands for `apiData.success === true || apiData.status === 'success'` (backend/src/controllers/imei_order.controller.js:93-98); the two fields of the API's reply are not told apart.
- Tables.SaveAllowed: models the `unique` and `isEmail` constraints of the user table, with `isEmail` an oracle. Other user saves change neither column, and the other columns' type and NULL checks are not modelled; stored rows are taken to satisfy the constraints already.
- UserController.UserPatch: `balance` is `Option<real>`, so an explicit `null` balance in an `updateUser` body, which the source stores (backend/src/controllers/user.controller.js:293), is not modelled; every reader maps it to 0 with `Number(user.balance) || 0` (backend/src/controllers/payment.controller.js:290, 440, 519).
- Tables.Store.constructor: starts an empty store. It models no handler and has no row above.
- PaymentController.OutcomeWrites: states only that a save follows the API call. The exact writes are stated by `PaymentController.PurchaseEffect` and `PaymentController.OutcomeApplies`.

## Findings

| source | as written | input that shows it | evidently intended | confidence | as-written member | corrected member |
|---|---|---|---|---|---|---|
| backend/src/controllers/imei_order.controller.js:145-150 | the completion mail is sent with `type: null`, and `sendMail` throws for a type without a template (backend/src/utils/mailer.js:88-90); the order is already saved, and the handler answers 500 | a guest order for one valid IMEI of an active service whose API reply reports success | the order is e-mailed to its recipient and answered 201 with the per-IMEI results | not executed | ImeiOrderController.GuestOrderCounterexample | ImeiOrderController.CreateOrder |
| backend/src/utils/mailer.js:37 | the `order_result` template reads `order`, which is not declared in the mailer, so `sendMail` throws when `updateOrderStatus` sends it (imei_order.controller.js:191); the order is already saved, and the handler answers 500 | marking an existing order `completed` when it has a guest e-mail or a user with an e-mail | the result mail is sent and the updated order is answered | not executed | ImeiOrderController.CompletionFailsAsWritten | ImeiOrderController.UpdateOrderStatus |
