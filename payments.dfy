/**
 * The payment controller: the two Stripe checkout-session creators, the
 * Stripe webhook reconciler, manual payments, and the polling endpoint that
 * hands out a cached HTML result once.
 *
 * Stripe is replaced by its inputs (signature validity, the event) and by the
 * request it would be sent; the IMEI verification API by an `ApiOutcome`; the
 * mailer by an optional error message.
 */
module PaymentController {
  import opened Wrappers
  import opened Text
  import opened Tables
  import opened Balance

  // ------------------------------------------------------- string helpers

  /**
   * `cleanImeiResult(html)`: every `<br>` becomes a space, tags are removed,
   * whitespace runs shrink to one character and the ends are trimmed.
   */
  function CleanImeiResult(html: string): (r: string)
    ensures html == "" ==> r == ""
    ensures NoTag(r)
    ensures NoDoubleSpace(r)
    ensures Unpadded(r)
  {
    var r := Trim(CollapseSpaces(StripTags(ReplaceBreaks(html))));
    CleanSteps(html);
    r
  }

  /**
   * A text that is already clean comes back unchanged: with no '<', no two
   * adjacent white-space characters and no padding, none of the four steps
   * removes anything.
   */
  lemma CleanKeepsCleanText(t: string)
    requires forall k :: 0 <= k < |t| ==> t[k] != '<'
    requires NoDoubleSpace(t) && Unpadded(t)
    ensures CleanImeiResult(t) == t
  {
    ReplaceBreaksPlainText(t);
    StripTagsPlainText(t);
    CollapseSingleSpaced(t);
  }

  lemma CleanSteps(html: string)
    ensures var r := Trim(CollapseSpaces(StripTags(ReplaceBreaks(html))));
      && NoTag(r) && NoDoubleSpace(r) && (html == "" ==> r == "")
      && Unpadded(r)
  {
    var noTags := StripTags(ReplaceBreaks(html));
    var collapsed := CollapseSpaces(noTags);
    StripTagsTagFree(ReplaceBreaks(html));
    CollapseKeepsTagFree(noTags);
    CollapseNoDoubleSpace(noTags);
    TrimKeeps(collapsed);
    TagFreeHasNoTag(Trim(collapsed));
    if html == "" {
      assert ReplaceBreaks(html) == "";
      assert noTags == "";
      assert collapsed == "";
    }
  }

  /** `getFrontendUrl()`: fails when `FRONTEND_URL` is unset or empty, and drops one trailing "/". */
  function GetFrontendUrl(env: Option<string>): (r: Result<string, string>)
    ensures r.Err? <==> env.None? || env == Some("")
    ensures r.Ok? && env.value[|env.value| - 1] == '/' ==> r.value + "/" == env.value
    ensures r.Ok? && env.value[|env.value| - 1] != '/' ==> r.value == env.value
  {
    match env
    case None => Err("FRONTEND_URL no está definido en variables de entorno")
    case Some(url) =>
      if url == "" then Err("FRONTEND_URL no está definido en variables de entorno")
      else if url[|url| - 1] == '/' then Ok(url[..|url| - 1])
      else Ok(url)
  }

  /** Appending one "/" to a configured URL is undone, and only one "/" is removed. */
  lemma FrontendUrlSlash(url: string)
    requires url != ""
    ensures GetFrontendUrl(Some(url + "/")) == Ok(url)
    ensures url[|url| - 1] != '/' ==> GetFrontendUrl(Some(url)) == Ok(url)
    ensures GetFrontendUrl(Some(url + "//")) == Ok(url + "/")
  {
    assert (url + "/")[..|url|] == url;
    assert (url + "//")[..|url| + 1] == url + "/";
  }

  // ------------------------------------------------ Stripe session creation

  /** Stripe metadata strings, an absent or empty one as `None`. */
  datatype Metadata = Metadata(
    imei: Option<string>,
    serviceId: Option<int>,
    userId: Option<int>,
    userType: Option<string>,
    username: Option<string>,
    email: Option<string>,
    rechargeAmount: Option<real>,
    originalAmount: Option<real>)

  /** The checkout session the server asks Stripe to create (one line item of quantity 1). */
  datatype CheckoutRequest = CheckoutRequest(
    productName: string,
    description: Option<string>,
    currency: string,
    unitAmount: real,
    metadata: Metadata,
    successUrl: string,
    cancelUrl: string)

  datatype CheckoutReply = Rejected(status: int) | Created(request: CheckoutRequest)

  /** A JavaScript string as a metadata value: the empty string reads back as falsy. */
  function NonEmpty(s: string): (r: Option<string>)
    ensures r.Some? <==> s != ""
    ensures r.Some? ==> r.value == s
  {
    if s == "" then None else Some(s)
  }

  /**
   * `createStripeCheckoutSession` for the authenticated user `userId`:
   * a missing or non-positive amount gives 400, an unknown user 404, an
   * unset frontend URL 500.
   */
  function CreateStripeCheckoutSession(db: DbState, userId: int, amount: Option<real>, originalAmount: Option<real>,
                                       currency: Option<string>, frontendUrl: Option<string>): (r: CheckoutReply)
    ensures (amount.None? || amount.value <= 0.0) ==> r == Rejected(400)
    ensures amount.Some? && amount.value > 0.0 && FindUser(db.users, userId).None? ==> r == Rejected(404)
    ensures r.Created? <==> amount.Some? && amount.value > 0.0 && FindUser(db.users, userId).Some? && GetFrontendUrl(frontendUrl).Ok?
    ensures r.Created? ==>
      && r.request.unitAmount == amount.value
      && r.request.metadata.userId == Some(userId)
      && r.request.metadata.rechargeAmount == amount
      && r.request.metadata.originalAmount == Some(originalAmount.GetOr(amount.value))
      && r.request.metadata.imei.None?
  {
    if amount.None? || amount.value <= 0.0 then Rejected(400)
    else if FindUser(db.users, userId).None? then Rejected(404)
    else match GetFrontendUrl(frontendUrl)
      case Err(_) => Rejected(500)
      case Ok(base) =>
        Created(CheckoutRequest(
          "Recarga de saldo", None, currency.GetOr("usd"), amount.value,
          Metadata(None, None, Some(userId), None, None, None, amount, Some(originalAmount.GetOr(amount.value))),
          base + "/add-funds.html?funds=success&session_id={CHECKOUT_SESSION_ID}",
          base + "/add-funds.html?funds=cancel"))
  }

  /** The tier price a checkout charges: guests pay the guest price, every other tier the registered one. */
  function CheckoutPrice(svc: Service, userType: string): (price: real)
    ensures userType == "guest" ==> price == svc.priceGuest
    ensures userType != "guest" ==> price == svc.priceRegistered
  {
    if userType == "guest" then svc.priceGuest else svc.priceRegistered
  }

  /** The tier a checkout bills: the caller's, or `guest` without one. */
  function BuyerTier(caller: Option<User>): string {
    if caller.Some? then caller.value.userType else "guest"
  }

  /**
   * The request passes every 400 test of `createImeiStripeCheckoutSession`:
   * a 15-digit IMEI, a truthy service id naming a stored, active service,
   * and a positive price for the buyer's tier.
   */
  predicate ImeiCheckoutValid(db: DbState, caller: Option<User>, imei: Option<string>, serviceId: Option<int>) {
    && imei.Some? && IsImei(imei.value)
    && serviceId.Some? && serviceId.value != 0
    && serviceId.value in db.services && db.services[serviceId.value].active == Some(true)
    && CheckoutPrice(db.services[serviceId.value], BuyerTier(caller)) > 0.0
  }

  /**
   * `createImeiStripeCheckoutSession`: 400 unless the IMEI is 15 digits, the
   * service id truthy, the service known and active and the tier price
   * positive; 500 when `FRONTEND_URL` is unset; otherwise a session. Without
   * an authenticated caller the buyer is user 999 of tier `guest`.
   */
  function CreateImeiCheckoutSession(db: DbState, caller: Option<User>, imei: Option<string>, serviceId: Option<int>,
                                     guestEmail: Option<string>, frontendUrl: Option<string>): (r: CheckoutReply)
    ensures (imei.None? || !IsImei(imei.value)) ==> r == Rejected(400)
    ensures (serviceId.None? || serviceId.value == 0) ==> r == Rejected(400)
    ensures serviceId.Some? && (serviceId.value !in db.services || db.services[serviceId.value].active != Some(true))
            ==> r == Rejected(400)
    ensures serviceId.Some? && serviceId.value in db.services
            && CheckoutPrice(db.services[serviceId.value], BuyerTier(caller)) <= 0.0
            ==> r == Rejected(400)
    ensures !ImeiCheckoutValid(db, caller, imei, serviceId) ==> r == Rejected(400)
    ensures ImeiCheckoutValid(db, caller, imei, serviceId) && GetFrontendUrl(frontendUrl).Err? ==> r == Rejected(500)
    ensures r.Created? <==> ImeiCheckoutValid(db, caller, imei, serviceId) && GetFrontendUrl(frontendUrl).Ok?
    ensures r.Created? ==>
      && imei.Some? && IsImei(imei.value) && serviceId.Some? && serviceId.value in db.services
      && db.services[serviceId.value].active == Some(true)
      && r.request.metadata.imei == imei && r.request.metadata.serviceId == serviceId
      && r.request.unitAmount > 0.0
      && (caller.None? ==>
            && r.request.metadata.userId == Some(GuestUserId)
            && r.request.unitAmount == db.services[serviceId.value].priceGuest)
      && (caller.Some? ==>
            && r.request.metadata.userId == Some(caller.value.userId)
            && r.request.metadata.userType == NonEmpty(caller.value.userType)
            && r.request.unitAmount == CheckoutPrice(db.services[serviceId.value], caller.value.userType))
  {
    if imei.None? || !IsImei(imei.value) then Rejected(400)
    else if serviceId.None? || serviceId.value == 0 then Rejected(400)
    else if serviceId.value !in db.services || db.services[serviceId.value].active != Some(true) then Rejected(400)
    else
      var svc := db.services[serviceId.value];
      var userId := if caller.Some? then caller.value.userId else GuestUserId;
      var userType := if caller.Some? then caller.value.userType else "guest";
      var username := if caller.Some? then caller.value.username else "guest";
      var email := if caller.Some? then NonEmpty(caller.value.email) else guestEmail;
      var price := CheckoutPrice(svc, userType);
      if price <= 0.0 then Rejected(400)
      else match GetFrontendUrl(frontendUrl)
        case Err(_) => Rejected(500)
        case Ok(base) =>
          Created(CheckoutRequest(
            "IMEI Check: " + imei.value, Some(svc.name), "usd", price,
            Metadata(imei, serviceId, Some(userId), NonEmpty(userType), NonEmpty(username), email, None, None),
            base + "/imei-check-guest.html?payment=success&session_id={CHECKOUT_SESSION_ID}",
            base + "/imei-check-guest.html?payment=cancel"))
  }

  // ---------------------------------------------------------- the webhook

  datatype CheckoutSession = CheckoutSession(
    id: string,
    metadata: Metadata,
    paymentIntent: Option<string>,
    clientReferenceId: Option<string>,
    amountTotal: int,
    currency: Option<string>)

  datatype PaymentIntent = PaymentIntent(
    id: string,
    metadata: Metadata,
    currency: Option<string>,
    clientReferenceId: Option<string>,
    amountReceived: int)

  /** A verified Stripe event, by its `type`. */
  datatype Event =
    | CheckoutCompleted(session: CheckoutSession)   // checkout.session.completed
    | IntentSucceeded(intent: PaymentIntent)        // payment_intent.succeeded
    | OtherEvent(kind: string)

  /** The writes a webhook delivery makes and its HTTP status. */
  datatype WebhookReply = WebhookReply(writes: seq<Write>, status: int)

  /** What the two IMEI-purchase branches take from the event. */
  datatype Purchase = Purchase(
    imei: string,
    serviceId: int,
    userId: int,
    userType: string,
    guestEmail: Option<string>,
    currency: string,
    ipAddress: Option<string>,
    intentId: Option<string>,
    sessionId: Option<string>,
    reference: string,
    cacheKey: Option<string>)

  /** What the two top-up branches and a manual payment credit. */
  datatype TopUp = TopUp(
    userId: int,
    amount: real,
    credited: real,
    currency: string,
    paymentMethod: string,
    reference: string,
    intentId: Option<string>,
    sessionId: Option<string>)

  /** Whether metadata names an IMEI purchase (`metadata.imei && metadata.service_id`). */
  predicate IsPurchase(md: Metadata) {
    md.imei.Some? && md.serviceId.Some?
  }

  function CheckoutPurchase(s: CheckoutSession): Purchase
    requires IsPurchase(s.metadata)
  {
    var md := s.metadata;
    Purchase(md.imei.value, md.serviceId.value, md.userId.GetOr(GuestUserId), md.userType.GetOr("guest"),
             md.email, "usd", s.clientReferenceId, s.paymentIntent, Some(s.id), "stripe_checkout_imei",
             if s.id != "" then Some(s.id) else None)
  }

  function IntentPurchase(pi: PaymentIntent): Purchase
    requires IsPurchase(pi.metadata)
  {
    var md := pi.metadata;
    Purchase(md.imei.value, md.serviceId.value, md.userId.GetOr(GuestUserId), md.userType.GetOr("guest"),
             md.email, pi.currency.GetOr("usd"), pi.clientReferenceId, Some(pi.id), None,
             "stripe_payment_intent_imei", None)
  }

  /** The charged amount is `recharge_amount`, else the total in cents / 100; the credit is `original_amount`, else the amount. */
  function TopUpAmounts(md: Metadata, cents: int): (r: (real, real))
    ensures r.0 == if md.rechargeAmount.Some? then md.rechargeAmount.value else cents as real / 100.0
    ensures r.1 == if md.originalAmount.Some? then md.originalAmount.value else r.0
  {
    var amount := md.rechargeAmount.GetOr(cents as real / 100.0);
    (amount, md.originalAmount.GetOr(amount))
  }

  function CheckoutTopUp(s: CheckoutSession): TopUp
    requires s.metadata.userId.Some?
  {
    var (amount, credited) := TopUpAmounts(s.metadata, s.amountTotal);
    TopUp(s.metadata.userId.value, amount, credited, s.currency.GetOr("usd"), "stripe", "stripe_checkout", None, Some(s.id))
  }

  function IntentTopUp(pi: PaymentIntent): TopUp
    requires pi.metadata.userId.Some?
  {
    var (amount, credited) := TopUpAmounts(pi.metadata, pi.amountReceived);
    TopUp(pi.metadata.userId.value, amount, credited, pi.currency.GetOr("usd"), "stripe", "stripe_payment_intent", Some(pi.id), None)
  }

  /** What a reply's `result` becomes in the order's TEXT column. */
  function StoredResult(res: ApiResult): (r: Option<Payload>)
    ensures res.TextResult? ==> r == Some(Text(CleanImeiResult(res.text)))
    ensures res.ObjectResult? ==> r == Some(Serialized(res.json))
    ensures res.Null? ==> r == Some(Serialized("null"))
    ensures res.Absent? ==> r.None?
  {
    match res
    case TextResult(t) => Some(Text(CleanImeiResult(t)))
    case ObjectResult(j) => Some(Serialized(j))
    case Null => Some(Serialized("null"))
    case Absent => None
  }

  /** The status the API outcome gives an order: completed on a successful reply, failed otherwise. */
  function ApiStatus(api: ApiOutcome): (st: OrderStatus)
    ensures st == Completed <==> api.Replied? && api.reply.success
    ensures st == Failed <==> !(api.Replied? && api.reply.success)
  {
    if api.Replied? then ReplyStatus(api.reply) else Failed
  }

  /** The result the API outcome gives an order; a thrown error gives the error payload. */
  function ApiPayload(api: ApiOutcome): Option<Payload> {
    match api
    case Replied(reply) => StoredResult(reply.result)
    case TransportError(d) => Some(ApiError(d))
  }

  /** The guest mail is attempted after a successful reply with a truthy result, when an e-mail is known. */
  predicate GuestMailed(pu: Purchase, api: ApiOutcome) {
    pu.guestEmail.Some? && api.Replied? && api.reply.success && api.reply.result.Truthy()
  }

  /** Whether the reply's HTML is cached: a session id and a truthy result. */
  predicate Cached(pu: Purchase, api: ApiOutcome) {
    api.Replied? && pu.cacheKey.Some? && api.reply.result.Truthy()
  }

  /** The pending order row an IMEI purchase inserts, with the price of the buyer's tier. */
  function PendingOrder(db: DbState, pu: Purchase): Order
    requires pu.serviceId in db.services
  {
    var svc := db.services[pu.serviceId];
    Order(db.nextOrderId, pu.userId, pu.imei, pu.serviceId, Pending, None, pu.guestEmail,
          CheckoutPrice(svc, pu.userType), pu.userType, svc.name, pu.currency, pu.ipAddress, pu.intentId)
  }

  /** The approved payment row an IMEI purchase inserts: linked to the order, with no credited amount. */
  function PurchasePayment(db: DbState, pu: Purchase): Payment
    requires pu.serviceId in db.services
  {
    var order := PendingOrder(db, pu);
    Payment(db.nextPaymentId, Some(order.orderId), pu.userId, order.priceUsed, None, pu.currency, "approved",
            "stripe", pu.reference, pu.intentId, pu.sessionId, None, None)
  }

  /** An order row as the API outcome leaves it. */
  function Checked(order: Order, api: ApiOutcome): Order {
    order.(result := ApiPayload(api), status := ApiStatus(api))
  }

  /** An order row after the outcome and the guest mail: the checked one, or a failed one when the mail fails. */
  function Final(order: Order, pu: Purchase, api: ApiOutcome, mailError: Option<string>): Order {
    if GuestMailed(pu, api) && mailError.Some?
    then Checked(order, api).(status := Failed, result := Some(ApiError(mailError.value)))
    else Checked(order, api)
  }

  /**
   * The writes after the API call: the order saved with the outcome; the
   * HTML result cached under the session id; and, when the guest mail
   * fails, the order saved again as failed with the mailer's error (the
   * same catch as an API error).
   */
  function OutcomeWrites(order: Order, pu: Purchase, api: ApiOutcome, mailError: Option<string>): (ws: seq<Write>)
    ensures |ws| >= 1
  {
    var cache := if Cached(pu, api) then [CacheResult(pu.cacheKey.value, api.reply.result)] else [];
    var mail := if GuestMailed(pu, api) && mailError.Some? then [SaveOrder(Final(order, pu, api, mailError))] else [];
    [SaveOrder(Checked(order, api))] + cache + mail
  }

  /** The order row an IMEI purchase leaves in the table. */
  function FinalOrder(db: DbState, pu: Purchase, api: ApiOutcome, mailError: Option<string>): Order
    requires pu.serviceId in db.services
  {
    Final(PendingOrder(db, pu), pu, api, mailError)
  }

  /** The writes of an IMEI purchase: the pending order, then its payment, then the outcome. */
  function PurchaseWrites(db: DbState, pu: Purchase, api: ApiOutcome, mailError: Option<string>): (ws: seq<Write>)
    requires pu.serviceId in db.services
    ensures |ws| >= 3
  {
    [InsertOrder(PendingOrder(db, pu)), InsertPayment(PurchasePayment(db, pu))] + OutcomeWrites(PendingOrder(db, pu), pu, api, mailError)
  }

  /** The payment a credit records, with the stored balance before and after. */
  function CreditPayment(db: DbState, k: nat, tu: TopUp): Payment
    requires k < |db.users|
  {
    var before := db.users[k].balance;
    Payment(db.nextPaymentId, None, db.users[k].userId, tu.amount, Some(tu.credited), tu.currency, "approved",
            tu.paymentMethod, tu.reference, tu.intentId, tu.sessionId, Some(before), Some(before + tu.credited))
  }

  /** The writes of a credit to user row `k`: the stored balance raised, then the payment. */
  function CreditWrites(db: DbState, k: nat, tu: TopUp): (ws: seq<Write>)
    requires k < |db.users|
    ensures |ws| == 2
  {
    [ SaveUser(db.users[k].(balance := db.users[k].balance + tu.credited)), InsertPayment(CreditPayment(db, k, tu)) ]
  }

  /** `checkout.session.completed`: IMEI purchase or top-up, each de-duplicated by checkout-session id. */
  function CheckoutWrites(db: DbState, s: CheckoutSession, api: ApiOutcome, mailError: Option<string>): seq<Write> {
    var md := s.metadata;
    if IsPurchase(md) then
      if HasSessionPayment(db.payments, s.id) || md.serviceId.value !in db.services then []
      else PurchaseWrites(db, CheckoutPurchase(s), api, mailError)
    else if md.userId.Some? then
      match FindUser(db.users, md.userId.value)
      case None => []
      case Some(k) => if HasSessionPayment(db.payments, s.id) then [] else CreditWrites(db, k, CheckoutTopUp(s))
    else []
  }

  /**
   * `payment_intent.succeeded`: de-duplicated by payment-intent id first.
   * The last branch creates a payment without `user_id`, which the NOT NULL
   * column refuses; the error is logged and nothing is written.
   */
  function IntentWrites(db: DbState, pi: PaymentIntent, api: ApiOutcome, mailError: Option<string>): seq<Write> {
    var md := pi.metadata;
    if HasIntentPayment(db.payments, pi.id) then []
    else if IsPurchase(md) then
      if md.serviceId.value !in db.services then []
      else PurchaseWrites(db, IntentPurchase(pi), api, mailError)
    else if md.userId.Some? then
      match FindUser(db.users, md.userId.value)
      case None => []
      case Some(k) => CreditWrites(db, k, IntentTopUp(pi))
    else []
  }

  /** `stripeWebhook`: a bad signature gives 400, anything else 200; other event types change nothing. */
  function Webhook(db: DbState, signatureValid: bool, ev: Event, api: ApiOutcome, mailError: Option<string>): (r: WebhookReply)
    ensures !signatureValid ==> r == WebhookReply([], 400)
    ensures signatureValid ==> r.status == 200
    ensures ev.OtherEvent? ==> r.writes == []
  {
    if !signatureValid then WebhookReply([], 400)
    else match ev
      case CheckoutCompleted(s) => WebhookReply(CheckoutWrites(db, s, api, mailError), 200)
      case IntentSucceeded(pi) => WebhookReply(IntentWrites(db, pi, api, mailError), 200)
      case OtherEvent(_) => WebhookReply([], 200)
  }

  // ------------------------------------------ properties of the webhook

  /** A saved order, then at most one cached result, then at most one more saved order: only orders and cache change. */
  lemma SaveCacheSaveKeeps(d: DbState, o: Order, c: seq<Write>, m: seq<Write>)
    requires c == [] || (|c| == 1 && c[0].CacheResult?)
    requires m == [] || (|m| == 1 && m[0].SaveOrder?)
    ensures var after := Apply(d, [SaveOrder(o)] + c + m);
      && after.users == d.users && after.services == d.services && after.payments == d.payments
      && after.nextUserId == d.nextUserId && after.nextOrderId == d.nextOrderId
      && after.nextPaymentId == d.nextPaymentId
      && after.cache == (if c == [] then d.cache else d.cache[c[0].key := c[0].html])
  {
    ApplyConcat(d, [SaveOrder(o)] + c, m);
    ApplyConcat(d, [SaveOrder(o)], c);
    ApplySingle(d, SaveOrder(o));
    var d1 := Apply1(d, SaveOrder(o));
    if c != [] {
      assert c == [c[0]];
      ApplySingle(d1, c[0]);
    }
    var d2 := Apply(d1, c);
    if m != [] {
      assert m == [m[0]];
      ApplySingle(d2, m[0]);
    }
  }

  /** The same writes on a table ending in the row being saved leave the last saved value there. */
  lemma SaveCacheSaveOrders(d: DbState, base: seq<Order>, o0: Order, o: Order, c: seq<Write>, m: seq<Write>)
    requires d.orders == base + [o0] && o0.orderId == o.orderId
    requires forall i :: 0 <= i < |base| ==> base[i].orderId != o.orderId
    requires c == [] || (|c| == 1 && c[0].CacheResult?)
    requires m == [] || (|m| == 1 && m[0].SaveOrder? && m[0].order.orderId == o.orderId)
    ensures Apply(d, [SaveOrder(o)] + c + m).orders == base + [if m == [] then o else m[0].order]
  {
    ApplyConcat(d, [SaveOrder(o)] + c, m);
    ApplyConcat(d, [SaveOrder(o)], c);
    ApplySingle(d, SaveOrder(o));
    ReplaceOrderFresh(base, o0, o);
    var d1 := Apply1(d, SaveOrder(o));
    assert d1.orders == base + [o];
    if c != [] {
      assert c == [c[0]];
      ApplySingle(d1, c[0]);
    }
    var d2 := Apply(d1, c);
    assert d2.orders == base + [o];
    if m != [] {
      assert m == [m[0]];
      ApplySingle(d2, m[0]);
      ReplaceOrderFresh(base, o, m[0].order);
    }
  }

  /** The writes after the API call touch only the orders and the cache. */
  lemma OutcomeApplies(d: DbState, order: Order, pu: Purchase, api: ApiOutcome, mailError: Option<string>)
    ensures var after := Apply(d, OutcomeWrites(order, pu, api, mailError));
      && after.users == d.users && after.services == d.services && after.payments == d.payments
      && after.nextUserId == d.nextUserId && after.nextOrderId == d.nextOrderId
      && after.nextPaymentId == d.nextPaymentId
      && after.cache == (if Cached(pu, api) then d.cache[pu.cacheKey.value := api.reply.result] else d.cache)
  {
    var cache := if Cached(pu, api) then [CacheResult(pu.cacheKey.value, api.reply.result)] else [];
    var mail := if GuestMailed(pu, api) && mailError.Some? then [SaveOrder(Final(order, pu, api, mailError))] else [];
    assert OutcomeWrites(order, pu, api, mailError) == [SaveOrder(Checked(order, api))] + cache + mail;
    SaveCacheSaveKeeps(d, Checked(order, api), cache, mail);
  }

  /** On a table ending in the order's own pending row, the writes after the API call leave the final row there. */
  lemma OutcomeOrders(d: DbState, base: seq<Order>, order: Order, pu: Purchase, api: ApiOutcome,
                      mailError: Option<string>)
    requires d.orders == base + [order]
    requires forall i :: 0 <= i < |base| ==> base[i].orderId != order.orderId
    ensures Apply(d, OutcomeWrites(order, pu, api, mailError)).orders == base + [Final(order, pu, api, mailError)]
  {
    var cache := if Cached(pu, api) then [CacheResult(pu.cacheKey.value, api.reply.result)] else [];
    var mail := if GuestMailed(pu, api) && mailError.Some? then [SaveOrder(Final(order, pu, api, mailError))] else [];
    assert OutcomeWrites(order, pu, api, mailError) == [SaveOrder(Checked(order, api))] + cache + mail;
    SaveCacheSaveOrders(d, base, order, Checked(order, api), cache, mail);
  }

  /** The store after the two inserts an IMEI purchase opens with. */
  lemma PurchaseInserts(db: DbState, pu: Purchase)
    requires pu.serviceId in db.services
    ensures var d1 := Apply(db, [InsertOrder(PendingOrder(db, pu)), InsertPayment(PurchasePayment(db, pu))]);
      && d1.orders == db.orders + [PendingOrder(db, pu)]
      && d1.payments == db.payments + [PurchasePayment(db, pu)]
      && d1.users == db.users && d1.services == db.services && d1.cache == db.cache
      && d1.nextUserId == db.nextUserId && d1.nextOrderId == db.nextOrderId + 1
      && d1.nextPaymentId == db.nextPaymentId + 1
  {
    ApplyPair(db, InsertOrder(PendingOrder(db, pu)), InsertPayment(PurchasePayment(db, pu)));
  }

  /** The store after an IMEI purchase. */
  lemma PurchaseApplies(db: DbState, pu: Purchase, api: ApiOutcome, mailError: Option<string>)
    requires pu.serviceId in db.services
    ensures var after := Apply(db, PurchaseWrites(db, pu, api, mailError));
      && after.payments == db.payments + [PurchasePayment(db, pu)]
      && after.users == db.users
      && after.services == db.services
      && after.cache == (if Cached(pu, api) then db.cache[pu.cacheKey.value := api.reply.result] else db.cache)
      && after.nextUserId == db.nextUserId
      && after.nextOrderId == db.nextOrderId + 1
      && after.nextPaymentId == db.nextPaymentId + 1
      && (Consistent(db) ==> after.orders == db.orders + [FinalOrder(db, pu, api, mailError)])
  {
    var pending := PendingOrder(db, pu);
    var pay := PurchasePayment(db, pu);
    var outcome := OutcomeWrites(pending, pu, api, mailError);
    assert PurchaseWrites(db, pu, api, mailError) == [InsertOrder(pending), InsertPayment(pay)] + outcome;
    ApplyConcat(db, [InsertOrder(pending), InsertPayment(pay)], outcome);
    PurchaseInserts(db, pu);
    var d1 := Apply(db, [InsertOrder(pending), InsertPayment(pay)]);
    OutcomeApplies(d1, pending, pu, api, mailError);
    if Consistent(db) {
      OutcomeOrders(d1, db.orders, pending, pu, api, mailError);
    }
  }

  /**
   * An IMEI purchase appends exactly one order row, the final one, and
   * exactly one payment row, linked to that order, approved, with the
   * order's price and no credited amount. The final status is `completed`
   * iff the API reported success (and the guest mail, if attempted, was
   * sent); it is never `partial`.
   */
  lemma PurchaseEffect(db: DbState, pu: Purchase, api: ApiOutcome, mailError: Option<string>)
    requires Consistent(db) && pu.serviceId in db.services
    ensures var after := Apply(db, PurchaseWrites(db, pu, api, mailError));
      var o := FinalOrder(db, pu, api, mailError);
      var p := PurchasePayment(db, pu);
      && after.orders == db.orders + [o]
      && after.payments == db.payments + [p]
      && o.orderId == db.nextOrderId && o.userId == pu.userId && o.imei == pu.imei
      && o.priceUsed == CheckoutPrice(db.services[pu.serviceId], pu.userType)
      && p.orderId == Some(o.orderId) && p.status == "approved"
      && p.amount == o.priceUsed && p.creditedAmount.None?
      && (o.status == Completed <==> api.Replied? && api.reply.success && !(GuestMailed(pu, api) && mailError.Some?))
      && o.status != Partial && o.status != Pending
  {
    PurchaseApplies(db, pu, api, mailError);
  }

  /**
   * A Stripe-paid IMEI order of a registered buyer lowers that buyer's
   * derived balance by the order's price once it completes, because its
   * payment carries no credited amount; a failed one leaves it unchanged.
   */
  lemma PurchaseChargesBuyer(db: DbState, pu: Purchase, api: ApiOutcome, mailError: Option<string>)
    requires Consistent(db) && pu.serviceId in db.services
    ensures var after := Apply(db, PurchaseWrites(db, pu, api, mailError));
      var o := FinalOrder(db, pu, api, mailError);
      UserBalance(after.payments, after.orders, pu.userId)
        == UserBalance(db.payments, db.orders, pu.userId) - (if o.status == Completed then o.priceUsed else 0.0)
  {
    PurchaseApplies(db, pu, api, mailError);
    UncreditedPurchase(db.payments, db.orders, PurchasePayment(db, pu), FinalOrder(db, pu, api, mailError), pu.userId);
  }

  /**
   * A credit records `balance_after = balance_before + credited`, raises the
   * stored balance and the derived balance of the user by exactly the
   * credit, and leaves the orders alone.
   */
  lemma CreditEffect(db: DbState, k: nat, tu: TopUp)
    requires k < |db.users|
    ensures var after := Apply(db, CreditWrites(db, k, tu));
      var p := CreditPayment(db, k, tu);
      var uid := db.users[k].userId;
      && after == db.(users := ReplaceUser(db.users, db.users[k].(balance := db.users[k].balance + tu.credited)),
                      payments := db.payments + [p], nextPaymentId := db.nextPaymentId + 1)
      && p.userId == uid && p.status == "approved" && p.amount == tu.amount && p.creditedAmount == Some(tu.credited)
      && p.balanceBefore == Some(db.users[k].balance)
      && p.balanceAfter == Some(db.users[k].balance + tu.credited)
      && after.users[k].balance == db.users[k].balance + tu.credited
      && (forall i :: 0 <= i < |db.users| ==> after.users[i].userId == db.users[i].userId)
      && UserBalance(after.payments, after.orders, uid) == UserBalance(db.payments, db.orders, uid) + tu.credited
  {
    var ws := CreditWrites(db, k, tu);
    ApplyPair(db, ws[0], ws[1]);
    assert ws == [ws[0], ws[1]];
    ApprovedPaymentRaises(db.payments, db.orders, CreditPayment(db, k, tu), db.users[k].userId, tu.credited);
  }

  /** The amounts a checkout top-up credits. */
  lemma CheckoutTopUpAmounts(s: CheckoutSession)
    requires s.metadata.userId.Some?
    ensures CheckoutTopUp(s).amount == s.metadata.rechargeAmount.GetOr(s.amountTotal as real / 100.0)
    ensures CheckoutTopUp(s).credited == s.metadata.originalAmount.GetOr(CheckoutTopUp(s).amount)
    ensures CheckoutTopUp(s).sessionId == Some(s.id)
  {
  }

  /**
   * A webhook delivery that writes anything appends exactly one payment,
   * carrying the key it de-duplicates by, and keeps every user row's id.
   */
  lemma WebhookPayment(db: DbState, ev: Event, api: ApiOutcome, mailError: Option<string>)
    ensures var ws := Webhook(db, true, ev, api, mailError).writes;
      var after := Apply(db, ws);
      ws == [] || (
        && |after.payments| == |db.payments| + 1
        && after.payments[..|db.payments|] == db.payments
        && (ev.CheckoutCompleted? ==> after.payments[|db.payments|].sessionId == Some(ev.session.id))
        && (ev.IntentSucceeded? ==> after.payments[|db.payments|].intentId == Some(ev.intent.id))
        && |after.users| == |db.users|
        && (forall i :: 0 <= i < |db.users| ==> after.users[i].userId == db.users[i].userId))
  {
    var ws := Webhook(db, true, ev, api, mailError).writes;
    if ws != [] {
      match ev {
        case CheckoutCompleted(s) =>
          if IsPurchase(s.metadata) {
            PurchaseApplies(db, CheckoutPurchase(s), api, mailError);
          } else {
            CreditEffect(db, FindUser(db.users, s.metadata.userId.value).value, CheckoutTopUp(s));
          }
        case IntentSucceeded(pi) =>
          if IsPurchase(pi.metadata) {
            PurchaseApplies(db, IntentPurchase(pi), api, mailError);
          } else {
            CreditEffect(db, FindUser(db.users, pi.metadata.userId.value).value, IntentTopUp(pi));
          }
      }
    }
  }

  /**
   * Redelivering an event changes nothing: after the first delivery, the
   * same event (with any API outcome and mail result) writes nothing, since
   * the payment it recorded now matches the session or intent id.
   */
  lemma WebhookIdempotent(db: DbState, ev: Event, api1: ApiOutcome, mail1: Option<string>,
                          api2: ApiOutcome, mail2: Option<string>)
    ensures var first := Webhook(db, true, ev, api1, mail1);
      Webhook(Apply(db, first.writes), true, ev, api2, mail2).writes == []
  {
    var ws := Webhook(db, true, ev, api1, mail1).writes;
    var after := Apply(db, ws);
    WebhookPayment(db, ev, api1, mail1);
    if ws != [] {
      if ev.CheckoutCompleted? {
        assert after.payments[|db.payments|].sessionId == Some(ev.session.id);
        assert HasSessionPayment(after.payments, ev.session.id);
      } else if ev.IntentSucceeded? {
        assert after.payments[|db.payments|].intentId == Some(ev.intent.id);
        assert HasIntentPayment(after.payments, ev.intent.id);
      }
    }
  }

  lemma {:induction false} SessionCountAppend(ps: seq<Payment>, p: Payment, sid: string)
    ensures SessionCount(ps + [p], sid) == SessionCount(ps, sid) + (if p.sessionId == Some(sid) then 1 else 0)
  {
    if ps != [] {
      assert (ps + [p])[1..] == ps[1..] + [p];
      SessionCountAppend(ps[1..], p, sid);
    }
  }

  /** A first delivery of a checkout event leaves one payment with the session id iff it writes anything. */
  lemma CheckoutSessionCount(db: DbState, s: CheckoutSession, api: ApiOutcome, mailError: Option<string>)
    requires !HasSessionPayment(db.payments, s.id)
    ensures var first := Webhook(db, true, CheckoutCompleted(s), api, mailError).writes;
      SessionCount(Apply(db, first).payments, s.id) == (if first == [] then 0 else 1)
  {
    var ev := CheckoutCompleted(s);
    var first := Webhook(db, true, ev, api, mailError).writes;
    var d1 := Apply(db, first);
    if first == [] {
      assert d1 == db;
    } else {
      WebhookPayment(db, ev, api, mailError);
      assert d1.payments == db.payments + [d1.payments[|db.payments|]];
      SessionCountAppend(db.payments, d1.payments[|db.payments|], s.id);
    }
  }

  /** A first delivery of a checkout event adds one order iff it is an IMEI purchase that writes anything. */
  lemma CheckoutOrderCount(db: DbState, s: CheckoutSession, api: ApiOutcome, mailError: Option<string>)
    requires Consistent(db)
    ensures var first := Webhook(db, true, CheckoutCompleted(s), api, mailError).writes;
      |Apply(db, first).orders| == |db.orders| + (if first != [] && IsPurchase(s.metadata) then 1 else 0)
  {
    var first := Webhook(db, true, CheckoutCompleted(s), api, mailError).writes;
    if first == [] {
      assert Apply(db, first) == db;
    } else if IsPurchase(s.metadata) {
      PurchaseApplies(db, CheckoutPurchase(s), api, mailError);
    } else {
      CreditEffect(db, FindUser(db.users, s.metadata.userId.value).value, CheckoutTopUp(s));
    }
  }

  /**
   * Processing the same `checkout.session.completed` event twice leaves
   * exactly one payment with that session id if the first delivery wrote
   * anything, and for an IMEI purchase exactly one new order.
   */
  lemma CheckoutTwice(db: DbState, s: CheckoutSession, api1: ApiOutcome, mail1: Option<string>,
                      api2: ApiOutcome, mail2: Option<string>)
    requires Consistent(db)
    requires !HasSessionPayment(db.payments, s.id)
    ensures var first := Webhook(db, true, CheckoutCompleted(s), api1, mail1).writes;
      var d1 := Apply(db, first);
      var d2 := Apply(d1, Webhook(d1, true, CheckoutCompleted(s), api2, mail2).writes);
      && SessionCount(d2.payments, s.id) == (if first == [] then 0 else 1)
      && |d2.orders| == |db.orders| + (if first != [] && IsPurchase(s.metadata) then 1 else 0)
  {
    var ev := CheckoutCompleted(s);
    var d1 := Apply(db, Webhook(db, true, ev, api1, mail1).writes);
    WebhookIdempotent(db, ev, api1, mail1, api2, mail2);
    assert Apply(d1, []) == d1;
    CheckoutSessionCount(db, s, api1, mail1);
    CheckoutOrderCount(db, s, api1, mail1);
  }

  /** An IMEI checkout records its payment intent, so a later `payment_intent.succeeded` for it writes nothing. */
  lemma CheckoutThenIntent(db: DbState, s: CheckoutSession, pi: PaymentIntent, api1: ApiOutcome, mail1: Option<string>,
                           api2: ApiOutcome, mail2: Option<string>)
    requires IsPurchase(s.metadata) && s.paymentIntent == Some(pi.id)
    requires CheckoutWrites(db, s, api1, mail1) != []
    ensures var d1 := Apply(db, Webhook(db, true, CheckoutCompleted(s), api1, mail1).writes);
      Webhook(d1, true, IntentSucceeded(pi), api2, mail2).writes == []
  {
    PurchaseApplies(db, CheckoutPurchase(s), api1, mail1);
    var d1 := Apply(db, CheckoutWrites(db, s, api1, mail1));
    assert d1.payments[|db.payments|].intentId == Some(pi.id);
  }

  /** An IMEI purchase keeps auto-increment ids fresh. */
  lemma PurchaseConsistent(db: DbState, pu: Purchase, api: ApiOutcome, mailError: Option<string>)
    requires Consistent(db) && pu.serviceId in db.services
    ensures Consistent(Apply(db, PurchaseWrites(db, pu, api, mailError)))
  {
    PurchaseApplies(db, pu, api, mailError);
    var after := Apply(db, PurchaseWrites(db, pu, api, mailError));
    assert after.orders[|db.orders|].orderId == db.nextOrderId;
    assert after.payments[|db.payments|].paymentId == db.nextPaymentId;
  }

  /** A credit keeps auto-increment ids fresh. */
  lemma CreditConsistent(db: DbState, k: nat, tu: TopUp)
    requires Consistent(db) && k < |db.users|
    ensures Consistent(Apply(db, CreditWrites(db, k, tu)))
  {
    CreditEffect(db, k, tu);
    var after := Apply(db, CreditWrites(db, k, tu));
    assert after.payments[|db.payments|].paymentId == db.nextPaymentId;
  }

  /** Every webhook delivery keeps auto-increment ids fresh. */
  lemma WebhookConsistent(db: DbState, signatureValid: bool, ev: Event, api: ApiOutcome, mailError: Option<string>)
    requires Consistent(db)
    ensures Consistent(Apply(db, Webhook(db, signatureValid, ev, api, mailError).writes))
  {
    var ws := Webhook(db, signatureValid, ev, api, mailError).writes;
    if ws == [] {
      assert Apply(db, ws) == db;
    } else {
      match ev {
        case CheckoutCompleted(s) =>
          if IsPurchase(s.metadata) {
            PurchaseConsistent(db, CheckoutPurchase(s), api, mailError);
          } else {
            CreditConsistent(db, FindUser(db.users, s.metadata.userId.value).value, CheckoutTopUp(s));
          }
        case IntentSucceeded(pi) =>
          if IsPurchase(pi.metadata) {
            PurchaseConsistent(db, IntentPurchase(pi), api, mailError);
          } else {
            CreditConsistent(db, FindUser(db.users, pi.metadata.userId.value).value, IntentTopUp(pi));
          }
      }
    }
  }

  /**
   * The checkout a top-up session creator asks for, once paid, credits the
   * user exactly `original_amount` (or the amount) and records the amount.
   */
  lemma TopUpRoundTrip(db: DbState, userId: int, amount: real, originalAmount: Option<real>, currency: Option<string>,
                       frontendUrl: Option<string>, s: CheckoutSession, api: ApiOutcome, mailError: Option<string>)
    requires CreateStripeCheckoutSession(db, userId, Some(amount), originalAmount, currency, frontendUrl).Created?
    requires s.metadata == CreateStripeCheckoutSession(db, userId, Some(amount), originalAmount, currency, frontendUrl).request.metadata
    requires !HasSessionPayment(db.payments, s.id)
    ensures var k := FindUser(db.users, userId).value;
      var after := Apply(db, Webhook(db, true, CheckoutCompleted(s), api, mailError).writes);
      && after.payments == db.payments + [CreditPayment(db, k, CheckoutTopUp(s))]
      && after.payments[|db.payments|].amount == amount
      && after.payments[|db.payments|].creditedAmount == Some(originalAmount.GetOr(amount))
      && UserBalance(after.payments, after.orders, userId) == UserBalance(db.payments, db.orders, userId) + originalAmount.GetOr(amount)
  {
    TopUpDelivery(db, s, api, mailError);
  }

  /** A first delivery of a paid top-up session of a known user runs the credit writes. */
  lemma TopUpDelivery(db: DbState, s: CheckoutSession, api: ApiOutcome, mailError: Option<string>)
    requires s.metadata.imei.None? && s.metadata.userId.Some? && FindUser(db.users, s.metadata.userId.value).Some?
    requires !HasSessionPayment(db.payments, s.id)
    ensures var k := FindUser(db.users, s.metadata.userId.value).value;
      var tu := CheckoutTopUp(s);
      var after := Apply(db, Webhook(db, true, CheckoutCompleted(s), api, mailError).writes);
      && after.payments == db.payments + [CreditPayment(db, k, tu)]
      && after.payments[|db.payments|].amount == tu.amount
      && after.payments[|db.payments|].creditedAmount == Some(tu.credited)
      && UserBalance(after.payments, after.orders, s.metadata.userId.value)
         == UserBalance(db.payments, db.orders, s.metadata.userId.value) + tu.credited
  {
    var k := FindUser(db.users, s.metadata.userId.value).value;
    var tu := CheckoutTopUp(s);
    assert tu.userId == s.metadata.userId.value;
    assert Webhook(db, true, CheckoutCompleted(s), api, mailError).writes == CreditWrites(db, k, tu);
    CreditEffect(db, k, tu);
  }

  /**
   * The checkout an IMEI session creator asks for, once paid, creates an
   * order for the same buyer, IMEI and service at the price the checkout
   * charged, when the service is unchanged.
   */
  lemma ImeiRoundTrip(db: DbState, caller: Option<User>, imei: string, serviceId: int, guestEmail: Option<string>,
                      frontendUrl: Option<string>, s: CheckoutSession, api: ApiOutcome, mailError: Option<string>)
    requires Consistent(db)
    requires caller.Some? ==> caller.value.userType != ""
    requires CreateImeiCheckoutSession(db, caller, Some(imei), Some(serviceId), guestEmail, frontendUrl).Created?
    requires s.metadata == CreateImeiCheckoutSession(db, caller, Some(imei), Some(serviceId), guestEmail, frontendUrl).request.metadata
    requires !HasSessionPayment(db.payments, s.id)
    ensures var req := CreateImeiCheckoutSession(db, caller, Some(imei), Some(serviceId), guestEmail, frontendUrl).request;
      var after := Apply(db, Webhook(db, true, CheckoutCompleted(s), api, mailError).writes);
      && |after.orders| == |db.orders| + 1
      && after.orders[|db.orders|].imei == imei
      && after.orders[|db.orders|].serviceId == serviceId
      && after.orders[|db.orders|].priceUsed == req.unitAmount
      && Some(after.orders[|db.orders|].userId) == req.metadata.userId
  {
    var req := CreateImeiCheckoutSession(db, caller, Some(imei), Some(serviceId), guestEmail, frontendUrl).request;
    var pu := CheckoutPurchase(s);
    assert pu.imei == imei && pu.serviceId == serviceId && Some(pu.userId) == req.metadata.userId;
    assert CheckoutPrice(db.services[serviceId], pu.userType) == req.unitAmount;
    assert Webhook(db, true, CheckoutCompleted(s), api, mailError).writes == PurchaseWrites(db, pu, api, mailError);
    PurchaseApplies(db, pu, api, mailError);
  }

  /** The webhook as the server runs it, on the store. */
  method StripeWebhook(st: Store, signatureValid: bool, ev: Event, api: ApiOutcome, mailError: Option<string>)
    returns (status: int)
    modifies st
    ensures var r := Webhook(old(st.State()), signatureValid, ev, api, mailError);
      && status == r.status
      && st.State() == Apply(old(st.State()), r.writes)
      && st.journal == old(st.journal) + r.writes
  {
    if !signatureValid {
      return 400;
    }
    match ev {
      case CheckoutCompleted(s) =>
        CheckoutCompletedHook(st, s, api, mailError);
      case IntentSucceeded(pi) =>
        IntentSucceededHook(st, pi, api, mailError);
      case OtherEvent(_) =>
    }
    return 200;
  }

  /** The `checkout.session.completed` branch of the webhook. */
  method CheckoutCompletedHook(st: Store, s: CheckoutSession, api: ApiOutcome, mailError: Option<string>)
    modifies st
    ensures st.State() == Apply(old(st.State()), CheckoutWrites(old(st.State()), s, api, mailError))
    ensures st.journal == old(st.journal) + CheckoutWrites(old(st.State()), s, api, mailError)
  {
    var md := s.metadata;
    if IsPurchase(md) {
      if !HasSessionPayment(st.payments, s.id) && md.serviceId.value in st.services {
        PayForImei(st, CheckoutPurchase(s), api, mailError);
      }
    } else if md.userId.Some? {
      var found := FindUser(st.users, md.userId.value);
      if found.Some? && !HasSessionPayment(st.payments, s.id) {
        CreditUser(st, found.value, CheckoutTopUp(s));
      }
    }
  }

  /** The `payment_intent.succeeded` branch of the webhook. */
  method IntentSucceededHook(st: Store, pi: PaymentIntent, api: ApiOutcome, mailError: Option<string>)
    modifies st
    ensures st.State() == Apply(old(st.State()), IntentWrites(old(st.State()), pi, api, mailError))
    ensures st.journal == old(st.journal) + IntentWrites(old(st.State()), pi, api, mailError)
  {
    if HasIntentPayment(st.payments, pi.id) {
      return;
    }
    var md := pi.metadata;
    if IsPurchase(md) {
      if md.serviceId.value in st.services {
        PayForImei(st, IntentPurchase(pi), api, mailError);
      }
      return;
    }
    if md.userId.Some? {
      var found := FindUser(st.users, md.userId.value);
      if found.Some? {
        CreditUser(st, found.value, IntentTopUp(pi));
      }
    }
    // Payment.create without user_id: refused by the NOT NULL column, logged.
  }

  /** The IMEI-purchase branch: the order, then its payment, then the outcome. */
  method PayForImei(st: Store, pu: Purchase, api: ApiOutcome, mailError: Option<string>)
    requires pu.serviceId in st.services
    modifies st
    ensures st.State() == Apply(old(st.State()), PurchaseWrites(old(st.State()), pu, api, mailError))
    ensures st.journal == old(st.journal) + PurchaseWrites(old(st.State()), pu, api, mailError)
  {
    ghost var db := st.State();
    var svc := st.services[pu.serviceId];
    var price := CheckoutPrice(svc, pu.userType);
    var order := st.CreateOrder(Order(0, pu.userId, pu.imei, pu.serviceId, Pending, None, pu.guestEmail, price,
                                      pu.userType, svc.name, pu.currency, pu.ipAddress, pu.intentId));
    var payment := st.CreatePayment(Payment(0, Some(order.orderId), pu.userId, price, None, pu.currency, "approved",
                                            "stripe", pu.reference, pu.intentId, pu.sessionId, None, None));
    assert order == PendingOrder(db, pu) && payment == PurchasePayment(db, pu);
    ghost var mid := st.State();
    ApplyPair(db, InsertOrder(order), InsertPayment(payment));
    SaveOutcome(st, order, pu, api, mailError);
    ApplyConcat(db, [InsertOrder(order), InsertPayment(payment)], OutcomeWrites(order, pu, api, mailError));
  }

  /** After the API call: save the outcome, cache the HTML, mail the guest (a mail error fails the order). */
  method SaveOutcome(st: Store, order: Order, pu: Purchase, api: ApiOutcome, mailError: Option<string>)
    modifies st
    ensures st.State() == Apply(old(st.State()), OutcomeWrites(order, pu, api, mailError))
    ensures st.journal == old(st.journal) + OutcomeWrites(order, pu, api, mailError)
  {
    match api {
      case TransportError(detail) =>
        ghost var db := st.State();
        var saved := order.(status := Failed, result := Some(ApiError(detail)));
        assert OutcomeWrites(order, pu, api, mailError) == [SaveOrder(saved)];
        st.UpdateOrder(saved);
        ApplySingle(db, SaveOrder(saved));
      case Replied(reply) =>
        SaveReply(st, order, pu, reply, mailError);
    }
  }

  /** The branch of `SaveOutcome` for an API reply. */
  method SaveReply(st: Store, order: Order, pu: Purchase, reply: ApiReply, mailError: Option<string>)
    modifies st
    ensures st.State() == Apply(old(st.State()), OutcomeWrites(order, pu, Replied(reply), mailError))
    ensures st.journal == old(st.journal) + OutcomeWrites(order, pu, Replied(reply), mailError)
  {
    ghost var db := st.State();
    ghost var api := Replied(reply);
    ghost var cache := if Cached(pu, api) then [CacheResult(pu.cacheKey.value, reply.result)] else [];
    var saved := order.(result := StoredResult(reply.result), status := if reply.success then Completed else Failed);
    assert saved == Checked(order, api);
    assert OutcomeWrites(order, pu, api, mailError)
        == [SaveOrder(saved)] + cache
           + (if GuestMailed(pu, api) && mailError.Some? then [SaveOrder(Final(order, pu, api, mailError))] else []);
    st.UpdateOrder(saved);
    ghost var done := [SaveOrder(saved)];
    ApplySingle(db, SaveOrder(saved));
    if pu.cacheKey.Some? && reply.result.Truthy() {
      st.PutCache(pu.cacheKey.value, reply.result);
      ApplyAppend(db, done, CacheResult(pu.cacheKey.value, reply.result));
      done := done + [CacheResult(pu.cacheKey.value, reply.result)];
    }
    assert done == [SaveOrder(saved)] + cache;
    assert st.State() == Apply(db, done) && st.journal == old(st.journal) + done;
    if pu.guestEmail.Some? && saved.status == Completed && reply.result.Truthy() && mailError.Some? {
      saved := saved.(status := Failed, result := Some(ApiError(mailError.value)));
      st.UpdateOrder(saved);
      ApplyAppend(db, done, SaveOrder(saved));
      done := done + [SaveOrder(saved)];
    }
    assert done == OutcomeWrites(order, pu, api, mailError);
  }

  /** A credit to user row `k`: the stored balance raised, then the payment with both balances. */
  method CreditUser(st: Store, k: nat, tu: TopUp)
    requires k < |st.users|
    modifies st
    ensures st.State() == Apply(old(st.State()), CreditWrites(old(st.State()), k, tu))
    ensures st.journal == old(st.journal) + CreditWrites(old(st.State()), k, tu)
  {
    ghost var db := st.State();
    var user := st.users[k];
    var balanceBefore := user.balance;
    user := user.(balance := balanceBefore + tu.credited);
    st.UpdateUser(user);
    var payment := st.CreatePayment(Payment(0, None, user.userId, tu.amount, Some(tu.credited), tu.currency, "approved",
                                            tu.paymentMethod, tu.reference, tu.intentId, tu.sessionId,
                                            Some(balanceBefore), Some(user.balance)));
    ApplyPair(db, SaveUser(user), InsertPayment(payment));
    assert [SaveUser(user), InsertPayment(payment)] == CreditWrites(db, k, tu);
  }

  // ----------------------------------------------------- manual payments

  datatype ManualReply = ManualReply(writes: seq<Write>, status: int)

  /** The credit of a manual payment: the amount is both charged and credited. */
  function ManualTopUp(userId: int, amount: real, reference: string, currency: Option<string>): TopUp {
    TopUp(userId, amount, amount, currency.GetOr("USD"), "manual", reference, None, None)
  }

  /**
   * `createManualPayment`: an e-mail, a positive amount and a reference are
   * required (400); the e-mail must match a user exactly (404). The stored
   * balance is credited and an approved `manual` payment records both
   * balances; a mail failure answers 500 after both writes.
   */
  function ManualPayment(db: DbState, email: Option<string>, amount: Option<real>, reference: Option<string>,
                         currency: Option<string>, mailOk: bool): (r: ManualReply)
    ensures (email.None? || amount.None? || amount.value <= 0.0 || reference.None?) ==> r == ManualReply([], 400)
    ensures email.Some? && amount.Some? && amount.value > 0.0 && reference.Some? && FindUserByEmail(db.users, email.value).None?
            ==> r == ManualReply([], 404)
    ensures r.writes != [] <==> r.status != 400 && r.status != 404
    ensures r.writes != [] ==> r.status == (if mailOk then 201 else 500)
  {
    if email.None? || amount.None? || amount.value <= 0.0 || reference.None? then ManualReply([], 400)
    else match FindUserByEmail(db.users, email.value)
      case None => ManualReply([], 404)
      case Some(k) =>
        ManualReply(CreditWrites(db, k, ManualTopUp(db.users[k].userId, amount.value, reference.value, currency)),
                    if mailOk then 201 else 500)
  }

  /** A manual payment raises the stored balance and the derived balance of the user by exactly the amount. */
  lemma ManualPaymentRaises(db: DbState, email: string, amount: real, reference: string,
                            currency: Option<string>, mailOk: bool)
    requires amount > 0.0 && FindUserByEmail(db.users, email).Some?
    ensures var k := FindUserByEmail(db.users, email).value;
      var uid := db.users[k].userId;
      var after := Apply(db, ManualPayment(db, Some(email), Some(amount), Some(reference), currency, mailOk).writes);
      && |after.users| == |db.users|
      && after.users[k].balance == db.users[k].balance + amount
      && |after.payments| == |db.payments| + 1
      && after.payments[|db.payments|].balanceAfter == Some(db.users[k].balance + amount)
      && after.payments[|db.payments|].paymentMethod == "manual"
      && UserBalance(after.payments, after.orders, uid) == UserBalance(db.payments, db.orders, uid) + amount
  {
    var k := FindUserByEmail(db.users, email).value;
    var tu := ManualTopUp(db.users[k].userId, amount, reference, currency);
    assert ManualPayment(db, Some(email), Some(amount), Some(reference), currency, mailOk).writes == CreditWrites(db, k, tu);
    CreditEffect(db, k, tu);
  }

  method CreateManualPayment(st: Store, email: Option<string>, amount: Option<real>, reference: Option<string>,
                             currency: Option<string>, mailOk: bool) returns (status: int)
    modifies st
    ensures var r := ManualPayment(old(st.State()), email, amount, reference, currency, mailOk);
      && status == r.status
      && st.State() == Apply(old(st.State()), r.writes)
      && st.journal == old(st.journal) + r.writes
  {
    if email.None? || amount.None? || amount.value <= 0.0 || reference.None? {
      return 400;
    }
    var found := FindUserByEmail(st.users, email.value);
    if found.None? {
      return 404;
    }
    CreditUser(st, found.value, ManualTopUp(st.users[found.value].userId, amount.value, reference.value, currency));
    status := if mailOk then 201 else 500;
  }

  // ------------------------------------------------ polling by session

  /** The `result` of the polling reply: the cached HTML, or the stored order result. */
  datatype ResultView = Html(html: ApiResult) | Stored(result: Option<Payload>)

  datatype SessionReply =
    | SessionNotFound
    | SessionOrder(status: OrderStatus, result: ResultView, imei: string, service: string, htmlAvailable: bool)

  datatype Polled = Polled(reply: SessionReply, writes: seq<Write>)

  /**
   * `getOrderBySession`: 404 unless a payment with that session id links to
   * an existing order; a cached HTML result is returned and deleted,
   * otherwise the order's stored result.
   */
  function OrderBySession(db: DbState, sessionId: string): (r: Polled)
    ensures r.writes == [] || r.writes == [TakeResult(sessionId)]
    ensures r.writes != [] <==> r.reply.SessionOrder? && r.reply.htmlAvailable
    ensures r.reply.SessionOrder? && r.reply.htmlAvailable ==> sessionId in db.cache && r.reply.result == Html(db.cache[sessionId])
    ensures r.reply.SessionOrder? && !r.reply.htmlAvailable ==> sessionId !in db.cache && r.reply.result.Stored?
  {
    match FindPaymentBySession(db.payments, sessionId)
    case None => Polled(SessionNotFound, [])
    case Some(k) =>
      if db.payments[k].orderId.None? then Polled(SessionNotFound, [])
      else match FindOrder(db.orders, db.payments[k].orderId.value)
        case None => Polled(SessionNotFound, [])
        case Some(j) =>
          var o := db.orders[j];
          if sessionId in db.cache
          then Polled(SessionOrder(o.status, Html(db.cache[sessionId]), o.imei, o.serviceNameAtOrder, true), [TakeResult(sessionId)])
          else Polled(SessionOrder(o.status, Stored(o.result), o.imei, o.serviceNameAtOrder, false), [])
  }

  /** The cached HTML is handed out at most once: the next poll gets the stored result and changes nothing. */
  lemma CacheTakenOnce(db: DbState, sessionId: string)
    ensures var first := OrderBySession(db, sessionId);
      var second := OrderBySession(Apply(db, first.writes), sessionId);
      && second.writes == []
      && (second.reply.SessionOrder? ==> !second.reply.htmlAvailable)
      && (first.reply.SessionOrder? <==> second.reply.SessionOrder?)
  {
    var first := OrderBySession(db, sessionId);
    if first.writes != [] {
      ApplySingle(db, TakeResult(sessionId));
    }
  }

  /**
   * Polling right after a checkout IMEI purchase with a truthy result finds
   * the order and hands out the cached HTML.
   */
  lemma PurchaseThenPoll(db: DbState, s: CheckoutSession, api: ApiOutcome, mailError: Option<string>)
    requires Consistent(db) && IsPurchase(s.metadata) && s.id != ""
    requires CheckoutWrites(db, s, api, mailError) != []
    requires api.Replied? && api.reply.result.Truthy()
    ensures var d1 := Apply(db, Webhook(db, true, CheckoutCompleted(s), api, mailError).writes);
      var polled := OrderBySession(d1, s.id);
      && polled.reply.SessionOrder? && polled.reply.htmlAvailable
      && polled.reply.result == Html(api.reply.result)
      && polled.reply.imei == s.metadata.imei.value
  {
    var pu := CheckoutPurchase(s);
    var d1 := Apply(db, PurchaseWrites(db, pu, api, mailError));
    PurchaseApplies(db, pu, api, mailError);
    var p := PurchasePayment(db, pu);
    assert !HasSessionPayment(db.payments, s.id);
    assert d1.payments[|db.payments|] == p;
    var k := FindPaymentBySession(d1.payments, s.id);
    assert k.Some? && k.value == |db.payments|;
    var o := FinalOrder(db, pu, api, mailError);
    assert d1.orders[|db.orders|] == o;
    assert forall i :: 0 <= i < |db.orders| ==> d1.orders[i].orderId != o.orderId;
    var j := FindOrder(d1.orders, o.orderId);
    assert j.Some? && j.value == |db.orders|;
  }
}
