/**
 * The IMEI order controller: an order placed and paid from the account
 * balance (`createOrder`, one order for up to 50 IMEIs, one API call per
 * IMEI), the status update used by workers and admins, and the admin list.
 *
 * Only one stateful handler has a loop: `CreateOrder` below calls the API
 * once per IMEI and is proved against the specification `CreateOrderReply`.
 * The API is an oracle `calls`: call number `i` (from 0) gives `calls(i)`.
 */
module ImeiOrderController {
  import opened Wrappers
  import opened Text
  import opened Tables
  import opened Balance
  import opened Mailer
  import PaymentController

  /** At most this many IMEIs per order. */
  const MaxImeis: nat := 50

  /** The body of `POST /api/imei-orders`; `imeis` is present when the body holds an array. */
  datatype OrderForm = OrderForm(
    imei: Option<string>,
    imeis: Option<seq<string>>,
    serviceId: Option<int>,
    guestEmail: Option<string>,
    ip: Option<string>)

  /** One element of the array the handler answers with. */
  datatype ClientResult =
    | ClientCheck(imei: string, result: ApiResult, status: OrderStatus)
    | ClientError   // `{ error: 'No se pudo contactar la API externa' }`

  /** The writes, the HTTP status and, with 201, the per-IMEI results. */
  datatype OrderReply = OrderReply(writes: seq<Write>, status: int, results: seq<ClientResult>)

  // ------------------------------------------------------------- IMEI list

  /** `imeis` when it is an array, else `[imei]` when `imei` is truthy, else nothing. */
  function RawImeis(form: OrderForm): seq<string> {
    if form.imeis.Some? then form.imeis.value
    else if form.imei.Some? && form.imei.value != "" then [form.imei.value]
    else []
  }

  /** A non-empty string with no white space at either end. */
  predicate Trimmed(s: string) {
    s != [] && !IsSpace(s[0]) && !IsSpace(s[|s| - 1])
  }

  /** Every entry trimmed, and the entries that trim to nothing dropped. */
  function Normalize(xs: seq<string>): (r: seq<string>)
    ensures |r| <= |xs|
    ensures forall i :: 0 <= i < |r| ==> Trimmed(r[i])
  {
    if xs == [] then []
    else
      var t := Trim(xs[0]);
      var rest := Normalize(xs[1..]);
      if t == [] then rest
      else
        assert Trimmed(t);
        assert forall i :: 0 < i <= |rest| ==> ([t] + rest)[i] == rest[i - 1];
        [t] + rest
  }

  /** The list is cleaned entry by entry. */
  lemma {:induction false} NormalizeConcat(xs: seq<string>, ys: seq<string>)
    ensures Normalize(xs + ys) == Normalize(xs) + Normalize(ys)
  {
    if xs == [] {
      assert xs + ys == ys;
    } else {
      assert (xs + ys)[1..] == xs[1..] + ys;
      NormalizeConcat(xs[1..], ys);
    }
  }

  /** Cleaning a cleaned list changes nothing. */
  lemma {:induction false} NormalizeIdempotent(xs: seq<string>)
    ensures Normalize(Normalize(xs)) == Normalize(xs)
  {
    var r := Normalize(xs);
    if r != [] {
      assert r == [r[0]] + r[1..];
      NormalizeConcat([r[0]], r[1..]);
      assert [r[0]][1..] == [];
      assert Trim(r[0]) == r[0];
      NormalizeFixed(r[1..]);
    }
  }

  /** A list of non-empty trimmed entries is its own cleaning. */
  lemma {:induction false} NormalizeFixed(xs: seq<string>)
    requires forall i :: 0 <= i < |xs| ==> Trimmed(xs[i])
    ensures Normalize(xs) == xs
  {
    if xs != [] {
      assert Trim(xs[0]) == xs[0];
      NormalizeFixed(xs[1..]);
      assert xs == [xs[0]] + xs[1..];
    }
  }

  /** Outcome of checking the cleaned list. */
  datatype Validation = Accepted(imeis: seq<string>) | WrongCount | Invalid(imei: string)

  /** The position of the first entry that is not 15 digits, or `|xs|`. */
  function FirstInvalid(xs: seq<string>): (i: nat)
    ensures i <= |xs|
    ensures i < |xs| ==> !IsImei(xs[i])
    ensures forall j :: 0 <= j < i ==> IsImei(xs[j])
  {
    if xs == [] then 0
    else if !IsImei(xs[0]) then 0
    else 1 + FirstInvalid(xs[1..])
  }

  /** Between 1 and 50 entries, then every entry must match `/^\d{15}$/`; the first that does not is named. */
  function Validate(xs: seq<string>): (v: Validation)
    ensures v.Accepted? <==> 1 <= |xs| <= MaxImeis && forall i :: 0 <= i < |xs| ==> IsImei(xs[i])
    ensures v.Accepted? ==> v.imeis == xs
    ensures v.WrongCount? <==> |xs| == 0 || |xs| > MaxImeis
    ensures v.Invalid? ==> exists i :: 0 <= i < |xs| && xs[i] == v.imei && !IsImei(xs[i])
                                       && forall j :: 0 <= j < i ==> IsImei(xs[j])
  {
    if |xs| == 0 || |xs| > MaxImeis then WrongCount
    else
      var i := FirstInvalid(xs);
      if i < |xs| then Invalid(xs[i]) else Accepted(xs)
  }

  /** `JSON.stringify(imeisArr)` of a list of digit strings: `["a","b"]`. */
  function ImeiListJson(xs: seq<string>): (j: string)
    ensures |j| >= 2 && j[0] == '[' && j[|j| - 1] == ']'
  {
    "[" + QuotedList(xs) + "]"
  }

  function QuotedList(xs: seq<string>): string {
    if xs == [] then ""
    else if |xs| == 1 then "\"" + xs[0] + "\""
    else "\"" + xs[0] + "\"," + QuotedList(xs[1..])
  }

  /** No entry holds a double quote, as JSON would have to escape it; digit strings never do. */
  predicate Unquoted(xs: seq<string>) {
    forall i, k :: 0 <= i < |xs| && 0 <= k < |xs[i]| ==> xs[i][k] != '"'
  }

  /** Reads a JSON array of strings without escapes back into its entries (`JSON.parse`). */
  function ParseImeiList(j: string): (r: Option<seq<string>>)
  {
    if |j| >= 2 && j[0] == '[' && j[|j| - 1] == ']' then ParseQuoted(j[1..|j| - 1]) else None
  }

  /** Reads `"a","b",…` back; `None` for any other text. */
  function ParseQuoted(s: string): (r: Option<seq<string>>)
    decreases |s|
  {
    if s == [] then Some([])
    else if s[0] != '"' then None
    else
      var j := IndexOf(s[1..], '"');
      if j == |s| - 1 then None
      else
        var rest := s[j + 2..];
        if rest == [] then Some([s[1..j + 1]])
        else if rest[0] != ',' then None
        else match ParseQuoted(rest[1..])
          case None => None
          case Some(more) => if more == [] then None else Some([s[1..j + 1]] + more)
  }

  /** The first '"' of `x + "\"" + t` is the one after `x` when `x` holds none. */
  lemma QuoteAfter(x: string, t: string)
    requires forall k :: 0 <= k < |x| ==> x[k] != '"'
    ensures IndexOf(x + "\"" + t, '"') == |x|
  {
    var s := x + "\"" + t;
    assert forall k :: 0 <= k < |x| ==> s[k] == x[k];
    assert s[|x|] == '"';
  }

  /** The pieces `ParseQuoted` cuts out of `"x"` followed by `rest`. */
  lemma EntryPieces(s: string, x: string, rest: string)
    requires forall k :: 0 <= k < |x| ==> x[k] != '"'
    requires s == "\"" + x + "\"" + rest
    ensures s != [] && s[0] == '"' && |s| == |x| + 2 + |rest|
    ensures IndexOf(s[1..], '"') == |x|
    ensures s[1..|x| + 1] == x && s[|x| + 2..] == rest
  {
    assert s[1..] == x + "\"" + rest;
    QuoteAfter(x, rest);
  }

  /** A single quoted entry is read back as itself. */
  lemma ParseLast(x: string)
    requires forall k :: 0 <= k < |x| ==> x[k] != '"'
    ensures ParseQuoted("\"" + x + "\"") == Some([x])
  {
    var s := "\"" + x + "\"";
    EntryPieces(s, x, "");
  }

  /** A quoted entry, a comma and a non-empty list are read as that entry before the list. */
  lemma ParseCons(x: string, t: string, more: seq<string>)
    requires forall k :: 0 <= k < |x| ==> x[k] != '"'
    requires ParseQuoted(t) == Some(more) && more != []
    ensures ParseQuoted("\"" + x + "\"," + t) == Some([x] + more)
  {
    var s := "\"" + x + "\"," + t;
    var rest := "," + t;
    assert rest[0] == ',' && rest[1..] == t;
    EntryPieces(s, x, rest);
  }

  lemma UnquotedTail(xs: seq<string>)
    requires xs != [] && Unquoted(xs)
    ensures Unquoted(xs[1..])
    ensures forall k :: 0 <= k < |xs[0]| ==> xs[0][k] != '"'
  {
    forall i, k | 0 <= i < |xs[1..]| && 0 <= k < |xs[1..][i]| ensures xs[1..][i][k] != '"' {
      assert xs[1..][i] == xs[i + 1];
    }
  }

  lemma {:induction false} QuotedRoundTrip(xs: seq<string>)
    requires Unquoted(xs)
    ensures ParseQuoted(QuotedList(xs)) == Some(xs)
    decreases |xs|
  {
    if xs != [] {
      UnquotedTail(xs);
      if |xs| == 1 {
        ParseLast(xs[0]);
        assert xs == [xs[0]];
      } else {
        QuotedRoundTrip(xs[1..]);
        ParseCons(xs[0], QuotedList(xs[1..]), xs[1..]);
        assert xs == [xs[0]] + xs[1..];
      }
    }
  }

  /** `JSON.parse` of the stored column gives back the IMEI list. */
  lemma ImeiListRoundTrip(xs: seq<string>)
    requires forall i :: 0 <= i < |xs| ==> IsImei(xs[i])
    ensures ParseImeiList(ImeiListJson(xs)) == Some(xs)
  {
    assert Unquoted(xs) by {
      forall i, k | 0 <= i < |xs| && 0 <= k < |xs[i]| ensures xs[i][k] != '"' {
        assert IsDigit(xs[i][k]);
      }
    }
    var j := ImeiListJson(xs);
    assert j[1..|j| - 1] == QuotedList(xs);
    QuotedRoundTrip(xs);
  }

  /** Two orders store the same IMEI column only for the same list of IMEIs. */
  lemma ImeiListInjective(xs: seq<string>, ys: seq<string>)
    requires forall i :: 0 <= i < |xs| ==> IsImei(xs[i])
    requires forall i :: 0 <= i < |ys| ==> IsImei(ys[i])
    requires ImeiListJson(xs) == ImeiListJson(ys)
    ensures xs == ys
  {
    ImeiListRoundTrip(xs);
    ImeiListRoundTrip(ys);
  }

  // --------------------------------------------------------- price and tier

  /** The order's user id: the caller's, or 999 for a guest. */
  function OrderUserId(caller: Option<User>): int {
    if caller.Some? then caller.value.userId else GuestUserId
  }

  /** `user_type_at_order`: `guest` without a caller, else the caller's type or `registered` when it is empty. */
  function OrderTier(caller: Option<User>): string {
    if caller.None? then "guest"
    else if caller.value.userType == "" then "registered"
    else caller.value.userType
  }

  /** `price_used`: the guest price without a caller, else the price of the caller's tier. */
  function OrderPrice(svc: Service, caller: Option<User>): (price: real)
    ensures caller.None? ==> price == svc.priceGuest
    ensures caller.Some? && OrderTier(caller) == "pro" ==> price == svc.pricePro
    ensures caller.Some? && OrderTier(caller) == "premium" ==> price == svc.pricePremium
    ensures caller.Some? && OrderTier(caller) != "pro" && OrderTier(caller) != "premium" ==> price == svc.priceRegistered
  {
    if caller.None? then svc.priceGuest
    else if OrderTier(caller) == "pro" then svc.pricePro
    else if OrderTier(caller) == "premium" then svc.pricePremium
    else svc.priceRegistered
  }

  /**
   * The balance order charges what a Stripe checkout would for guests and
   * registered users; only the `pro` and `premium` tiers get their own prices.
   */
  lemma OrderPriceVersusCheckout(svc: Service, caller: Option<User>)
    requires OrderTier(caller) != "pro" && OrderTier(caller) != "premium"
    requires caller.Some? ==> OrderTier(caller) != "guest"
    ensures OrderPrice(svc, caller) == PaymentController.CheckoutPrice(svc, OrderTier(caller))
  {
  }

  // ------------------------------------------------------------ API calls

  /**
   * The loop over the first `n` IMEIs: the checks so far, or the message of
   * the first call that threw (which ends the loop).
   */
  function RunChecks(imeis: seq<string>, calls: nat -> ApiOutcome, n: nat): (r: Result<seq<ImeiCheck>, string>)
    requires n <= |imeis|
    ensures r.Ok? ==> |r.value| == n && forall i :: 0 <= i < n ==> calls(i).Replied?
    ensures r.Ok? ==> forall i :: 0 <= i < n ==> r.value[i] == ImeiCheck(imeis[i], calls(i).reply, ReplyStatus(calls(i).reply))
  {
    if n == 0 then Ok([])
    else match RunChecks(imeis, calls, n - 1)
      case Err(d) => Err(d)
      case Ok(cs) =>
        match calls(n - 1)
        case TransportError(d) => Err(d)
        case Replied(rep) => Ok(cs + [ImeiCheck(imeis[n - 1], rep, ReplyStatus(rep))])
  }

  /**
   * The loop gets through the list exactly when every call replies, and
   * otherwise stops with the message of the first call that threw.
   */
  lemma {:induction false} RunChecksMeans(imeis: seq<string>, calls: nat -> ApiOutcome, n: nat)
    requires n <= |imeis|
    ensures RunChecks(imeis, calls, n).Ok? <==> forall i :: 0 <= i < n ==> calls(i).Replied?
    ensures RunChecks(imeis, calls, n).Err? ==>
              exists i :: 0 <= i < n && calls(i) == TransportError(RunChecks(imeis, calls, n).error)
                          && forall j :: 0 <= j < i ==> calls(j).Replied?
  {
    if n > 0 {
      RunChecksMeans(imeis, calls, n - 1);
    }
  }

  /** Once a call has thrown, the later IMEIs are not called and the error stays. */
  lemma {:induction false} RunChecksErrStays(imeis: seq<string>, calls: nat -> ApiOutcome, n: nat, m: nat)
    requires n <= m <= |imeis| && RunChecks(imeis, calls, n).Err?
    ensures RunChecks(imeis, calls, m) == RunChecks(imeis, calls, n)
    decreases m - n
  {
    if n < m {
      RunChecksErrStays(imeis, calls, n, m - 1);
      var prev := RunChecks(imeis, calls, m - 1);
      assert prev.Err?;
      assert RunChecks(imeis, calls, m) == prev;
    }
  }

  /** `apiResults.every(r => r.status === 'completed')`. */
  predicate AllCompleted(cs: seq<ImeiCheck>) {
    cs == [] || (cs[0].status == Completed && AllCompleted(cs[1..]))
  }

  /** `apiResults.some(r => r.status === 'completed')`. */
  predicate AnyCompleted(cs: seq<ImeiCheck>) {
    cs != [] && (cs[0].status == Completed || AnyCompleted(cs[1..]))
  }

  lemma {:induction false} AllCompletedMeans(cs: seq<ImeiCheck>)
    ensures AllCompleted(cs) <==> forall i :: 0 <= i < |cs| ==> cs[i].status == Completed
  {
    if cs != [] {
      AllCompletedMeans(cs[1..]);
      assert forall i :: 0 < i < |cs| ==> cs[i] == cs[1..][i - 1];
    }
  }

  lemma {:induction false} AnyCompletedMeans(cs: seq<ImeiCheck>)
    ensures AnyCompleted(cs) <==> exists i :: 0 <= i < |cs| && cs[i].status == Completed
  {
    if cs != [] {
      AnyCompletedMeans(cs[1..]);
      assert forall i :: 0 < i < |cs| ==> cs[i] == cs[1..][i - 1];
    }
  }

  /** The order status of the checks: completed if all completed, partial if some, failed if none. */
  function Aggregate(cs: seq<ImeiCheck>): (st: OrderStatus)
    ensures st == Completed <==> forall i :: 0 <= i < |cs| ==> cs[i].status == Completed
    ensures st == Partial <==> (exists i :: 0 <= i < |cs| && cs[i].status == Completed)
                               && (exists i :: 0 <= i < |cs| && cs[i].status != Completed)
    ensures st == Failed <==> cs != [] && forall i :: 0 <= i < |cs| ==> cs[i].status != Completed
    ensures st != Pending
  {
    AllCompletedMeans(cs);
    AnyCompletedMeans(cs);
    if AllCompleted(cs) then Completed else if AnyCompleted(cs) then Partial else Failed
  }

  /** What the client sees of one check: the IMEI, the API's `result` and the status. */
  function ClientView(cs: seq<ImeiCheck>): (r: seq<ClientResult>)
    ensures |r| == |cs|
    ensures forall i :: 0 <= i < |cs| ==> r[i] == ClientCheck(cs[i].imei, cs[i].reply.result, cs[i].status)
  {
    seq(|cs|, i requires 0 <= i < |cs| => ClientCheck(cs[i].imei, cs[i].reply.result, cs[i].status))
  }

  // ----------------------------------------------------------- the handler

  /** The order row `IMEIOrder.create` inserts. */
  function NewOrder(db: DbState, caller: Option<User>, form: OrderForm, svc: Service, imeis: seq<string>): Order
    requires form.serviceId.Some?
  {
    var uid := OrderUserId(caller);
    Order(db.nextOrderId, uid, ImeiListJson(imeis), form.serviceId.value, Pending, None,
          if uid == GuestUserId then form.guestEmail else None,
          OrderPrice(svc, caller), OrderTier(caller), svc.name, "USD", form.ip, None)
  }

  /** The order as the handler saves it after the loop, or after its `catch`. */
  function Outcome(order: Order, imeis: seq<string>, calls: nat -> ApiOutcome): Order {
    match RunChecks(imeis, calls, |imeis|)
    case Ok(cs) => order.(result := Some(Checks(cs)), status := Aggregate(cs))
    case Err(d) => order.(result := Some(ApiError(d)), status := Failed)
  }

  /** `clientResults` after the loop or its `catch`. */
  function ClientResults(imeis: seq<string>, calls: nat -> ApiOutcome): seq<ClientResult> {
    match RunChecks(imeis, calls, |imeis|)
    case Ok(cs) => ClientView(cs)
    case Err(_) => [ClientError]
  }

  /**
   * Who is notified of order `o`: its guest e-mail when truthy, else the
   * e-mail of the user with the order's (truthy) user id, if there is one.
   */
  function Recipient(users: seq<User>, o: Order): (to: Option<string>)
    ensures to.Some? ==> to.value != ""
    ensures o.guestEmail.Some? && o.guestEmail.value != "" ==> to == o.guestEmail
  {
    if o.guestEmail.Some? && o.guestEmail.value != "" then o.guestEmail
    else if o.userId == 0 then None
    else match FindUser(users, o.userId)
      case None => None
      case Some(k) => if users[k].email == "" then None else Some(users[k].email)
  }

  /** Whether the request is refused for lacking both a user id and a guest e-mail. */
  predicate GuestGuard(caller: Option<User>, form: OrderForm) {
    OrderUserId(caller) == 0 && (form.guestEmail.None? || form.guestEmail.value == "")
  }

  /** The service the form names, when it exists and is active. */
  function ActiveService(db: DbState, form: OrderForm): (r: Option<Service>)
    ensures r.Some? <==> form.serviceId.Some? && form.serviceId.value in db.services
                         && db.services[form.serviceId.value].active == Some(true)
    ensures r.Some? ==> r.value == db.services[form.serviceId.value]
  {
    if form.serviceId.Some? && form.serviceId.value in db.services
       && db.services[form.serviceId.value].active == Some(true)
    then Some(db.services[form.serviceId.value])
    else None
  }

  /**
   * `createOrder` when the completion e-mail, if one is sent, is `delivered`
   * or not: 400 for the guest guard, 404 for a missing or inactive service,
   * 400 for a list of 0 or more than 50 IMEIs or an invalid IMEI; otherwise
   * the order is inserted as pending, saved with the API's results, and the
   * answer is 201 with the per-IMEI results, or 500 when the e-mail to a
   * known recipient of a completed or partial order fails.
   */
  function CreateOrderReply(db: DbState, caller: Option<User>, form: OrderForm, calls: nat -> ApiOutcome,
                            delivered: bool): (r: OrderReply)
    ensures r.writes == [] <==> r.status != 201 && r.status != 500
    ensures GuestGuard(caller, form) ==> r == OrderReply([], 400, [])
    ensures !GuestGuard(caller, form) && ActiveService(db, form).None? ==> r == OrderReply([], 404, [])
    ensures !GuestGuard(caller, form) && ActiveService(db, form).Some?
            && !Validate(Normalize(RawImeis(form))).Accepted?
            ==> r == OrderReply([], 400, [])
    ensures !GuestGuard(caller, form) && ActiveService(db, form).Some? && Validate(Normalize(RawImeis(form))).Accepted?
            ==> r == PlacedReply(db, caller, form, ActiveService(db, form).value,
                                 Validate(Normalize(RawImeis(form))).imeis, calls, delivered)
  {
    if GuestGuard(caller, form) then OrderReply([], 400, [])
    else match ActiveService(db, form)
      case None => OrderReply([], 404, [])
      case Some(svc) =>
        match Validate(Normalize(RawImeis(form)))
        case WrongCount => OrderReply([], 400, [])
        case Invalid(_) => OrderReply([], 400, [])
        case Accepted(imeis) => PlacedReply(db, caller, form, svc, imeis, calls, delivered)
  }

  /** The reply once the request is accepted: the order is inserted, then saved with its outcome. */
  function PlacedReply(db: DbState, caller: Option<User>, form: OrderForm, svc: Service, imeis: seq<string>,
                       calls: nat -> ApiOutcome, delivered: bool): (r: OrderReply)
    requires form.serviceId.Some?
    ensures var o := NewOrder(db, caller, form, svc, imeis);
            r.writes == [InsertOrder(o), SaveOrder(Outcome(o, imeis, calls))]
    ensures r.status == 201 || r.status == 500
  {
    var o := NewOrder(db, caller, form, svc, imeis);
    var done := Outcome(o, imeis, calls);
    var notify := (done.status == Completed || done.status == Partial) && Recipient(db.users, done).Some?;
    if notify && !delivered then OrderReply([InsertOrder(o), SaveOrder(done)], 500, [])
    else OrderReply([InsertOrder(o), SaveOrder(done)], 201, ClientResults(imeis, calls))
  }

  /** A request that writes anything passed every check and is answered by `PlacedReply`. */
  lemma PlacedShape(db: DbState, caller: Option<User>, form: OrderForm, calls: nat -> ApiOutcome, delivered: bool)
    requires CreateOrderReply(db, caller, form, calls, delivered).writes != []
    ensures !GuestGuard(caller, form) && ActiveService(db, form).Some?
    ensures Validate(Normalize(RawImeis(form))).Accepted?
    ensures CreateOrderReply(db, caller, form, calls, delivered)
         == PlacedReply(db, caller, form, ActiveService(db, form).value, Normalize(RawImeis(form)), calls, delivered)
  {
  }

  /**
   * `createOrder` as written: the completion e-mail goes out with `type: null`,
   * which the mailer rejects, so it is never delivered.
   */
  function CreateOrderReplyAsWritten(db: DbState, caller: Option<User>, form: OrderForm, calls: nat -> ApiOutcome,
                                     transportOk: bool): (r: OrderReply)
    ensures r == CreateOrderReply(db, caller, form, calls, false)
  {
    CreateOrderReply(db, caller, form, calls, Delivered(NoType, transportOk))
  }

  /**
   * As written, every order that ends completed or partial with someone to
   * notify is saved and then answered with 500, whatever the mail transport
   * does; the intended handler answers 201 with the results when the mail
   * goes through.
   */
  lemma NotifiedOrderFailsAsWritten(db: DbState, caller: Option<User>, form: OrderForm, calls: nat -> ApiOutcome,
                                    transportOk: bool)
    requires !GuestGuard(caller, form) && ActiveService(db, form).Some?
    requires Validate(Normalize(RawImeis(form))).Accepted?
    requires var imeis := Validate(Normalize(RawImeis(form))).imeis;
             var done := Outcome(NewOrder(db, caller, form, ActiveService(db, form).value, imeis), imeis, calls);
             (done.status == Completed || done.status == Partial) && Recipient(db.users, done).Some?
    ensures CreateOrderReplyAsWritten(db, caller, form, calls, transportOk).status == 500
    ensures CreateOrderReplyAsWritten(db, caller, form, calls, transportOk).writes
         == CreateOrderReply(db, caller, form, calls, true).writes
    ensures CreateOrderReply(db, caller, form, calls, true).status == 201
  {
  }

  /** A one-IMEI guest order whose API call succeeds: answered with 500 as written. */
  lemma GuestOrderCounterexample(db: DbState, imei: string, email: string, rep: ApiReply)
    requires IsImei(imei) && email != ""
    requires 7 in db.services && db.services[7].active == Some(true) && rep.success
    ensures var form := OrderForm(Some(imei), None, Some(7), Some(email), None);
            var calls := (i: nat) => Replied(rep);
            && CreateOrderReplyAsWritten(db, None, form, calls, true).status == 500
            && CreateOrderReply(db, None, form, calls, true).status == 201
  {
    var form := OrderForm(Some(imei), None, Some(7), Some(email), None);
    var calls := (i: nat) => Replied(rep);
    SingleImeiAccepted(imei);
    assert RawImeis(form) == [imei];
    var o := NewOrder(db, None, form, db.services[7], [imei]);
    SingleCheckCompletes(o, imei, calls);
    assert Recipient(db.users, Outcome(o, [imei], calls)) == Some(email);
    NotifiedOrderFailsAsWritten(db, None, form, calls, true);
  }

  lemma SingleImeiAccepted(imei: string)
    requires IsImei(imei)
    ensures Validate(Normalize([imei])) == Accepted([imei])
  {
    assert IsDigit(imei[0]) && IsDigit(imei[14]);
    assert Trimmed([imei][0]);
    NormalizeFixed([imei]);
    assert forall i :: 0 <= i < |[imei]| ==> IsImei([imei][i]);
  }

  lemma SingleCheckCompletes(o: Order, imei: string, calls: nat -> ApiOutcome)
    requires calls(0).Replied? && calls(0).reply.success
    ensures Outcome(o, [imei], calls).status == Completed
    ensures Outcome(o, [imei], calls).guestEmail == o.guestEmail
  {
    RunChecksMeans([imei], calls, 1);
    var cs := RunChecks([imei], calls, 1);
    assert cs.Ok? && cs.value[0].status == Completed;
    assert Aggregate(cs.value) == Completed;
  }

  /**
   * A guarded request needs a user id of 0: a guest gets 999, so the guard
   * never fires for guests nor for callers with a non-zero id.
   */
  lemma GuestGuardUnreachable(caller: Option<User>, form: OrderForm)
    requires caller.None? || caller.value.userId != 0
    ensures !GuestGuard(caller, form)
  {
  }

  /** Only the guest order keeps a guest e-mail; a caller's order stores none. */
  lemma GuestEmailOnlyForGuests(db: DbState, caller: Option<User>, form: OrderForm, calls: nat -> ApiOutcome,
                                delivered: bool)
    requires caller.Some? ==> caller.value.userId != GuestUserId
    ensures var r := CreateOrderReply(db, caller, form, calls, delivered);
            r.writes != [] ==> && |r.writes| == 2 && r.writes[0].InsertOrder? && r.writes[1].SaveOrder?
                               && r.writes[0].order.guestEmail == (if caller.None? then form.guestEmail else None)
                               && r.writes[1].order.guestEmail == r.writes[0].order.guestEmail
  {
    if CreateOrderReply(db, caller, form, calls, delivered).writes != [] {
      PlacedShape(db, caller, form, calls, delivered);
    }
  }

  /**
   * The rows `createOrder` writes: only for a list of 1 to 50 valid IMEIs
   * and a known service, a pending row with the next id, the tier's price
   * and the JSON list of IMEIs, then the same row with the outcome.
   */
  lemma CreateOrderRows(db: DbState, caller: Option<User>, form: OrderForm, calls: nat -> ApiOutcome, delivered: bool)
    requires CreateOrderReply(db, caller, form, calls, delivered).writes != []
    ensures form.serviceId.Some? && form.serviceId.value in db.services
    ensures var imeis := Normalize(RawImeis(form));
            && 1 <= |imeis| <= MaxImeis && (forall i :: 0 <= i < |imeis| ==> IsImei(imeis[i]))
            && var o := NewOrder(db, caller, form, db.services[form.serviceId.value], imeis);
            && CreateOrderReply(db, caller, form, calls, delivered).writes == [InsertOrder(o), SaveOrder(Outcome(o, imeis, calls))]
            && o.orderId == db.nextOrderId && o.status == Pending && o.result == None && o.imei == ImeiListJson(imeis)
            && o.userId == OrderUserId(caller) && o.priceUsed == OrderPrice(db.services[form.serviceId.value], caller)
  {
    PlacedShape(db, caller, form, calls, delivered);
  }

  /**
   * The saved row is the inserted one with a result and a status: a call
   * that throws fails the whole order with the error as its result, and a
   * reply for every IMEI gives the aggregate status and the list of checks.
   */
  lemma OutcomeOf(o: Order, imeis: seq<string>, calls: nat -> ApiOutcome)
    ensures Outcome(o, imeis, calls).(status := o.status, result := o.result) == o
    ensures (exists i :: 0 <= i < |imeis| && calls(i).TransportError?)
            ==> Outcome(o, imeis, calls).status == Failed && Outcome(o, imeis, calls).result.value.ApiError?
    ensures (forall i :: 0 <= i < |imeis| ==> calls(i).Replied?)
            ==> RunChecks(imeis, calls, |imeis|).Ok?
                && Outcome(o, imeis, calls).result == Some(Checks(RunChecks(imeis, calls, |imeis|).value))
                && Outcome(o, imeis, calls).status == Aggregate(RunChecks(imeis, calls, |imeis|).value)
  {
    RunChecksMeans(imeis, calls, |imeis|);
    var run := RunChecks(imeis, calls, |imeis|);
    if run.Ok? {
      assert Outcome(o, imeis, calls) == o.(result := Some(Checks(run.value)), status := Aggregate(run.value));
    } else {
      assert Outcome(o, imeis, calls) == o.(result := Some(ApiError(run.error)), status := Failed);
    }
  }

  /**
   * No balance is consulted: an order of any user completes whatever the
   * user's derived balance, and a completed order lowers it by the price once
   * for the whole list of IMEIs; a partial or failed order costs nothing.
   */
  lemma CreateOrderCharges(db: DbState, caller: Option<User>, form: OrderForm, calls: nat -> ApiOutcome, delivered: bool)
    requires Consistent(db)
    requires CreateOrderReply(db, caller, form, calls, delivered).writes != []
    ensures var r := CreateOrderReply(db, caller, form, calls, delivered);
            && |r.writes| == 2 && r.writes[1].SaveOrder?
            && var after := Apply(db, r.writes);
            && var done := r.writes[1].order;
            && after.orders == db.orders + [done]
            && after.payments == db.payments && after.users == db.users
            && UserBalance(after.payments, after.orders, done.userId)
               == UserBalance(db.payments, db.orders, done.userId) - (if done.status == Completed then done.priceUsed else 0.0)
  {
    PlacedShape(db, caller, form, calls, delivered);
    PlacedCharges(db, caller, form, ActiveService(db, form).value, Normalize(RawImeis(form)), calls);
  }

  /** The two writes of an accepted order append the saved row and touch no other table. */
  lemma PlacedCharges(db: DbState, caller: Option<User>, form: OrderForm, svc: Service, imeis: seq<string>,
                      calls: nat -> ApiOutcome)
    requires Consistent(db) && form.serviceId.Some?
    ensures var o := NewOrder(db, caller, form, svc, imeis);
            var done := Outcome(o, imeis, calls);
            var after := Apply(db, [InsertOrder(o), SaveOrder(done)]);
            && after.orders == db.orders + [done]
            && after.payments == db.payments && after.users == db.users
            && UserBalance(after.payments, after.orders, done.userId)
               == UserBalance(db.payments, db.orders, done.userId) - (if done.status == Completed then done.priceUsed else 0.0)
  {
    var o := NewOrder(db, caller, form, svc, imeis);
    var done := Outcome(o, imeis, calls);
    ApplyPair(db, InsertOrder(o), SaveOrder(done));
    ReplaceOrderFresh(db.orders, o, done);
    ChargeSumConcat(db.orders, [done], done.userId);
  }

  /** The stored balances of the users, the caller's included, change nothing in the reply or the writes. */
  lemma CreateOrderIgnoresBalance(db: DbState, caller: Option<User>, form: OrderForm, calls: nat -> ApiOutcome,
                                  delivered: bool, f: int -> real, b: real)
    ensures var caller' := if caller.Some? then Some(caller.value.(balance := b)) else None;
            CreateOrderReply(db.(users := Rebalanced(db.users, f)), caller', form, calls, delivered)
            == CreateOrderReply(db, caller, form, calls, delivered)
  {
    var caller' := if caller.Some? then Some(caller.value.(balance := b)) else None;
    var db' := db.(users := Rebalanced(db.users, f));
    assert GuestGuard(caller', form) == GuestGuard(caller, form);
    assert ActiveService(db', form) == ActiveService(db, form);
    if !GuestGuard(caller, form) && ActiveService(db, form).Some? && Validate(Normalize(RawImeis(form))).Accepted? {
      PlacedIgnoresBalance(db, caller, form, ActiveService(db, form).value, Normalize(RawImeis(form)), calls, delivered, f, b);
    }
  }

  lemma PlacedIgnoresBalance(db: DbState, caller: Option<User>, form: OrderForm, svc: Service, imeis: seq<string>,
                             calls: nat -> ApiOutcome, delivered: bool, f: int -> real, b: real)
    requires form.serviceId.Some?
    ensures var caller' := if caller.Some? then Some(caller.value.(balance := b)) else None;
            PlacedReply(db.(users := Rebalanced(db.users, f)), caller', form, svc, imeis, calls, delivered)
            == PlacedReply(db, caller, form, svc, imeis, calls, delivered)
  {
    var caller' := if caller.Some? then Some(caller.value.(balance := b)) else None;
    var db' := db.(users := Rebalanced(db.users, f));
    assert OrderTier(caller') == OrderTier(caller);
    assert OrderPrice(svc, caller') == OrderPrice(svc, caller);
    var o := NewOrder(db, caller, form, svc, imeis);
    assert NewOrder(db', caller', form, svc, imeis) == o;
    var done := Outcome(o, imeis, calls);
    FindUserRebalanced(db.users, f, done.userId);
    assert Recipient(db'.users, done) == Recipient(db.users, done);
  }

  /**
   * The loop of `createOrder`: one API call per IMEI, in order, until a call
   * throws; it gives the checks (or the error) and what the client sees.
   */
  method CallApi(imeis: seq<string>, calls: nat -> ApiOutcome)
    returns (outcome: Result<seq<ImeiCheck>, string>, client: seq<ClientResult>)
    ensures outcome == RunChecks(imeis, calls, |imeis|)
    ensures client == ClientResults(imeis, calls)
  {
    var checks: seq<ImeiCheck> := [];
    client := [];
    var failure: Option<string> := None;
    var i := 0;
    while i < |imeis| && failure.None?
      invariant 0 <= i <= |imeis|
      invariant failure.None? ==> RunChecks(imeis, calls, i) == Ok(checks) && client == ClientView(checks)
      invariant failure.Some? ==> i < |imeis| && RunChecks(imeis, calls, i + 1) == Err(failure.value)
      decreases |imeis| - i, if failure.None? then 1 else 0
    {
      match calls(i) {
        case TransportError(d) =>
          failure := Some(d);
        case Replied(rep) =>
          var check := ImeiCheck(imeis[i], rep, ReplyStatus(rep));
          checks := checks + [check];
          client := client + [ClientCheck(check.imei, rep.result, check.status)];
          i := i + 1;
      }
    }
    if failure.Some? {
      RunChecksErrStays(imeis, calls, i + 1, |imeis|);
      outcome := Err(failure.value);
      client := [ClientError];
    } else {
      outcome := Ok(checks);
    }
  }

  /**
   * `createOrder` on the store: insert the pending order, call the API once
   * per IMEI until one call throws, save the outcome, and answer.
   */
  method CreateOrder(st: Store, caller: Option<User>, form: OrderForm, calls: nat -> ApiOutcome, transportOk: bool)
    returns (status: int, results: seq<ClientResult>)
    modifies st
    ensures var r := CreateOrderReply(old(st.State()), caller, form, calls, transportOk);
            && status == r.status && results == r.results
            && st.State() == Apply(old(st.State()), r.writes)
            && st.journal == old(st.journal) + r.writes
  {
    ghost var db := st.State();
    if GuestGuard(caller, form) {
      return 400, [];
    }
    var found := ActiveService(st.State(), form);
    if found.None? {
      return 404, [];
    }
    var svc := found.value;
    var v := Validate(Normalize(RawImeis(form)));
    if !v.Accepted? {
      return 400, [];
    }
    assert CreateOrderReply(db, caller, form, calls, transportOk) == PlacedReply(db, caller, form, svc, v.imeis, calls, transportOk);
    status, results := Place(st, caller, form, svc, v.imeis, calls, transportOk);
  }

  /** The accepted request on the store: `PlacedReply`'s writes, made in order. */
  method Place(st: Store, caller: Option<User>, form: OrderForm, svc: Service, imeis: seq<string>,
               calls: nat -> ApiOutcome, transportOk: bool)
    returns (status: int, results: seq<ClientResult>)
    requires form.serviceId.Some?
    modifies st
    ensures var r := PlacedReply(old(st.State()), caller, form, svc, imeis, calls, transportOk);
            && status == r.status && results == r.results
            && st.State() == Apply(old(st.State()), r.writes)
            && st.journal == old(st.journal) + r.writes
  {
    ghost var db := st.State();
    var o := st.CreateOrder(NewOrder(st.State(), caller, form, svc, imeis));
    assert o == NewOrder(db, caller, form, svc, imeis);
    var outcome, client := CallApi(imeis, calls);
    var done := if outcome.Ok?
      then o.(result := Some(Checks(outcome.value)), status := Aggregate(outcome.value))
      else o.(result := Some(ApiError(outcome.error)), status := Failed);
    assert done == Outcome(o, imeis, calls);
    st.UpdateOrder(done);
    ApplyPair(db, InsertOrder(o), SaveOrder(done));
    assert st.users == db.users;
    PlacedDecision(db, caller, form, svc, imeis, calls, transportOk);
    var to := Recipient(st.users, done);
    if (done.status == Completed || done.status == Partial) && to.Some? && !transportOk {
      return 500, [];
    }
    return 201, client;
  }

  /** How `PlacedReply` answers: 500 when a notified order's e-mail fails, else 201 with the results. */
  lemma PlacedDecision(db: DbState, caller: Option<User>, form: OrderForm, svc: Service, imeis: seq<string>,
                       calls: nat -> ApiOutcome, delivered: bool)
    requires form.serviceId.Some?
    ensures var done := Outcome(NewOrder(db, caller, form, svc, imeis), imeis, calls);
            var r := PlacedReply(db, caller, form, svc, imeis, calls, delivered);
            if (done.status == Completed || done.status == Partial) && Recipient(db.users, done).Some? && !delivered
            then r.status == 500 && r.results == []
            else r.status == 201 && r.results == ClientResults(imeis, calls)
  {
  }

  // -------------------------------------------------------- status update

  /** The `result` of a status update: a string is stored as it is, anything else as its JSON. */
  datatype ResultInput = StringResult(text: string) | ValueResult(json: string)

  function StoredInput(x: ResultInput): (p: Payload) {
    match x
    case StringResult(t) => Text(t)
    case ValueResult(j) => Serialized(j)
  }

  /** The status names a worker may set; `partial` is not one of them. */
  function ParseStatus(s: string): (r: Option<OrderStatus>)
    ensures r.Some? <==> s == "pending" || s == "completed" || s == "failed"
    ensures r == Some(Pending) <==> s == "pending"
    ensures r == Some(Completed) <==> s == "completed"
    ensures r == Some(Failed) <==> s == "failed"
  {
    if s == "pending" then Some(Pending)
    else if s == "completed" then Some(Completed)
    else if s == "failed" then Some(Failed)
    else None
  }

  /** The writes, the HTTP status and the order answered with 200. */
  datatype StatusReply = StatusReply(writes: seq<Write>, status: int, order: Option<Order>)

  /**
   * `updateOrderStatus` when the result e-mail, if one is sent, is
   * `delivered` or not: 404 for an unknown order, 400 for a status outside
   * the list; otherwise the status (and the result, when given) is saved and
   * the answer is the order, or 500 when the e-mail of a completed order to a
   * known recipient fails.
   */
  function UpdateOrderStatusReply(db: DbState, orderId: int, status: string, result: Option<ResultInput>,
                                  delivered: bool): (r: StatusReply)
    ensures FindOrder(db.orders, orderId).None? ==> r == StatusReply([], 404, None)
    ensures FindOrder(db.orders, orderId).Some? && ParseStatus(status).None? ==> r == StatusReply([], 400, None)
    ensures r.writes != [] <==> FindOrder(db.orders, orderId).Some? && ParseStatus(status).Some?
  {
    match FindOrder(db.orders, orderId)
    case None => StatusReply([], 404, None)
    case Some(k) =>
      match ParseStatus(status)
      case None => StatusReply([], 400, None)
      case Some(s) =>
        var o := db.orders[k].(status := s,
                               result := if result.Some? then Some(StoredInput(result.value)) else db.orders[k].result);
        if s == Completed && Recipient(db.users, o).Some? && !delivered then StatusReply([SaveOrder(o)], 500, None)
        else StatusReply([SaveOrder(o)], 200, Some(o))
  }

  /**
   * `updateOrderStatus` as written: the `order_result` template reads an
   * undeclared `order` and throws, so the e-mail is never delivered.
   */
  function UpdateOrderStatusReplyAsWritten(db: DbState, orderId: int, status: string, result: Option<ResultInput>,
                                           transportOk: bool): (r: StatusReply)
    ensures r == UpdateOrderStatusReply(db, orderId, status, result, false)
  {
    UpdateOrderStatusReply(db, orderId, status, result, Delivered(OrderResult, transportOk))
  }

  /**
   * As written, marking an order completed when someone is to be notified
   * saves it and answers 500; the intended handler answers with the order
   * when the mail goes through.
   */
  lemma CompletionFailsAsWritten(db: DbState, orderId: int, result: Option<ResultInput>, transportOk: bool)
    requires FindOrder(db.orders, orderId).Some?
    requires var o := db.orders[FindOrder(db.orders, orderId).value];
             Recipient(db.users, o.(status := Completed,
                                    result := if result.Some? then Some(StoredInput(result.value)) else o.result)).Some?
    ensures UpdateOrderStatusReplyAsWritten(db, orderId, "completed", result, transportOk).status == 500
    ensures UpdateOrderStatusReplyAsWritten(db, orderId, "completed", result, transportOk).writes
         == UpdateOrderStatusReply(db, orderId, "completed", result, true).writes
    ensures UpdateOrderStatusReply(db, orderId, "completed", result, true).status == 200
  {
  }

  /**
   * The saved row is the found one with the new status, and its result
   * replaced exactly when one is given; with unique order ids nothing else in
   * the table changes.
   */
  lemma UpdateOrderStatusEffect(db: DbState, orderId: int, status: string, result: Option<ResultInput>, delivered: bool)
    requires forall i, j :: 0 <= i < j < |db.orders| ==> db.orders[i].orderId != db.orders[j].orderId
    requires UpdateOrderStatusReply(db, orderId, status, result, delivered).writes != []
    ensures var k := FindOrder(db.orders, orderId).value;
            var after := Apply(db, UpdateOrderStatusReply(db, orderId, status, result, delivered).writes);
            && |after.orders| == |db.orders|
            && after.orders[k] == db.orders[k].(status := ParseStatus(status).value,
                                                 result := if result.Some? then Some(StoredInput(result.value))
                                                           else db.orders[k].result)
            && (forall i :: 0 <= i < |db.orders| && i != k ==> after.orders[i] == db.orders[i])
            && after.users == db.users && after.payments == db.payments && after.services == db.services
  {
    var r := UpdateOrderStatusReply(db, orderId, status, result, delivered);
    ApplySingle(db, r.writes[0]);
  }

  /** Repeating a status update leaves the store as the first one left it. */
  lemma UpdateOrderStatusIdempotent(db: DbState, orderId: int, status: string, result: Option<ResultInput>,
                                    d1: bool, d2: bool)
    requires forall i, j :: 0 <= i < j < |db.orders| ==> db.orders[i].orderId != db.orders[j].orderId
    ensures var once := Apply(db, UpdateOrderStatusReply(db, orderId, status, result, d1).writes);
            Apply(once, UpdateOrderStatusReply(once, orderId, status, result, d2).writes) == once
  {
    var f := FindOrder(db.orders, orderId);
    var s := ParseStatus(status);
    if f.Some? && s.Some? {
      var k := f.value;
      var o := db.orders[k].(status := s.value,
                             result := if result.Some? then Some(StoredInput(result.value)) else db.orders[k].result);
      StatusWrites(db, orderId, status, result, d1, k);
      ApplySingle(db, SaveOrder(o));
      var once := db.(orders := ReplaceOrder(db.orders, o));
      SecondUpdate(db, once, k, orderId, status, result, d2, o);
      ApplySingle(once, SaveOrder(o));
      ReplaceOrderTwice(db.orders, o);
    } else {
      assert Apply(db, []) == db;
    }
  }

  /** A known order and a whitelisted status: the one write saves the row with the new status and result. */
  lemma StatusWrites(db: DbState, orderId: int, status: string, result: Option<ResultInput>, d: bool, k: nat)
    requires FindOrder(db.orders, orderId) == Some(k) && ParseStatus(status).Some?
    ensures UpdateOrderStatusReply(db, orderId, status, result, d).writes
         == [SaveOrder(db.orders[k].(status := ParseStatus(status).value,
                                     result := if result.Some? then Some(StoredInput(result.value)) else db.orders[k].result))]
  {
  }

  /** Saving the same row twice is saving it once. */
  lemma ReplaceOrderTwice(os: seq<Order>, o: Order)
    ensures ReplaceOrder(ReplaceOrder(os, o), o) == ReplaceOrder(os, o)
  {
  }

  /** After a status update, the same update finds the saved row and saves it unchanged. */
  lemma SecondUpdate(db: DbState, once: DbState, k: nat, orderId: int, status: string, result: Option<ResultInput>,
                     d2: bool, o: Order)
    requires forall i, j :: 0 <= i < j < |db.orders| ==> db.orders[i].orderId != db.orders[j].orderId
    requires FindOrder(db.orders, orderId) == Some(k) && ParseStatus(status).Some?
    requires o == db.orders[k].(status := ParseStatus(status).value,
                                result := if result.Some? then Some(StoredInput(result.value)) else db.orders[k].result)
    requires once == db.(orders := ReplaceOrder(db.orders, o))
    ensures UpdateOrderStatusReply(once, orderId, status, result, d2).writes == [SaveOrder(o)]
  {
    assert once.orders[k] == o;
    assert FindOrder(once.orders, orderId) == Some(k);
  }

  /**
   * Marking a not-yet-completed order completed lowers its user's derived
   * balance by the order's price.
   */
  lemma CompletionCharges(db: DbState, orderId: int, result: Option<ResultInput>, delivered: bool)
    requires forall i, j :: 0 <= i < j < |db.orders| ==> db.orders[i].orderId != db.orders[j].orderId
    requires FindOrder(db.orders, orderId).Some?
    requires db.orders[FindOrder(db.orders, orderId).value].status != Completed
    ensures var o := db.orders[FindOrder(db.orders, orderId).value];
            var after := Apply(db, UpdateOrderStatusReply(db, orderId, "completed", result, delivered).writes);
            UserBalance(after.payments, after.orders, o.userId)
            == UserBalance(db.payments, db.orders, o.userId) - o.priceUsed
  {
    var k := FindOrder(db.orders, orderId).value;
    var r := UpdateOrderStatusReply(db, orderId, "completed", result, delivered);
    ApplySingle(db, r.writes[0]);
    CompleteOrderLowers(db.payments, db.orders, k, r.writes[0].order, db.orders[k].userId);
  }

  /** `updateOrderStatus` on the store. */
  method UpdateOrderStatus(st: Store, orderId: int, status: string, result: Option<ResultInput>, transportOk: bool)
    returns (code: int, order: Option<Order>)
    modifies st
    ensures var r := UpdateOrderStatusReply(old(st.State()), orderId, status, result, transportOk);
            && code == r.status && order == r.order
            && st.State() == Apply(old(st.State()), r.writes)
            && st.journal == old(st.journal) + r.writes
  {
    ghost var db := st.State();
    var k := FindOrder(st.orders, orderId);
    if k.None? {
      return 404, None;
    }
    var s := ParseStatus(status);
    if s.None? {
      return 400, None;
    }
    var o := st.orders[k.value];
    if result.Some? {
      o := o.(result := Some(StoredInput(result.value)));
    }
    o := o.(status := s.value);
    st.UpdateOrder(o);
    ApplySingle(db, SaveOrder(o));
    if s.value == Completed && Recipient(st.users, o).Some? && !transportOk {
      return 500, None;
    }
    return 200, Some(o);
  }

  // ------------------------------------------------------------ admin list

  /** One row of the admin order list. */
  datatype AdminRow = AdminRow(
    orderId: int,
    status: OrderStatus,
    userEmail: string,
    userTypeAtOrder: string,
    guestEmail: Option<string>,
    serviceId: int,
    serviceNameAtOrder: string,
    priceUsed: real,
    imei: string)

  /** `user_email`: the guest e-mail (or "") for a guest-tier order, else the joined user's e-mail, else "". */
  function AdminEmail(users: seq<User>, o: Order): (e: string)
    ensures o.userTypeAtOrder == "guest" ==> e == o.guestEmail.GetOr("")
    ensures o.userTypeAtOrder != "guest" && FindUser(users, o.userId).None? ==> e == ""
    ensures o.userTypeAtOrder != "guest" && FindUser(users, o.userId).Some?
            ==> e == users[FindUser(users, o.userId).value].email
  {
    if o.userTypeAtOrder == "guest" then o.guestEmail.GetOr("")
    else match FindUser(users, o.userId)
      case None => ""
      case Some(k) => users[k].email
  }

  function AdminRowOf(users: seq<User>, o: Order): AdminRow {
    AdminRow(o.orderId, o.status, AdminEmail(users, o), o.userTypeAtOrder, o.guestEmail, o.serviceId,
             o.serviceNameAtOrder, o.priceUsed, o.imei)
  }

  /** `adminList`: one row per order, newest table row first. */
  function AdminList(db: DbState): (rows: seq<AdminRow>)
    ensures |rows| == |db.orders|
    ensures forall i :: 0 <= i < |rows| ==> rows[i] == AdminRowOf(db.users, db.orders[|db.orders| - 1 - i])
  {
    seq(|db.orders|, i requires 0 <= i < |db.orders| => AdminRowOf(db.users, db.orders[|db.orders| - 1 - i]))
  }

  /** Order ids ascend along the table. */
  predicate Ascending(os: seq<Order>) {
    forall i, j :: 0 <= i < j < |os| ==> os[i].orderId < os[j].orderId
  }

  /** Over a table whose ids ascend, as inserting with the next id keeps them, the list is by `order_id DESC`. */
  lemma AdminListDescending(db: DbState)
    requires Ascending(db.orders)
    ensures var rows := AdminList(db);
            forall i, j :: 0 <= i < j < |rows| ==> rows[i].orderId > rows[j].orderId
  {
  }

  lemma InsertKeepsAscending(db: DbState, o: Order)
    requires Consistent(db) && Ascending(db.orders) && o.orderId == db.nextOrderId
    ensures Ascending(Apply1(db, InsertOrder(o)).orders)
  {
  }

  /**
   * The admin list shows the buyer of a placed order: the guest's e-mail for
   * a guest, the account's e-mail for a caller whose tier is not `guest`.
   */
  lemma AdminListShowsBuyer(db: DbState, caller: Option<User>, form: OrderForm, calls: nat -> ApiOutcome, delivered: bool)
    requires CreateOrderReply(db, caller, form, calls, delivered).writes != []
    ensures var r := CreateOrderReply(db, caller, form, calls, delivered);
            && |r.writes| == 2 && r.writes[1].SaveOrder?
            && var done := r.writes[1].order;
            && (caller.None? ==> AdminEmail(db.users, done) == form.guestEmail.GetOr(""))
            && (caller.Some? && caller.value.userType != "guest" && FindUser(db.users, caller.value.userId).Some?
                ==> AdminEmail(db.users, done) == db.users[FindUser(db.users, caller.value.userId).value].email)
  {
    PlacedShape(db, caller, form, calls, delivered);
    PlacedBuyer(db, caller, form, ActiveService(db, form).value, Normalize(RawImeis(form)), calls);
  }

  lemma PlacedBuyer(db: DbState, caller: Option<User>, form: OrderForm, svc: Service, imeis: seq<string>,
                    calls: nat -> ApiOutcome)
    requires form.serviceId.Some?
    ensures var done := Outcome(NewOrder(db, caller, form, svc, imeis), imeis, calls);
            && (caller.None? ==> AdminEmail(db.users, done) == form.guestEmail.GetOr(""))
            && (caller.Some? && caller.value.userType != "guest" && FindUser(db.users, caller.value.userId).Some?
                ==> AdminEmail(db.users, done) == db.users[FindUser(db.users, caller.value.userId).value].email)
  {
    var o := NewOrder(db, caller, form, svc, imeis);
    OutcomeOf(o, imeis, calls);
    var done := Outcome(o, imeis, calls);
    assert done.userTypeAtOrder == OrderTier(caller) && done.userId == OrderUserId(caller);
    assert done.guestEmail == o.guestEmail;
  }
}
