/**
 * The four relational tables (users, services, imei_orders, payments) and
 * the in-process HTML result cache, as rows, writes and an in-memory store.
 *
 * Every handler of the model changes state only through the writes below,
 * in the order the source issues its `create`/`save`/`destroy` calls; the
 * store keeps a ghost journal of them.
 */
module Tables {
  import opened Wrappers

  /** The user id the handlers give to a guest. */
  const GuestUserId: int := 999

  /** The `status` column of `imei_orders`. */
  datatype OrderStatus = Pending | Completed | Partial | Failed

  /** The `result` field of a reply of the IMEI verification API. */
  datatype ApiResult =
    | TextResult(text: string)    // a string (HTML-formatted text)
    | ObjectResult(json: string)  // an object or array, with its JSON text
    | Absent                      // the field is missing (`undefined`)
    | Null                        // the field is `null`
  {
    /** Whether the field is truthy in JavaScript. */
    predicate Truthy() {
      match this
      case TextResult(t) => t != ""
      case ObjectResult(_) => true
      case Absent => false
      case Null => false
    }
  }

  /** One reply of the API; `success` is `apiData.success === true || apiData.status === 'success'`. */
  datatype ApiReply = ApiReply(success: bool, result: ApiResult)

  /** The status one reply gives: completed when `success === true || status === 'success'`, else failed. */
  function ReplyStatus(reply: ApiReply): (st: OrderStatus)
    ensures st == Completed <==> reply.success
    ensures st == Failed <==> !reply.success
  {
    if reply.success then Completed else Failed
  }

  /** What one call to the API gives: a parsed reply, or a thrown error and its message. */
  datatype ApiOutcome = Replied(reply: ApiReply) | TransportError(detail: string)

  /** One element of the `apiResults` array an order created through the form stores. */
  datatype ImeiCheck = ImeiCheck(imei: string, reply: ApiReply, status: OrderStatus)

  /** The TEXT column `result` of an order, with its JSON serializations kept symbolic. */
  datatype Payload =
    | Text(text: string)              // a string stored as it is
    | Checks(checks: seq<ImeiCheck>)  // `JSON.stringify(apiResults)`
    | ApiError(detail: string)        // `JSON.stringify({ error: 'No se pudo contactar la API externa', detail })`
    | Serialized(json: string)        // `JSON.stringify` of any other value

  datatype User = User(
    userId: int,
    username: string,
    email: string,
    passwordHash: string,
    userType: string,
    balance: real,
    fullName: Option<string>,
    country: Option<string>,
    phone: Option<string>,
    emailVerified: bool,
    verificationCode: Option<string>,
    verificationExpires: Option<int>,
    resetCode: Option<string>,
    resetExpires: Option<int>)

  datatype Service = Service(
    serviceId: int,
    name: string,
    cost: Option<real>,
    objectName: Option<string>,  // the `object` column
    limit: Option<int>,
    priceGuest: real,
    priceRegistered: real,
    pricePremium: real,
    pricePro: real,
    description: Option<string>,
    active: Option<bool>)

  datatype Order = Order(
    orderId: int,
    userId: int,
    imei: string,
    serviceId: int,
    status: OrderStatus,
    result: Option<Payload>,
    guestEmail: Option<string>,
    priceUsed: real,
    userTypeAtOrder: string,
    serviceNameAtOrder: string,
    currency: string,
    ipAddress: Option<string>,
    paymentIntentId: Option<string>)

  /** A payment row. `user_id` is a NOT NULL column, so an insert without it is refused and writes nothing. */
  datatype Payment = Payment(
    paymentId: int,
    orderId: Option<int>,
    userId: int,
    amount: real,
    creditedAmount: Option<real>,
    currency: string,
    status: string,
    paymentMethod: string,
    reference: string,
    intentId: Option<string>,
    sessionId: Option<string>,
    balanceBefore: Option<real>,
    balanceAfter: Option<real>)

  /** The contents of the store: the four tables, the HTML cache and the next auto-increment ids. */
  datatype DbState = DbState(
    users: seq<User>,
    services: map<int, Service>,
    orders: seq<Order>,
    payments: seq<Payment>,
    cache: map<string, ApiResult>,
    nextUserId: int,
    nextOrderId: int,
    nextPaymentId: int)

  /** One change to the store. */
  datatype Write =
    | InsertUser(user: User)
    | SaveUser(user: User)
    | SaveService(service: Service)
    | DeleteService(serviceId: int)
    | InsertOrder(order: Order)
    | SaveOrder(order: Order)
    | InsertPayment(payment: Payment)
    | CacheResult(key: string, html: ApiResult)
    | TakeResult(key: string)

  // ------------------------------------------------------------- row lookup

  /** `User.findByPk(id)`: the position of the user with that id. */
  function FindUser(users: seq<User>, id: int): (r: Option<nat>)
    ensures r.Some? ==> r.value < |users| && users[r.value].userId == id
    ensures r.None? ==> forall i :: 0 <= i < |users| ==> users[i].userId != id
  {
    if users == [] then None
    else if users[0].userId == id then Some(0)
    else match FindUser(users[1..], id)
      case Some(i) => Some(i + 1)
      case None => None
  }

  /** `User.findOne({ where: { email } })`: the position of a user with exactly that e-mail. */
  function FindUserByEmail(users: seq<User>, email: string): (r: Option<nat>)
    ensures r.Some? ==> r.value < |users| && users[r.value].email == email
    ensures r.Some? ==> forall i :: 0 <= i < r.value ==> users[i].email != email
    ensures r.None? ==> forall i :: 0 <= i < |users| ==> users[i].email != email
  {
    if users == [] then None
    else if users[0].email == email then Some(0)
    else match FindUserByEmail(users[1..], email)
      case Some(i) => Some(i + 1)
      case None => None
  }

  /** `ImeiOrder.findByPk(id)`. */
  function FindOrder(orders: seq<Order>, id: int): (r: Option<nat>)
    ensures r.Some? ==> r.value < |orders| && orders[r.value].orderId == id
    ensures r.None? ==> forall i :: 0 <= i < |orders| ==> orders[i].orderId != id
  {
    if orders == [] then None
    else if orders[0].orderId == id then Some(0)
    else match FindOrder(orders[1..], id)
      case Some(i) => Some(i + 1)
      case None => None
  }

  /** `Payment.findOne({ where: { stripe_checkout_session_id } })`: the first such payment. */
  function FindPaymentBySession(payments: seq<Payment>, sessionId: string): (r: Option<nat>)
    ensures r.Some? ==> r.value < |payments| && payments[r.value].sessionId == Some(sessionId)
    ensures r.Some? ==> forall i :: 0 <= i < r.value ==> payments[i].sessionId != Some(sessionId)
    ensures r.None? ==> forall i :: 0 <= i < |payments| ==> payments[i].sessionId != Some(sessionId)
  {
    if payments == [] then None
    else if payments[0].sessionId == Some(sessionId) then Some(0)
    else match FindPaymentBySession(payments[1..], sessionId)
      case Some(i) => Some(i + 1)
      case None => None
  }

  /** Whether a payment with that checkout-session id exists. */
  predicate HasSessionPayment(payments: seq<Payment>, sessionId: string) {
    exists i :: 0 <= i < |payments| && payments[i].sessionId == Some(sessionId)
  }

  /** Whether a payment with that payment-intent id exists. */
  predicate HasIntentPayment(payments: seq<Payment>, intentId: string) {
    exists i :: 0 <= i < |payments| && payments[i].intentId == Some(intentId)
  }

  /** Number of payments with that checkout-session id. */
  function SessionCount(payments: seq<Payment>, sessionId: string): (n: nat)
    ensures n <= |payments|
    ensures n == 0 <==> !HasSessionPayment(payments, sessionId)
  {
    if payments == [] then 0
    else
      var rest := SessionCount(payments[1..], sessionId);
      assert forall i :: 0 < i < |payments| ==> payments[i] == payments[1..][i - 1];
      (if payments[0].sessionId == Some(sessionId) then 1 else 0) + rest
  }

  // ----------------------------------------------------------------- writes

  /** `users` with the row of `u`'s id replaced by `u`. */
  function ReplaceUser(users: seq<User>, u: User): (r: seq<User>)
    ensures |r| == |users|
    ensures forall i :: 0 <= i < |users| ==> r[i] == if users[i].userId == u.userId then u else users[i]
  {
    seq(|users|, i requires 0 <= i < |users| => if users[i].userId == u.userId then u else users[i])
  }

  /** `orders` with the row of `o`'s id replaced by `o`. */
  function ReplaceOrder(orders: seq<Order>, o: Order): (r: seq<Order>)
    ensures |r| == |orders|
    ensures forall i :: 0 <= i < |orders| ==> r[i] == if orders[i].orderId == o.orderId then o else orders[i]
  {
    seq(|orders|, i requires 0 <= i < |orders| => if orders[i].orderId == o.orderId then o else orders[i])
  }

  /**
   * What the `User` model lets a save write: no other row may hold the
   * username or the e-mail (both `unique`), and the e-mail must pass the
   * `isEmail` validator, an oracle here. A save of a stored row (`before`)
   * validates and writes only the columns it changes; an insert (`before`
   * = `None`) checks every column.
   */
  predicate SaveAllowed(users: seq<User>, before: Option<User>, v: User, isEmail: string -> bool) {
    && (before.None? || before.value.email != v.email ==>
          && isEmail(v.email)
          && forall i :: 0 <= i < |users| && users[i].userId != v.userId ==> users[i].email != v.email)
    && (before.None? || before.value.username != v.username ==>
          forall i :: 0 <= i < |users| && users[i].userId != v.userId ==> users[i].username != v.username)
  }

  /** No two rows share an id, a username or an e-mail. */
  predicate UniqueUsers(users: seq<User>) {
    forall i, j :: 0 <= i < j < |users| ==>
      && users[i].userId != users[j].userId
      && users[i].username != users[j].username
      && users[i].email != users[j].email
  }

  /** An insert the constraints let through, under an id no row holds, keeps every key unique. */
  lemma InsertKeepsUnique(users: seq<User>, v: User, isEmail: string -> bool)
    requires UniqueUsers(users) && SaveAllowed(users, None, v, isEmail)
    requires forall i :: 0 <= i < |users| ==> users[i].userId != v.userId
    ensures UniqueUsers(users + [v])
  {
  }

  /** A save of a stored row the constraints let through keeps every key unique. */
  lemma SaveKeepsUnique(users: seq<User>, k: nat, v: User, isEmail: string -> bool)
    requires UniqueUsers(users) && k < |users| && users[k].userId == v.userId
    requires SaveAllowed(users, Some(users[k]), v, isEmail)
    ensures UniqueUsers(ReplaceUser(users, v))
  {
    var r := ReplaceUser(users, v);
    forall i, j | 0 <= i < j < |r|
      ensures r[i].userId != r[j].userId && r[i].username != r[j].username && r[i].email != r[j].email
    {
      if i == k {
        assert r[j] == users[j];
      } else if j == k {
        assert r[i] == users[i];
      } else {
        assert r[i] == users[i] && r[j] == users[j];
      }
    }
  }

  /** The store after one write. */
  function Apply1(db: DbState, w: Write): DbState {
    match w
    case InsertUser(u) => db.(users := db.users + [u], nextUserId := db.nextUserId + 1)
    case SaveUser(u) => db.(users := ReplaceUser(db.users, u))
    case SaveService(s) => db.(services := db.services[s.serviceId := s])
    case DeleteService(id) => db.(services := db.services - {id})
    case InsertOrder(o) => db.(orders := db.orders + [o], nextOrderId := db.nextOrderId + 1)
    case SaveOrder(o) => db.(orders := ReplaceOrder(db.orders, o))
    case InsertPayment(p) => db.(payments := db.payments + [p], nextPaymentId := db.nextPaymentId + 1)
    case CacheResult(k, html) => db.(cache := db.cache[k := html])
    case TakeResult(k) => db.(cache := db.cache - {k})
  }

  /** The store after a list of writes, first to last. */
  function Apply(db: DbState, ws: seq<Write>): DbState
    decreases |ws|
  {
    if ws == [] then db else Apply(Apply1(db, ws[0]), ws[1..])
  }

  lemma {:induction false} ApplyAppend(db: DbState, ws: seq<Write>, w: Write)
    ensures Apply(db, ws + [w]) == Apply1(Apply(db, ws), w)
    decreases |ws|
  {
    if ws != [] {
      assert (ws + [w])[1..] == ws[1..] + [w];
      ApplyAppend(Apply1(db, ws[0]), ws[1..], w);
    }
  }

  lemma {:induction false} ApplyConcat(db: DbState, a: seq<Write>, b: seq<Write>)
    ensures Apply(db, a + b) == Apply(Apply(db, a), b)
    decreases |a|
  {
    if a == [] {
      assert a + b == b;
    } else {
      assert (a + b)[1..] == a[1..] + b;
      ApplyConcat(Apply1(db, a[0]), a[1..], b);
    }
  }

  lemma ApplySingle(db: DbState, w: Write)
    ensures Apply(db, [w]) == Apply1(db, w)
  {
    assert [w][1..] == [];
  }

  lemma ApplyTriple(db: DbState, a: Write, b: Write, c: Write)
    ensures Apply(db, [a, b, c]) == Apply1(Apply1(Apply1(db, a), b), c)
  {
    assert [a, b, c][1..] == [b, c];
    assert [b, c][1..] == [c];
    ApplySingle(Apply1(Apply1(db, a), b), c);
  }

  lemma ApplyPair(db: DbState, a: Write, b: Write)
    ensures Apply(db, [a, b]) == Apply1(Apply1(db, a), b)
  {
    assert [a, b][1..] == [b];
    ApplySingle(Apply1(db, a), b);
  }

  /** Saving a freshly inserted user row replaces just that row. */
  lemma ReplaceUserFresh(us: seq<User>, u0: User, u: User)
    requires u0.userId == u.userId
    requires forall i :: 0 <= i < |us| ==> us[i].userId != u.userId
    ensures ReplaceUser(us + [u0], u) == us + [u]
  {
  }

  /** A user appended with an e-mail no other row has is the one found by that e-mail. */
  lemma FindUserByEmailAppend(us: seq<User>, u: User)
    requires forall i :: 0 <= i < |us| ==> us[i].email != u.email
    ensures FindUserByEmail(us + [u], u.email) == Some(|us|)
  {
    var r := FindUserByEmail(us + [u], u.email);
    assert (us + [u])[|us|] == u;
  }

  /** Saving a freshly inserted order row replaces just that row. */
  lemma ReplaceOrderFresh(os: seq<Order>, o0: Order, o: Order)
    requires o0.orderId == o.orderId
    requires forall i :: 0 <= i < |os| ==> os[i].orderId != o.orderId
    ensures ReplaceOrder(os + [o0], o) == os + [o]
  {
  }

  /** Auto-increment ids are fresh: every stored id is below the next one. */
  ghost predicate Consistent(db: DbState) {
    && (forall i :: 0 <= i < |db.users| ==> db.users[i].userId < db.nextUserId)
    && (forall i :: 0 <= i < |db.orders| ==> db.orders[i].orderId < db.nextOrderId)
    && (forall i :: 0 <= i < |db.payments| ==> db.payments[i].paymentId < db.nextPaymentId)
  }

  // ------------------------------------------------------------------ store

  /** The database and the HTML result cache of one server process. */
  class Store {
    var users: seq<User>
    var services: map<int, Service>
    var orders: seq<Order>
    var payments: seq<Payment>
    var cache: map<string, ApiResult>
    var nextUserId: int
    var nextOrderId: int
    var nextPaymentId: int
    /** Every write made so far, in order. */
    ghost var journal: seq<Write>

    function State(): DbState
      reads this
    {
      DbState(users, services, orders, payments, cache, nextUserId, nextOrderId, nextPaymentId)
    }

    constructor ()
      ensures State() == DbState([], map[], [], [], map[], 1, 1, 1)
      ensures journal == []
    {
      users, services, orders, payments, cache := [], map[], [], [], map[];
      nextUserId, nextOrderId, nextPaymentId := 1, 1, 1;
      journal := [];
    }

    /** `User.create(u)`: the row gets the next user id. */
    method CreateUser(u: User) returns (saved: User)
      modifies this
      ensures saved == u.(userId := old(nextUserId))
      ensures State() == Apply1(old(State()), InsertUser(saved))
      ensures journal == old(journal) + [InsertUser(saved)]
    {
      saved := u.(userId := nextUserId);
      users := users + [saved];
      nextUserId := nextUserId + 1;
      journal := journal + [InsertUser(saved)];
    }

    /** `user.save()`. */
    method UpdateUser(u: User)
      modifies this
      ensures State() == Apply1(old(State()), SaveUser(u))
      ensures journal == old(journal) + [SaveUser(u)]
    {
      users := ReplaceUser(users, u);
      journal := journal + [SaveUser(u)];
    }

    /** `service.save()`. */
    method UpdateService(s: Service)
      modifies this
      ensures State() == Apply1(old(State()), SaveService(s))
      ensures journal == old(journal) + [SaveService(s)]
    {
      services := services[s.serviceId := s];
      journal := journal + [SaveService(s)];
    }

    /** `service.destroy()`. */
    method DestroyService(id: int)
      modifies this
      ensures State() == Apply1(old(State()), DeleteService(id))
      ensures journal == old(journal) + [DeleteService(id)]
    {
      services := services - {id};
      journal := journal + [DeleteService(id)];
    }

    /** `ImeiOrder.create(o)`: the row gets the next order id. */
    method CreateOrder(o: Order) returns (saved: Order)
      modifies this
      ensures saved == o.(orderId := old(nextOrderId))
      ensures State() == Apply1(old(State()), InsertOrder(saved))
      ensures journal == old(journal) + [InsertOrder(saved)]
    {
      saved := o.(orderId := nextOrderId);
      orders := orders + [saved];
      nextOrderId := nextOrderId + 1;
      journal := journal + [InsertOrder(saved)];
    }

    /** `order.save()`. */
    method UpdateOrder(o: Order)
      modifies this
      ensures State() == Apply1(old(State()), SaveOrder(o))
      ensures journal == old(journal) + [SaveOrder(o)]
    {
      orders := ReplaceOrder(orders, o);
      journal := journal + [SaveOrder(o)];
    }

    /** `Payment.create(p)`: the row gets the next payment id. */
    method CreatePayment(p: Payment) returns (saved: Payment)
      modifies this
      ensures saved == p.(paymentId := old(nextPaymentId))
      ensures State() == Apply1(old(State()), InsertPayment(saved))
      ensures journal == old(journal) + [InsertPayment(saved)]
    {
      saved := p.(paymentId := nextPaymentId);
      payments := payments + [saved];
      nextPaymentId := nextPaymentId + 1;
      journal := journal + [InsertPayment(saved)];
    }

    /** `imeiResultHtmlCache[key] = { html, timestamp }`. */
    method PutCache(key: string, html: ApiResult)
      modifies this
      ensures State() == Apply1(old(State()), CacheResult(key, html))
      ensures journal == old(journal) + [CacheResult(key, html)]
    {
      cache := cache[key := html];
      journal := journal + [CacheResult(key, html)];
    }

    /** `delete imeiResultHtmlCache[key]`. */
    method DeleteCache(key: string)
      modifies this
      ensures State() == Apply1(old(State()), TakeResult(key))
      ensures journal == old(journal) + [TakeResult(key)]
    {
      cache := cache - {key};
      journal := journal + [TakeResult(key)];
    }
  }
}
