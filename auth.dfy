/**
 * The JWT middleware: a guest may place an IMEI order without a token when
 * the body names a guest e-mail; every other request needs an
 * `Authorization: Bearer <token>` header whose token verifies and names an
 * existing user. Token verification is an oracle from the token to the
 * decoded user id (`None` when it throws or carries no id).
 */
module AuthMiddleware {
  import opened Wrappers
  import opened Text
  import opened Tables

  /** The parts of a request the middleware reads. */
  datatype Request = Request(
    httpMethod: string,
    baseUrl: string,
    path: string,
    guestEmail: Option<string>,
    authorization: Option<string>)

  /** What the middleware does: continue as a guest, continue as a user, or answer 401. */
  datatype AuthOutcome = AsGuest | AsUser(user: User) | Unauthorized

  /** `POST /api/imei-orders` (path `/` or empty) with a truthy `guest_email`. */
  predicate GuestBypass(req: Request) {
    && req.httpMethod == "POST"
    && req.baseUrl == "/api/imei-orders"
    && (req.path == "/" || req.path == "")
    && req.guestEmail.Some? && req.guestEmail.value != ""
  }

  /** The header is present and starts with `Bearer `. */
  predicate IsBearer(header: Option<string>) {
    header.Some? && header.value != "" && StartsWith(header.value, "Bearer ")
  }

  /** `s.split(' ')[1]`: the text between the first and the second space, `None` without a space. */
  function SecondField(s: string): (r: Option<string>)
    ensures r.Some? <==> ' ' in s
    ensures r.Some? ==> ' ' !in r.value
  {
    var i := IndexOf(s, ' ');
    if i == |s| then None
    else
      var rest := s[i + 1..];
      var j := IndexOf(rest, ' ');
      Some(rest[..j])
  }

  /** The token of a `Bearer` header is what follows `Bearer ` up to the next space. */
  lemma BearerTokenRoundTrip(t: string)
    requires ' ' !in t
    ensures IsBearer(Some("Bearer " + t))
    ensures SecondField("Bearer " + t) == Some(t)
  {
    var s := "Bearer " + t;
    assert s[..7] == "Bearer ";
    assert IndexOf(s, ' ') == 6 by {
      assert s[6] == ' ';
      assert forall k :: 0 <= k < 6 ==> s[k] != ' ';
    }
    assert s[7..] == t;
    assert IndexOf(t, ' ') == |t|;
    assert t[..|t|] == t;
  }

  /**
   * The middleware's decision: the bypass first (whatever the header),
   * then 401 for a missing or non-`Bearer` header, then 401 when the token
   * fails to verify or names no user.
   */
  function Authenticate(db: DbState, req: Request, verify: string -> Option<int>): (r: AuthOutcome)
    ensures GuestBypass(req) ==> r == AsGuest
    ensures !GuestBypass(req) && !IsBearer(req.authorization) ==> r == Unauthorized
    ensures r.AsUser? ==> IsBearer(req.authorization) && !GuestBypass(req)
                          && exists k :: 0 <= k < |db.users| && db.users[k] == r.user
    ensures r.AsUser? ==> var t := SecondField(req.authorization.value);
                          t.Some? && verify(t.value) == Some(r.user.userId)
    ensures !GuestBypass(req) && IsBearer(req.authorization) ==>
              var t := SecondField(req.authorization.value);
              (r == Unauthorized <==>
                 t.None? || verify(t.value).None? || FindUser(db.users, verify(t.value).value).None?)
  {
    if GuestBypass(req) then AsGuest
    else if !IsBearer(req.authorization) then Unauthorized
    else
      var token := SecondField(req.authorization.value);
      if token.None? then Unauthorized
      else match verify(token.value)
        case None => Unauthorized
        case Some(id) =>
          match FindUser(db.users, id)
          case None => Unauthorized
          case Some(k) => AsUser(db.users[k])
  }

  /** A request is let through as a guest exactly when the bypass applies. */
  lemma GuestExactlyOnBypass(db: DbState, req: Request, verify: string -> Option<int>)
    ensures Authenticate(db, req, verify) == AsGuest <==> GuestBypass(req)
  {
  }

  /**
   * A well-formed header whose token verifies to the id of a stored user
   * authenticates as that user, unless the bypass applies.
   */
  lemma ValidTokenAuthenticates(db: DbState, req: Request, t: string, verify: string -> Option<int>, k: nat)
    requires !GuestBypass(req) && ' ' !in t && req.authorization == Some("Bearer " + t)
    requires k < |db.users| && verify(t) == Some(db.users[k].userId)
    requires forall i :: 0 <= i < |db.users| && i != k ==> db.users[i].userId != db.users[k].userId
    ensures Authenticate(db, req, verify) == AsUser(db.users[k])
  {
    BearerTokenRoundTrip(t);
  }

  /** An order placed through the bypass reaches the handler without a caller, hence as user 999. */
  lemma BypassedOrderIsGuest(db: DbState, req: Request, verify: string -> Option<int>)
    requires GuestBypass(req)
    ensures Authenticate(db, req, verify).AsGuest?
    ensures req.guestEmail.Some? && req.guestEmail.value != ""
  {
  }
}
