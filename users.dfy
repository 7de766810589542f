/**
 * The user controller's account life cycle: registration creates a pending,
 * unverified user with a verification code; the code verifies the e-mail
 * once; login needs a verified e-mail; a reset code changes the password
 * once. Codes, password hashes, the clock (milliseconds), the password
 * comparison and the mail transport are inputs.
 */
module UserController {
  import opened Wrappers
  import opened Text
  import opened Tables
  import opened Balance
  import opened Mailer

  /** A verification code lives 24 hours. */
  const VerificationLifetime: int := 24 * 60 * 60 * 1000

  /** A reset code lives 15 minutes. */
  const ResetLifetime: int := 15 * 60 * 1000

  /** `email.trim().toLowerCase()`. */
  function NormalizeEmail(email: string): (r: string)
    ensures |r| <= |email|
    ensures Unpadded(r)
    ensures forall i :: 0 <= i < |r| ==> r[i] == LowerChar(r[i])
  {
    var t := Trim(email);
    var r := ToLower(t);
    assert r != [] ==> r[0] == LowerChar(t[0]) && r[|r| - 1] == LowerChar(t[|t| - 1]);
    r
  }

  /** Normalizing twice is normalizing once, so stored and looked-up e-mails agree. */
  lemma NormalizeEmailIdempotent(email: string)
    ensures NormalizeEmail(NormalizeEmail(email)) == NormalizeEmail(email)
  {
    var r := NormalizeEmail(email);
    assert Trim(r) == r;
    assert ToLower(r) == r;
  }

  /** A truthy field, else null. */
  function OrNull(x: Option<string>): (r: Option<string>)
    ensures r.Some? <==> Given(x)
    ensures r.Some? ==> r == x
  {
    if Given(x) then x else None
  }

  /** The writes and the HTTP status of a handler. */
  datatype UserReply = UserReply(writes: seq<Write>, status: int)

  // ------------------------------------------------------------- register

  datatype RegisterForm = RegisterForm(
    username: Option<string>,
    email: Option<string>,
    password: Option<string>,
    country: Option<string>,
    phone: Option<string>,
    fullName: Option<string>)

  /** The row `register` inserts: tier `pending`, e-mail not verified, a code valid for 24 hours. */
  function PendingUser(db: DbState, form: RegisterForm, hash: string, code: string, now: int): User
    requires Given(form.username) && Given(form.email)
  {
    User(db.nextUserId, form.username.value, NormalizeEmail(form.email.value), hash, "pending", 0.0,
         OrNull(form.fullName), OrNull(form.country), OrNull(form.phone),
         false, Some(code), Some(now + VerificationLifetime), None, None)
  }

  /**
   * `register`: 400 without a username, e-mail or password, 409 when the
   * normalized e-mail is taken (verified or not), 500 with nothing written
   * when the model's constraints refuse the row (a taken username, an
   * e-mail `isEmail` rejects), else the pending user is inserted and the
   * answer is 201, or 500 when the verification e-mail fails.
   */
  function RegisterReply(db: DbState, form: RegisterForm, hash: string, code: string, now: int,
                         isEmail: string -> bool, transportOk: bool): (r: UserReply)
    ensures !Given(form.username) || !Given(form.email) || !Given(form.password) ==> r == UserReply([], 400)
    ensures Given(form.username) && Given(form.email) && Given(form.password)
            ==> var u := PendingUser(db, form, hash, code, now);
                if FindUserByEmail(db.users, NormalizeEmail(form.email.value)).Some? then r == UserReply([], 409)
                else if !SaveAllowed(db.users, None, u, isEmail) then r == UserReply([], 500)
                else r.writes == [InsertUser(u)] && r.status == (if transportOk then 201 else 500)
  {
    if !Given(form.username) || !Given(form.email) || !Given(form.password) then UserReply([], 400)
    else if FindUserByEmail(db.users, NormalizeEmail(form.email.value)).Some? then UserReply([], 409)
    else
      var u := PendingUser(db, form, hash, code, now);
      if !SaveAllowed(db.users, None, u, isEmail) then UserReply([], 500)
      else UserReply([InsertUser(u)], if Delivered(Verification, transportOk) then 201 else 500)
  }

  /** A registered user is pending, unverified and holds the code; the e-mail is normalized. */
  lemma RegisterCreatesPending(db: DbState, form: RegisterForm, hash: string, code: string, now: int,
                               isEmail: string -> bool, transportOk: bool)
    requires RegisterReply(db, form, hash, code, now, isEmail, transportOk).writes != []
    ensures var r := RegisterReply(db, form, hash, code, now, isEmail, transportOk);
            && |r.writes| == 1 && r.writes[0].InsertUser?
            && var u := r.writes[0].user;
            && u.userType == "pending" && !u.emailVerified && u.verificationCode == Some(code)
            && u.verificationExpires == Some(now + VerificationLifetime)
            && u.email == NormalizeEmail(form.email.value) && NormalizeEmail(u.email) == u.email
            && u.userId == db.nextUserId
            && (forall i :: 0 <= i < |db.users| ==> db.users[i].email != u.email)
            && (forall i :: 0 <= i < |db.users| && db.users[i].userId != u.userId ==> db.users[i].username != u.username)
            && isEmail(u.email)
  {
    NormalizeEmailIdempotent(form.email.value);
    var u := PendingUser(db, form, hash, code, now);
    assert FindUserByEmail(db.users, NormalizeEmail(form.email.value)).None?;
    assert SaveAllowed(db.users, None, u, isEmail);
    assert RegisterReply(db, form, hash, code, now, isEmail, transportOk).writes == [InsertUser(u)];
  }

  /** Over a consistent table whose keys are unique, `register` keeps them unique. */
  lemma RegisterKeepsUnique(db: DbState, form: RegisterForm, hash: string, code: string, now: int,
                            isEmail: string -> bool, transportOk: bool)
    requires Consistent(db) && UniqueUsers(db.users)
    ensures UniqueUsers(Apply(db, RegisterReply(db, form, hash, code, now, isEmail, transportOk).writes).users)
  {
    var r := RegisterReply(db, form, hash, code, now, isEmail, transportOk);
    if r.writes != [] {
      RegisterCreatesPending(db, form, hash, code, now, isEmail, transportOk);
      var u := r.writes[0].user;
      ApplySingle(db, r.writes[0]);
      InsertKeepsUnique(db.users, u, isEmail);
    }
  }

  method Register(st: Store, form: RegisterForm, hash: string, code: string, now: int, isEmail: string -> bool,
                  transportOk: bool)
    returns (status: int)
    modifies st
    ensures var r := RegisterReply(old(st.State()), form, hash, code, now, isEmail, transportOk);
            && status == r.status && st.State() == Apply(old(st.State()), r.writes)
            && st.journal == old(st.journal) + r.writes
  {
    ghost var db := st.State();
    if !Given(form.username) || !Given(form.email) || !Given(form.password) {
      return 400;
    }
    var email := NormalizeEmail(form.email.value);
    if FindUserByEmail(st.users, email).Some? {
      return 409;
    }
    var row := PendingUser(st.State(), form, hash, code, now);
    if !SaveAllowed(st.users, None, row, isEmail) {
      return 500;
    }
    var u := st.CreateUser(row);
    ApplySingle(db, InsertUser(u));
    status := if Delivered(Verification, transportOk) then 201 else 500;
  }

  // ---------------------------------------------------------------- login

  /** What `login` answers: the status, and with 200 the user id and the live balance. */
  datatype LoginReply = LoginReply(status: int, userId: Option<int>, balance: Option<real>)

  /**
   * `login`: 400 without e-mail or password, 401 for an unknown e-mail,
   * 403 for an unverified one (before the password is compared), 401 for a
   * wrong password, 500 without a signing secret; else 200 with the derived
   * balance. `matches(password, hash)` is the password comparison.
   */
  function Login(db: DbState, email: Option<string>, password: Option<string>,
                 matches: (string, string) -> bool, secretSet: bool): (r: LoginReply)
  {
    if !Given(email) || !Given(password) then LoginReply(400, None, None)
    else match FindUserByEmail(db.users, NormalizeEmail(email.value))
      case None => LoginReply(401, None, None)
      case Some(k) =>
        var u := db.users[k];
        if !u.emailVerified then LoginReply(403, None, None)
        else if !matches(password.value, u.passwordHash) then LoginReply(401, None, None)
        else if !secretSet then LoginReply(500, None, None)
        else LoginReply(200, Some(u.userId), Some(UserBalance(db.payments, db.orders, u.userId)))
  }

  /**
   * The gate: a session is granted exactly to a known, verified user whose
   * password matches, and an unverified user is refused with 403 whatever
   * the password.
   */
  lemma LoginGate(db: DbState, email: string, password: string, matches: (string, string) -> bool)
    requires email != "" && password != ""
    ensures var r := Login(db, Some(email), Some(password), matches, true);
            var k := FindUserByEmail(db.users, NormalizeEmail(email));
            && (r.status == 200 <==> (k.Some? && db.users[k.value].emailVerified
                                     && matches(password, db.users[k.value].passwordHash)))
            && (r.status == 403 <==> k.Some? && !db.users[k.value].emailVerified)
            && (r.status == 401 <==> k.None? || (db.users[k.value].emailVerified
                                                 && !matches(password, db.users[k.value].passwordHash)))
            && (r.status == 200 ==> r.balance == Some(UserBalance(db.payments, db.orders, db.users[k.value].userId)))
  {
  }

  /** The stored `balance` column is never read: login answers the same whatever it holds. */
  lemma LoginIgnoresStoredBalance(db: DbState, email: Option<string>, password: Option<string>,
                                  matches: (string, string) -> bool, secretSet: bool, f: int -> real)
    ensures Login(db.(users := Rebalanced(db.users, f)), email, password, matches, secretSet)
         == Login(db, email, password, matches, secretSet)
  {
    if Given(email) {
      FindUserByEmailRebalanced(db.users, f, NormalizeEmail(email.value));
    }
  }

  // --------------------------------------------------------- verify e-mail

  /**
   * `verifyEmail`: 400 unless the e-mail and code are given, the user exists
   * with a stored code and expiry, the code matches and `now` is not past
   * the expiry; then the user is verified, promoted to `registered`, and the
   * code and expiry are cleared.
   */
  function VerifyEmailReply(db: DbState, email: Option<string>, code: Option<string>, now: int): (r: UserReply)
    ensures r.status == 200 || r.status == 400
    ensures r.writes == [] <==> r.status == 400
  {
    if !Given(email) || !Given(code) then UserReply([], 400)
    else match FindUserByEmail(db.users, NormalizeEmail(email.value))
      case None => UserReply([], 400)
      case Some(k) =>
        var u := db.users[k];
        if !Given(u.verificationCode) || u.verificationExpires.None? then UserReply([], 400)
        else if u.verificationCode.value != code.value || now > u.verificationExpires.value then UserReply([], 400)
        else UserReply([SaveUser(u.(emailVerified := true, verificationCode := None, verificationExpires := None,
                                    userType := "registered"))], 200)
  }

  /** Verification succeeds exactly on the stored, unexpired code, and then consumes it. */
  lemma VerifyEmailSucceedsIff(db: DbState, email: string, code: string, now: int)
    requires email != "" && code != ""
    ensures var r := VerifyEmailReply(db, Some(email), Some(code), now);
            var k := FindUserByEmail(db.users, NormalizeEmail(email));
            && (r.status == 200 <==> (k.Some? && db.users[k.value].verificationCode == Some(code)
                                     && db.users[k.value].verificationExpires.Some?
                                     && now <= db.users[k.value].verificationExpires.value))
            && (r.status == 200 ==> r.writes == [SaveUser(db.users[k.value].(emailVerified := true,
                                        verificationCode := None, verificationExpires := None,
                                        userType := "registered"))])
  {
  }

  /**
   * After a successful verification the same e-mail cannot be verified
   * again, with any code at any time (user ids unique).
   */
  lemma VerifyEmailOnce(db: DbState, email: string, code: string, now: int, code2: Option<string>, later: int)
    requires forall i, j :: 0 <= i < j < |db.users| ==> db.users[i].userId != db.users[j].userId
    requires VerifyEmailReply(db, Some(email), Some(code), now).status == 200
    ensures var after := Apply(db, VerifyEmailReply(db, Some(email), Some(code), now).writes);
            VerifyEmailReply(after, Some(email), code2, later).status == 400
  {
    var k := FindUserByEmail(db.users, NormalizeEmail(email)).value;
    var r := VerifyEmailReply(db, Some(email), Some(code), now);
    var u := r.writes[0].user;
    ApplySingle(db, r.writes[0]);
    var after := Apply(db, r.writes);
    SavedUserFound(db.users, k, u, NormalizeEmail(email));
  }

  /**
   * Saving row `k` without changing its id or e-mail keeps it the row found
   * by that e-mail, and it holds the saved value (user ids unique).
   */
  lemma SavedUserFound(users: seq<User>, k: nat, u: User, email: string)
    requires forall i, j :: 0 <= i < j < |users| ==> users[i].userId != users[j].userId
    requires FindUserByEmail(users, email) == Some(k)
    requires u.userId == users[k].userId && u.email == users[k].email
    ensures FindUserByEmail(ReplaceUser(users, u), email) == Some(k)
    ensures ReplaceUser(users, u)[k] == u
  {
    var r := ReplaceUser(users, u);
    assert forall i :: 0 <= i < |users| && i != k ==> r[i] == users[i];
    var f := FindUserByEmail(r, email);
    assert r[k].email == email;
    assert f.Some? && f.value <= k;
  }

  method VerifyEmail(st: Store, email: Option<string>, code: Option<string>, now: int) returns (status: int)
    modifies st
    ensures var r := VerifyEmailReply(old(st.State()), email, code, now);
            && status == r.status && st.State() == Apply(old(st.State()), r.writes)
            && st.journal == old(st.journal) + r.writes
  {
    ghost var db := st.State();
    if !Given(email) || !Given(code) {
      return 400;
    }
    var k := FindUserByEmail(st.users, NormalizeEmail(email.value));
    if k.None? {
      return 400;
    }
    var user := st.users[k.value];
    if !Given(user.verificationCode) || user.verificationExpires.None? {
      return 400;
    }
    if user.verificationCode.value != code.value || now > user.verificationExpires.value {
      return 400;
    }
    user := user.(emailVerified := true);
    user := user.(verificationCode := None, verificationExpires := None);
    user := user.(userType := "registered");
    st.UpdateUser(user);
    ApplySingle(db, SaveUser(user));
    return 200;
  }

  // ------------------------------------------------------- password reset

  /**
   * `requestPasswordReset`: 400 without an e-mail; an unknown e-mail gets
   * the same 200 as a known one; a known user gets a reset code valid for
   * 15 minutes, and 500 when the reset e-mail fails.
   */
  function RequestPasswordResetReply(db: DbState, email: Option<string>, code: string, now: int,
                                     transportOk: bool): (r: UserReply)
  {
    if !Given(email) then UserReply([], 400)
    else match FindUserByEmail(db.users, NormalizeEmail(email.value))
      case None => UserReply([], 200)
      case Some(k) =>
        var u := db.users[k].(resetCode := Some(code), resetExpires := Some(now + ResetLifetime));
        UserReply([SaveUser(u)], if Delivered(PasswordReset, transportOk) then 200 else 500)
  }

  /** The reply does not tell whether the e-mail is registered, and a known user gets a fresh code. */
  lemma ResetRequestUniform(db: DbState, email: string, code: string, now: int)
    requires email != ""
    ensures var r := RequestPasswordResetReply(db, Some(email), code, now, true);
            var k := FindUserByEmail(db.users, NormalizeEmail(email));
            && r.status == 200
            && (k.None? ==> r.writes == [])
            && (k.Some? ==> r.writes == [SaveUser(db.users[k.value].(resetCode := Some(code),
                                                                     resetExpires := Some(now + ResetLifetime)))])
  {
  }

  method RequestPasswordReset(st: Store, email: Option<string>, code: string, now: int, transportOk: bool)
    returns (status: int)
    modifies st
    ensures var r := RequestPasswordResetReply(old(st.State()), email, code, now, transportOk);
            && status == r.status && st.State() == Apply(old(st.State()), r.writes)
            && st.journal == old(st.journal) + r.writes
  {
    ghost var db := st.State();
    if !Given(email) {
      return 400;
    }
    var k := FindUserByEmail(st.users, NormalizeEmail(email.value));
    if k.None? {
      return 200;
    }
    var user := st.users[k.value];
    user := user.(resetCode := Some(code));
    user := user.(resetExpires := Some(now + ResetLifetime));
    st.UpdateUser(user);
    ApplySingle(db, SaveUser(user));
    status := if Delivered(PasswordReset, transportOk) then 200 else 500;
  }

  /**
   * `resetPassword`: 400 unless the e-mail, code and new password are given,
   * the user has a stored code and expiry, the code matches and `now` is not
   * past the expiry; then the new hash is stored and the code cleared.
   */
  function ResetPasswordReply(db: DbState, email: Option<string>, code: Option<string>, newPassword: Option<string>,
                              newHash: string, now: int): (r: UserReply)
    ensures r.status == 200 || r.status == 400
    ensures r.writes == [] <==> r.status == 400
  {
    if !Given(email) || !Given(code) || !Given(newPassword) then UserReply([], 400)
    else match FindUserByEmail(db.users, NormalizeEmail(email.value))
      case None => UserReply([], 400)
      case Some(k) =>
        var u := db.users[k];
        if !Given(u.resetCode) || u.resetExpires.None? then UserReply([], 400)
        else if u.resetCode.value != code.value || now > u.resetExpires.value then UserReply([], 400)
        else UserReply([SaveUser(u.(passwordHash := newHash, resetCode := None, resetExpires := None))], 200)
  }

  /** The reset succeeds exactly on the stored, unexpired code. */
  lemma ResetPasswordSucceedsIff(db: DbState, email: string, code: string, newPassword: string, newHash: string, now: int)
    requires email != "" && code != "" && newPassword != ""
    ensures var r := ResetPasswordReply(db, Some(email), Some(code), Some(newPassword), newHash, now);
            var k := FindUserByEmail(db.users, NormalizeEmail(email));
            && (r.status == 200 <==> (k.Some? && db.users[k.value].resetCode == Some(code)
                                     && db.users[k.value].resetExpires.Some?
                                     && now <= db.users[k.value].resetExpires.value))
            && (r.status == 200 ==> r.writes == [SaveUser(db.users[k.value].(passwordHash := newHash,
                                                                              resetCode := None, resetExpires := None))])
  {
  }

  /** A reset code works at most once (user ids unique). */
  lemma ResetPasswordOnce(db: DbState, email: string, code: string, newPassword: string, newHash: string, now: int,
                          code2: Option<string>, password2: Option<string>, hash2: string, later: int)
    requires forall i, j :: 0 <= i < j < |db.users| ==> db.users[i].userId != db.users[j].userId
    requires ResetPasswordReply(db, Some(email), Some(code), Some(newPassword), newHash, now).status == 200
    ensures var after := Apply(db, ResetPasswordReply(db, Some(email), Some(code), Some(newPassword), newHash, now).writes);
            ResetPasswordReply(after, Some(email), code2, password2, hash2, later).status == 400
  {
    var k := FindUserByEmail(db.users, NormalizeEmail(email)).value;
    var r := ResetPasswordReply(db, Some(email), Some(code), Some(newPassword), newHash, now);
    ApplySingle(db, r.writes[0]);
    SavedUserFound(db.users, k, r.writes[0].user, NormalizeEmail(email));
  }

  method ResetPassword(st: Store, email: Option<string>, code: Option<string>, newPassword: Option<string>,
                       newHash: string, now: int) returns (status: int)
    modifies st
    ensures var r := ResetPasswordReply(old(st.State()), email, code, newPassword, newHash, now);
            && status == r.status && st.State() == Apply(old(st.State()), r.writes)
            && st.journal == old(st.journal) + r.writes
  {
    ghost var db := st.State();
    if !Given(email) || !Given(code) || !Given(newPassword) {
      return 400;
    }
    var k := FindUserByEmail(st.users, NormalizeEmail(email.value));
    if k.None? {
      return 400;
    }
    var user := st.users[k.value];
    if !Given(user.resetCode) || user.resetExpires.None? {
      return 400;
    }
    if user.resetCode.value != code.value || now > user.resetExpires.value {
      return 400;
    }
    user := user.(passwordHash := newHash);
    user := user.(resetCode := None, resetExpires := None);
    st.UpdateUser(user);
    ApplySingle(db, SaveUser(user));
    return 200;
  }

  // ------------------------------------------------- resend verification

  /** The e-mail `resendVerificationEmail` acts on: the body's if given, else the query's, else none. */
  function RequestedEmail(bodyEmail: Option<string>, queryEmail: Option<string>): (r: string)
    ensures r == "" <==> !Given(bodyEmail) && !Given(queryEmail)
    ensures Given(bodyEmail) ==> r == bodyEmail.value
  {
    if Given(bodyEmail) then bodyEmail.value else if Given(queryEmail) then queryEmail.value else ""
  }

  /**
   * `resendVerificationEmail`: the e-mail comes from the body, else the
   * query; 400 when neither is given; an unknown e-mail gets the same 200 as
   * a known one; 400 for a verified user; otherwise a new code valid for 24
   * hours, and 500 when the e-mail fails.
   */
  function ResendVerificationReply(db: DbState, bodyEmail: Option<string>, queryEmail: Option<string>, code: string,
                                   now: int, transportOk: bool): (r: UserReply)
  {
    var email := NormalizeEmail(RequestedEmail(bodyEmail, queryEmail));
    if email == "" then UserReply([], 400)
    else match FindUserByEmail(db.users, email)
      case None => UserReply([], 200)
      case Some(k) =>
        if db.users[k].emailVerified then UserReply([], 400)
        else
          var u := db.users[k].(verificationCode := Some(code), verificationExpires := Some(now + VerificationLifetime));
          UserReply([SaveUser(u)], if Delivered(Verification, transportOk) then 200 else 500)
  }

  /**
   * Without an e-mail the answer is 400; an unknown e-mail is answered 200
   * like a known unverified one, so the reply does not reveal who is
   * registered; a verified user gets 400 and no new code; an unverified one
   * gets exactly the new code and expiry.
   */
  lemma ResendUniform(db: DbState, bodyEmail: Option<string>, queryEmail: Option<string>, code: string,
                      now: int, transportOk: bool)
    ensures var email := NormalizeEmail(RequestedEmail(bodyEmail, queryEmail));
            var r := ResendVerificationReply(db, bodyEmail, queryEmail, code, now, transportOk);
            var k := FindUserByEmail(db.users, email);
            && (email == "" ==> r == UserReply([], 400))
            && (email != "" && k.None? ==> r == UserReply([], 200))
            && (email != "" && k.Some? && db.users[k.value].emailVerified ==> r == UserReply([], 400))
            && (email != "" && k.Some? && !db.users[k.value].emailVerified
                ==> r.status == (if transportOk then 200 else 500)
                    && r.writes == [SaveUser(db.users[k.value].(verificationCode := Some(code),
                                                   verificationExpires := Some(now + VerificationLifetime)))])
  {
  }

  method ResendVerificationEmail(st: Store, bodyEmail: Option<string>, queryEmail: Option<string>, code: string,
                                 now: int, transportOk: bool) returns (status: int)
    modifies st
    ensures var r := ResendVerificationReply(old(st.State()), bodyEmail, queryEmail, code, now, transportOk);
            && status == r.status && st.State() == Apply(old(st.State()), r.writes)
            && st.journal == old(st.journal) + r.writes
  {
    ghost var db := st.State();
    var email := NormalizeEmail(RequestedEmail(bodyEmail, queryEmail));
    if email == "" {
      return 400;
    }
    var k := FindUserByEmail(st.users, email);
    if k.None? {
      return 200;
    }
    var user := st.users[k.value];
    if user.emailVerified {
      return 400;
    }
    user := user.(verificationCode := Some(code), verificationExpires := Some(now + VerificationLifetime));
    st.UpdateUser(user);
    ApplySingle(db, SaveUser(user));
    status := if Delivered(Verification, transportOk) then 200 else 500;
  }

  // ------------------------------------------------------------ life cycle

  /**
   * Register, then verify with the mailed code within 24 hours, then log in
   * with a matching password: the user is answered 200; logging in before
   * the verification is answered 403.
   */
  lemma RegisterVerifyLogin(db: DbState, form: RegisterForm, hash: string, code: string, now: int, later: int,
                            isEmail: string -> bool, matches: (string, string) -> bool)
    requires Consistent(db)
    requires code != "" && now <= later <= now + VerificationLifetime
    requires RegisterReply(db, form, hash, code, now, isEmail, true).writes != []
    requires matches(form.password.value, hash)
    ensures var db1 := Apply(db, RegisterReply(db, form, hash, code, now, isEmail, true).writes);
            var db2 := Apply(db1, VerifyEmailReply(db1, form.email, Some(code), later).writes);
            && Login(db1, form.email, form.password, matches, true).status == 403
            && VerifyEmailReply(db1, form.email, Some(code), later).status == 200
            && Login(db2, form.email, form.password, matches, true).status == 200
  {
    var u := PendingUser(db, form, hash, code, now);
    var e := NormalizeEmail(form.email.value);
    RegisteredRowFound(db, form, hash, code, now, isEmail);
    var db1 := Apply(db, RegisterReply(db, form, hash, code, now, isEmail, true).writes);
    assert Login(db1, form.email, form.password, matches, true).status == 403;
    VerifiedRowFound(db1, db.users, u, form.email.value, code, later);
  }

  /** After `register` the pending row is the last one, found by the normalized e-mail. */
  lemma RegisteredRowFound(db: DbState, form: RegisterForm, hash: string, code: string, now: int,
                           isEmail: string -> bool)
    requires Consistent(db)
    requires RegisterReply(db, form, hash, code, now, isEmail, true).writes != []
    ensures var u := PendingUser(db, form, hash, code, now);
            var db1 := Apply(db, RegisterReply(db, form, hash, code, now, isEmail, true).writes);
            && db1.users == db.users + [u]
            && FindUserByEmail(db1.users, NormalizeEmail(form.email.value)) == Some(|db.users|)
            && (forall i :: 0 <= i < |db.users| ==> db.users[i].userId != u.userId)
  {
    RegisterCreatesPending(db, form, hash, code, now, isEmail, true);
    var r := RegisterReply(db, form, hash, code, now, isEmail, true);
    ApplySingle(db, r.writes[0]);
    FindUserByEmailAppend(db.users, r.writes[0].user);
  }

  /** Verifying the last row with its stored, unexpired code answers 200 and leaves it verified and found. */
  lemma VerifiedRowFound(db1: DbState, us: seq<User>, u: User, email: string, code: string, later: int)
    requires email != "" && code != ""
    requires db1.users == us + [u] && FindUserByEmail(db1.users, NormalizeEmail(email)) == Some(|us|)
    requires forall i :: 0 <= i < |us| ==> us[i].userId != u.userId
    requires u.verificationCode == Some(code) && u.verificationExpires.Some? && later <= u.verificationExpires.value
    ensures var v := VerifyEmailReply(db1, Some(email), Some(code), later);
            var db2 := Apply(db1, v.writes);
            && v.status == 200
            && FindUserByEmail(db2.users, NormalizeEmail(email)) == Some(|us|)
            && db2.users[|us|] == u.(emailVerified := true, verificationCode := None, verificationExpires := None,
                                     userType := "registered")
  {
    var v := VerifyEmailReply(db1, Some(email), Some(code), later);
    assert (us + [u])[|us|] == u;
    assert v.status == 200;
    var u2 := v.writes[0].user;
    ApplySingle(db1, v.writes[0]);
    ReplaceUserFresh(us, u, u2);
    assert forall i :: 0 <= i < |us| ==> (us + [u])[i] == us[i];
    FindUserByEmailAppend(us, u2);
  }

  // ---------------------------------------------------------- admin edits

  /**
   * The fields of an `updateUser` body. A truthy `username`, `email` or
   * `userType` replaces the stored one; `balance`, `country`, `phone` and
   * `fullName` replace it whenever present (`Some(None)` is an explicit null).
   */
  datatype UserPatch = UserPatch(
    username: Option<string>,
    email: Option<string>,
    userType: Option<string>,
    balance: Option<real>,
    country: Option<Option<string>>,
    phone: Option<Option<string>>,
    fullName: Option<Option<string>>)

  /** The user after `updateUser`'s assignments. */
  function Patched(u: User, p: UserPatch): (v: User)
    ensures v.email == (if Given(p.email) then NormalizeEmail(p.email.value) else u.email)
    ensures v.username == (if Given(p.username) then p.username.value else u.username)
    ensures v.userType == (if Given(p.userType) then p.userType.value else u.userType)
    ensures v.balance == p.balance.GetOr(u.balance)
    ensures v.country == p.country.GetOr(u.country)
    ensures v.phone == p.phone.GetOr(u.phone)
    ensures v.fullName == p.fullName.GetOr(u.fullName)
    ensures v.(email := u.email, username := u.username, userType := u.userType, balance := u.balance,
               country := u.country, phone := u.phone, fullName := u.fullName) == u
  {
    u.(email := if Given(p.email) then NormalizeEmail(p.email.value) else u.email,
       username := if Given(p.username) then p.username.value else u.username,
       userType := if Given(p.userType) then p.userType.value else u.userType,
       balance := p.balance.GetOr(u.balance),
       country := p.country.GetOr(u.country),
       phone := p.phone.GetOr(u.phone),
       fullName := p.fullName.GetOr(u.fullName))
  }

  /** An empty body saves the user unchanged. */
  lemma EmptyPatchKeeps(u: User)
    ensures Patched(u, UserPatch(None, None, None, None, None, None, None)) == u
  {
  }

  /**
   * `updateUser`: 404 for an unknown id, 500 with nothing written when the
   * model's constraints refuse a changed username or e-mail, else the
   * patched user is saved.
   */
  function UpdateUserReply(db: DbState, id: int, p: UserPatch, isEmail: string -> bool): (r: UserReply)
    ensures FindUser(db.users, id).None? <==> r == UserReply([], 404)
    ensures FindUser(db.users, id).Some? ==>
              var u := db.users[FindUser(db.users, id).value];
              if SaveAllowed(db.users, Some(u), Patched(u, p), isEmail)
              then r == UserReply([SaveUser(Patched(u, p))], 200)
              else r == UserReply([], 500)
  {
    match FindUser(db.users, id)
    case None => UserReply([], 404)
    case Some(k) =>
      var v := Patched(db.users[k], p);
      if SaveAllowed(db.users, Some(db.users[k]), v, isEmail) then UserReply([SaveUser(v)], 200)
      else UserReply([], 500)
  }

  method UpdateUser(st: Store, id: int, p: UserPatch, isEmail: string -> bool) returns (status: int)
    modifies st
    ensures var r := UpdateUserReply(old(st.State()), id, p, isEmail);
            && status == r.status && st.State() == Apply(old(st.State()), r.writes)
            && st.journal == old(st.journal) + r.writes
  {
    ghost var db := st.State();
    var k := FindUser(st.users, id);
    if k.None? {
      return 404;
    }
    var user := st.users[k.value];
    ghost var v := Patched(user, p);
    if Given(p.email) { user := user.(email := NormalizeEmail(p.email.value)); }
    if Given(p.username) { user := user.(username := p.username.value); }
    assert user == st.users[k.value].(email := v.email, username := v.username);
    if Given(p.userType) { user := user.(userType := p.userType.value); }
    if p.balance.Some? { user := user.(balance := p.balance.value); }
    assert user == st.users[k.value].(email := v.email, username := v.username, userType := v.userType,
                                      balance := v.balance);
    if p.country.Some? { user := user.(country := p.country.value); }
    if p.phone.Some? { user := user.(phone := p.phone.value); }
    if p.fullName.Some? { user := user.(fullName := p.fullName.value); }
    assert user == v;
    if !SaveAllowed(st.users, Some(st.users[k.value]), user, isEmail) {
      return 500;
    }
    st.UpdateUser(user);
    ApplySingle(db, SaveUser(user));
    return 200;
  }

  /** Over a table whose keys are unique, `updateUser` keeps them unique. */
  lemma UpdateUserKeepsUnique(db: DbState, id: int, p: UserPatch, isEmail: string -> bool)
    requires UniqueUsers(db.users)
    ensures UniqueUsers(Apply(db, UpdateUserReply(db, id, p, isEmail).writes).users)
  {
    var r := UpdateUserReply(db, id, p, isEmail);
    if r.writes != [] {
      var k := FindUser(db.users, id).value;
      ApplySingle(db, r.writes[0]);
      SaveKeepsUnique(db.users, k, Patched(db.users[k], p), isEmail);
    }
  }

  /** `updateType`: 400 without a type (before the lookup), 404 for an unknown id, else the type is saved. */
  function UpdateTypeReply(db: DbState, id: int, userType: Option<string>): (r: UserReply)
    ensures !Given(userType) ==> r == UserReply([], 400)
    ensures Given(userType) && FindUser(db.users, id).None? ==> r == UserReply([], 404)
    ensures Given(userType) && FindUser(db.users, id).Some?
            ==> r == UserReply([SaveUser(db.users[FindUser(db.users, id).value].(userType := userType.value))], 200)
  {
    if !Given(userType) then UserReply([], 400)
    else match FindUser(db.users, id)
      case None => UserReply([], 404)
      case Some(k) => UserReply([SaveUser(db.users[k].(userType := userType.value))], 200)
  }

  /** Setting a type is `updateUser` with only that field. */
  lemma UpdateTypeIsPatch(db: DbState, id: int, t: string, isEmail: string -> bool)
    requires t != ""
    ensures UpdateTypeReply(db, id, Some(t))
            == UpdateUserReply(db, id, UserPatch(None, None, Some(t), None, None, None, None), isEmail)
  {
  }

  method UpdateType(st: Store, id: int, userType: Option<string>) returns (status: int)
    modifies st
    ensures var r := UpdateTypeReply(old(st.State()), id, userType);
            && status == r.status && st.State() == Apply(old(st.State()), r.writes)
            && st.journal == old(st.journal) + r.writes
  {
    ghost var db := st.State();
    if !Given(userType) {
      return 400;
    }
    var k := FindUser(st.users, id);
    if k.None? {
      return 404;
    }
    var user := st.users[k.value].(userType := userType.value);
    st.UpdateUser(user);
    ApplySingle(db, SaveUser(user));
    return 200;
  }

  // ------------------------------------------------------------ admin list

  /** One row of the admin user list. */
  datatype AdminUserRow = AdminUserRow(
    userId: int,
    email: string,
    country: Option<string>,
    userType: string,
    totalPayments: nat,
    totalPaymentsAmount: real,
    completedOrders: nat,
    completedOrdersAmount: real)

  /** `COUNT(payment_id)` of the user's approved payments. */
  function ApprovedCount(ps: seq<Payment>, uid: int): (n: nat)
    ensures n <= |ps|
  {
    if ps == [] then 0
    else (if ps[0].userId == uid && ps[0].status == "approved" then 1 else 0) + ApprovedCount(ps[1..], uid)
  }

  /** `SUM(amount)` of the user's approved payments: the charged amount, not the credited one. */
  function ApprovedAmount(ps: seq<Payment>, uid: int): real {
    if ps == [] then 0.0
    else (if ps[0].userId == uid && ps[0].status == "approved" then ps[0].amount else 0.0) + ApprovedAmount(ps[1..], uid)
  }

  /** `COUNT(order_id)` of the user's completed orders. */
  function CompletedCount(os: seq<Order>, uid: int): (n: nat)
    ensures n <= |os|
  {
    if os == [] then 0
    else (if os[0].userId == uid && os[0].status == Completed then 1 else 0) + CompletedCount(os[1..], uid)
  }

  function AdminUserRowOf(db: DbState, u: User): AdminUserRow {
    AdminUserRow(u.userId, u.email, u.country, u.userType,
                 ApprovedCount(db.payments, u.userId), ApprovedAmount(db.payments, u.userId),
                 CompletedCount(db.orders, u.userId), ChargeSum(db.orders, u.userId))
  }

  /**
   * `adminList`: one row per user with the user's payment and order totals,
   * newest table row first (`created_at DESC`, the table growing by insertion).
   */
  function AdminUserList(db: DbState): (rows: seq<AdminUserRow>)
    ensures |rows| == |db.users|
    ensures forall i :: 0 <= i < |rows| ==> rows[i] == AdminUserRowOf(db, db.users[|db.users| - 1 - i])
  {
    seq(|db.users|, i requires 0 <= i < |db.users| => AdminUserRowOf(db, db.users[|db.users| - 1 - i]))
  }

  /** User ids ascend along the table. */
  predicate UsersAscending(us: seq<User>) {
    forall i, j :: 0 <= i < j < |us| ==> us[i].userId < us[j].userId
  }

  /** Over a table whose ids ascend, the newest user comes first and the ids descend down the list. */
  lemma AdminUserListDescending(db: DbState)
    requires UsersAscending(db.users)
    ensures var rows := AdminUserList(db);
            forall i, j :: 0 <= i < j < |rows| ==> rows[i].userId > rows[j].userId
  {
  }

  /** Inserting a user under the next id keeps the ids ascending. */
  lemma InsertKeepsUsersAscending(db: DbState, u: User)
    requires Consistent(db) && UsersAscending(db.users) && u.userId == db.nextUserId
    ensures UsersAscending(Apply1(db, InsertUser(u)).users)
  {
  }

  /** A user without approved payments and without completed orders gets zero counts and amounts. */
  lemma {:induction false} NoActivityZeroRow(db: DbState, u: User)
    requires forall i :: 0 <= i < |db.payments| ==> db.payments[i].userId != u.userId || db.payments[i].status != "approved"
    requires forall i :: 0 <= i < |db.orders| ==> db.orders[i].userId != u.userId || db.orders[i].status != Completed
    ensures var row := AdminUserRowOf(db, u);
            row.totalPayments == 0 && row.totalPaymentsAmount == 0.0 && row.completedOrders == 0
            && row.completedOrdersAmount == 0.0
  {
    PaymentTotalsZero(db.payments, u.userId);
    OrderTotalsZero(db.orders, u.userId);
  }

  lemma {:induction false} PaymentTotalsZero(ps: seq<Payment>, uid: int)
    requires forall i :: 0 <= i < |ps| ==> ps[i].userId != uid || ps[i].status != "approved"
    ensures ApprovedCount(ps, uid) == 0 && ApprovedAmount(ps, uid) == 0.0
  {
    if ps != [] {
      assert forall i :: 0 <= i < |ps[1..]| ==> ps[1..][i] == ps[i + 1];
      PaymentTotalsZero(ps[1..], uid);
    }
  }

  lemma {:induction false} OrderTotalsZero(os: seq<Order>, uid: int)
    requires forall i :: 0 <= i < |os| ==> os[i].userId != uid || os[i].status != Completed
    ensures CompletedCount(os, uid) == 0 && ChargeSum(os, uid) == 0.0
  {
    if os != [] {
      assert forall i :: 0 <= i < |os[1..]| ==> os[1..][i] == os[i + 1];
      OrderTotalsZero(os[1..], uid);
    }
  }

  /**
   * When every approved payment of the user credited exactly what it
   * charged, the row's payments minus its orders is the derived balance;
   * an approved IMEI purchase (no credited amount) widens the gap by its
   * amount.
   */
  lemma {:induction false} AdminTotalsVersusBalance(ps: seq<Payment>, uid: int)
    requires forall i :: (0 <= i < |ps| && ps[i].userId == uid && ps[i].status == "approved")
                         ==> ps[i].creditedAmount == Some(ps[i].amount)
    ensures ApprovedAmount(ps, uid) == CreditSum(ps, uid)
  {
    if ps != [] {
      assert forall i :: 0 <= i < |ps[1..]| ==> ps[1..][i] == ps[i + 1];
      AdminTotalsVersusBalance(ps[1..], uid);
    }
  }

  /** An approved payment without a credited amount counts in the admin total but not in the balance. */
  lemma UncreditedCountsOnlyInAdminTotal(ps: seq<Payment>, os: seq<Order>, p: Payment)
    requires p.status == "approved" && p.creditedAmount.None?
    ensures ApprovedAmount(ps + [p], p.userId) == ApprovedAmount(ps, p.userId) + p.amount
    ensures UserBalance(ps + [p], os, p.userId) == UserBalance(ps, os, p.userId)
  {
    ApprovedAmountConcat(ps, [p], p.userId);
    CreditSumConcat(ps, [p], p.userId);
  }

  lemma {:induction false} ApprovedAmountConcat(ps: seq<Payment>, qs: seq<Payment>, uid: int)
    ensures ApprovedAmount(ps + qs, uid) == ApprovedAmount(ps, uid) + ApprovedAmount(qs, uid)
  {
    if ps == [] {
      assert ps + qs == qs;
    } else {
      assert (ps + qs)[1..] == ps[1..] + qs;
      ApprovedAmountConcat(ps[1..], qs, uid);
    }
  }
}
