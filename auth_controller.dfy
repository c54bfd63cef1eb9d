/** The credential lifecycle (backend/controllers/auth.controller.js): each
    handler is one atomic step over the users collection, the response and
    the e-mail it tries to send. */
module AuthController {
  import opened Base
  import opened JsText
  import Bcrypt
  import Jwt
  import opened UserModel
  import opened Http
  import opened SessionCookie

  /** `24 * 60 * 60 * 1000`: how long a verification code lives. */
  const CODE_LIFETIME_MS: nat := 24 * 60 * 60 * 1000
  /** `1 * 60 * 60 * 1000`: how long a reset token lives. */
  const RESET_LIFETIME_MS: nat := 1 * 60 * 60 * 1000
  /** `crypto.randomBytes(20)`. */
  const RESET_TOKEN_BYTES: nat := 20

  const ALL_FIELDS_REQUIRED := "All fields are required"
  const USER_EXISTS := "User already exists"
  const INVALID_CREDENTIALS := "Invalid email or password"
  const INVALID_CODE := "Invalid or expired verification token"
  const INVALID_RESET := "Invalid or expired reset token"
  const USER_NOT_FOUND := "User not found"
  /** What bcryptjs throws when `bcrypt.hash` gets no password. */
  const HASH_ILLEGAL_ARGUMENTS := "Illegal arguments: undefined, number"

  /** Whether the mail transport accepted a message; a rejection is thrown
      by the send helper as `Failed to send ...: <reason>`. */
  datatype MailOutcome = Delivered | Rejected(reason: string)

  /** The e-mail a handler tries to send. */
  datatype Email =
    | VerificationEmail(to: string, code: string)
    | WelcomeEmail(to: string, name: string)
    | ResetRequestEmail(to: string, resetUrl: string)
    | ResetSuccessEmail(to: string)

  // ---------------------------------------------------------------------
  // Codes and tokens

  /** Six decimal digits, the first of them not zero. */
  predicate IsVerificationCode(s: string)
  {
    |s| == 6 && (forall i :: 0 <= i < |s| ==> IsAsciiDigit(s[i])) && s[0] != '0'
  }

  /** Forty lower-case hexadecimal digits. */
  predicate IsResetToken(s: string)
  {
    |s| == 2 * RESET_TOKEN_BYTES && forall i :: 0 <= i < |s| ==> IsLowerHexDigit(s[i])
  }

  /** `Math.floor(100000 + Math.random() * 900000).toString()`, where the
      random draw picks the integer part `draw % 900000`. */
  function VerificationCode(draw: nat): (code: string)
    ensures IsVerificationCode(code)
    ensures DecimalValue(code) == 100000 + draw % 900000
    ensures 100000 <= DecimalValue(code) <= 999999
  {
    var n := 100000 + draw % 900000;
    DecimalLength(n, 5);
    DecimalRoundTrip(n);
    DecimalString(n)
  }

  /** `crypto.randomBytes(20).toString('hex')`. */
  function ResetToken(random: seq<Byte>): (token: string)
    requires |random| == RESET_TOKEN_BYTES
    ensures IsResetToken(token)
    ensures Unhex(token) == random
  {
    HexRoundTrip(random);
    Hex(random)
  }

  /** `${process.env.CLIENT_URL}/reset-password/${resetToken}`. */
  function ResetUrl(clientUrl: string, token: string): (url: string)
    ensures |url| == |clientUrl| + |"/reset-password/"| + |token|
    ensures url[..|clientUrl|] == clientUrl
    ensures url[|url| - |token|..] == token
  {
    clientUrl + "/reset-password/" + token
  }

  // ---------------------------------------------------------------------
  // The users collection

  /** What the controller keeps true of every document besides the schema:
      a code or token is present exactly together with its expiry, has the
      shape its generator gives it, and a verified user has no code left. */
  predicate WellFormed(u: User)
  {
    && Conforms(u)
    && (u.verificationToken.Some? <==> u.verificationTokenExpiresAt.Some?)
    && (u.verificationToken.Some? ==> IsVerificationCode(u.verificationToken.value))
    && (u.resetPasswordToken.Some? <==> u.resetPasswordExpiresAt.Some?)
    && (u.resetPasswordToken.Some? ==> IsResetToken(u.resetPasswordToken.value))
    && (u.isVerified ==> u.verificationToken.None?)
  }

  /** The collection invariant: ids are insertion positions, emails are unique. */
  predicate StoreInvariant(users: seq<User>)
  {
    && EmailsUnique(users)
    && forall i :: 0 <= i < |users| ==> users[i].id == i && WellFormed(users[i])
  }

  class UserCollection {
    var users: seq<User>

    ghost predicate Valid()
      reads this
    {
      StoreInvariant(users)
    }

    constructor ()
      ensures Valid() && users == []
    {
      users := [];
    }

    /** `new User({...}).save()` of a new document. */
    method Insert(u: User)
      requires Valid()
      requires u.id == |users| && WellFormed(u)
      requires forall i :: 0 <= i < |users| ==> users[i].email != u.email
      modifies this
      ensures Valid()
      ensures users == old(users) + [u]
    {
      users := users + [u];
    }

    /** `user.save()` of a loaded document: writes it back, stamped as
      `Saved` says. */
    method Save(u: User, now: Millis)
      requires Valid()
      requires u.id < |users| && u.email == users[u.id].email && WellFormed(u)
      modifies this
      ensures Valid()
      ensures users == old(users)[u.id := Saved(old(users)[u.id], u, now)]
    {
      users := users[u.id := Saved(users[u.id], u, now)];
    }
  }

  /** The document `save` stores for a loaded document `stored` whose
      fields were set to those of `u`: Mongoose's timestamps move
      `updatedAt` to the save time only when some field was modified. */
  function Saved(stored: User, u: User, now: Millis): (v: User)
    ensures v.(updatedAt := u.updatedAt) == u
    ensures v.updatedAt == if u == stored then stored.updatedAt else now
  {
    if u == stored then u else u.(updatedAt := now)
  }

  /** The first document in collection order that satisfies `p`: what
      `findOne` returns. */
  function First(users: seq<User>, p: User -> bool): (r: Option<nat>)
    ensures r.Some? ==> r.value < |users| && p(users[r.value])
    ensures r.Some? ==> forall j :: 0 <= j < r.value ==> !p(users[j])
    ensures r.None? ==> forall j :: 0 <= j < |users| ==> !p(users[j])
  {
    if users == [] then None
    else if p(users[0]) then Some(0)
    else match First(users[1..], p)
      case None => None
      case Some(k) => Some(k + 1)
  }

  /** The filter `{ email }`; an absent email is the `null` filter, which
      no stored user matches. */
  predicate HasEmail(u: User, email: Option<string>)
  {
    email == Some(u.email)
  }

  /** The filter `{ verificationToken: code, verificationTokenExpiresAt: { $gt: now } }`. */
  predicate CodeMatches(u: User, code: Option<string>, now: Millis)
  {
    u.verificationToken == code &&
    u.verificationTokenExpiresAt.Some? && u.verificationTokenExpiresAt.value > now
  }

  /** The filter `{ resetPasswordToken: token, resetPasswordExpiresAt: { $gt: now } }`. */
  predicate ResetTokenMatches(u: User, token: string, now: Millis)
  {
    u.resetPasswordToken == Some(token) &&
    u.resetPasswordExpiresAt.Some? && u.resetPasswordExpiresAt.value > now
  }

  function FindByEmail(users: seq<User>, email: Option<string>): (r: Option<nat>)
    ensures r.Some? ==> r.value < |users| && HasEmail(users[r.value], email)
    ensures r.None? <==> forall j :: 0 <= j < |users| ==> !HasEmail(users[j], email)
  {
    First(users, u => HasEmail(u, email))
  }

  function FindByCode(users: seq<User>, code: Option<string>, now: Millis): (r: Option<nat>)
    ensures r.Some? ==> r.value < |users| && CodeMatches(users[r.value], code, now)
    ensures r.Some? ==> forall j :: 0 <= j < r.value ==> !CodeMatches(users[j], code, now)
    ensures r.None? <==> forall j :: 0 <= j < |users| ==> !CodeMatches(users[j], code, now)
  {
    First(users, u => CodeMatches(u, code, now))
  }

  function FindByResetToken(users: seq<User>, token: string, now: Millis): (r: Option<nat>)
    ensures r.Some? ==> r.value < |users| && ResetTokenMatches(users[r.value], token, now)
    ensures r.Some? ==> forall j :: 0 <= j < r.value ==> !ResetTokenMatches(users[j], token, now)
    ensures r.None? <==> forall j :: 0 <= j < |users| ==> !ResetTokenMatches(users[j], token, now)
  {
    First(users, u => ResetTokenMatches(u, token, now))
  }

  /** With unique emails the user found by email is the only one with it. */
  lemma FindByEmailUnique(users: seq<User>, email: string, i: nat)
    requires EmailsUnique(users) && i < |users| && users[i].email == email
    ensures FindByEmail(users, Some(email)) == Some(i)
  {
    assert HasEmail(users[i], Some(email));
    var j := FindByEmail(users, Some(email)).value;
  }

  /** A consumed code or token (its fields unset) never matches again, and
      an outstanding one stops matching once its expiry is reached. */
  lemma ConsumedOrExpiredNeverMatches(u: User, code: Option<string>, token: string, now: Millis)
    ensures u.verificationTokenExpiresAt.None? ==> !CodeMatches(u, code, now)
    ensures u.verificationTokenExpiresAt.Some? && now >= u.verificationTokenExpiresAt.value ==>
            !CodeMatches(u, code, now)
    ensures u.resetPasswordExpiresAt.None? ==> !ResetTokenMatches(u, token, now)
    ensures u.resetPasswordExpiresAt.Some? && now >= u.resetPasswordExpiresAt.value ==>
            !ResetTokenMatches(u, token, now)
  {
  }

  // ---------------------------------------------------------------------
  // The reset expiry as written: the controller's path is not in the schema

  /** What `user.save()` writes under the schema's default strict mode (the
      schema sets no `strict` option): a path the schema does not declare is
      not saved, so `resetPasswordExpiresAt` never reaches the database. */
  function StrictSaved(u: User): (v: User)
    ensures v.resetPasswordExpiresAt.None?
    ensures v.(resetPasswordExpiresAt := u.resetPasswordExpiresAt) == u
  {
    u.(resetPasswordExpiresAt := None)
  }

  /** The reset filter `{ resetPasswordToken: token, resetPasswordExpiresAt:
      { $gt: now } }` as the database applies it. With `strictQuery` off the
      undeclared path is sent as is, and `$gt` needs it present; with
      `strictQuery` on it is dropped from the filter, leaving only the token. */
  function ResetFilterAsWritten(u: User, token: string, now: Millis, strictQuery: bool): (m: bool)
    ensures strictQuery ==> (m <==> u.resetPasswordToken == Some(token))
    ensures !strictQuery ==> (m <==> ResetTokenMatches(u, token, now))
  {
    if strictQuery then u.resetPasswordToken == Some(token) else ResetTokenMatches(u, token, now)
  }

  /** The request `forgotPassword` saves, as written, keeps the token but not
      its expiry. Without `strictQuery` the reset lookup then never finds it,
      even a second after the request; with `strictQuery` it finds it at any
      time, however late: the one-hour window holds in neither case. */
  lemma ResetExpiryNeverSaved(u: User, token: string, t0: Millis, t1: Millis)
    ensures var v := StrictSaved(u.(resetPasswordToken := Some(token),
                                    resetPasswordExpiresAt := Some(t0 + RESET_LIFETIME_MS)));
            && !ResetFilterAsWritten(v, token, t1, false)
            && ResetFilterAsWritten(v, token, t1, true)
  {
  }

  /** As intended, when the expiry is saved, the token is found within the
      hour and never from the hour on. */
  lemma ResetWindowAsIntended(u: User, token: string, t0: Millis, t1: Millis)
    ensures var v := u.(resetPasswordToken := Some(token),
                        resetPasswordExpiresAt := Some(t0 + RESET_LIFETIME_MS));
            ResetTokenMatches(v, token, t1) <==> t1 < t0 + RESET_LIFETIME_MS
  {
  }

  // ---------------------------------------------------------------------
  // The handlers

  /** POST /api/auth/signup. */
  method Signup(store: UserCollection, res: Response, email: Option<string>, password: Option<string>,
                name: Option<string>, env: Env, now: Millis, draw: nat, salt: Bcrypt.Salt,
                mail: MailOutcome)
    returns (sent: Option<Email>)
    requires store.Valid()
    modifies store, res
    ensures store.Valid()
    ensures !(Truthy(email) && Truthy(password) && Truthy(name)) ==>
              && store.users == old(store.users) && sent == None && res.cookies == old(res.cookies)
              && res.status == 400 && res.body == Some(Status(false, ALL_FIELDS_REQUIRED))
    ensures Truthy(email) && Truthy(password) && Truthy(name) &&
            FindByEmail(old(store.users), email).Some? ==>
              && store.users == old(store.users) && sent == None && res.cookies == old(res.cookies)
              && res.status == 400 && res.body == Some(Status(false, USER_EXISTS))
    ensures Truthy(email) && Truthy(password) && Truthy(name) &&
            FindByEmail(old(store.users), email).None? ==>
              var u := NewUser(|old(store.users)|, email.value, Bcrypt.Hash(password.value, salt), name.value,
                               Some(VerificationCode(draw)), Some(now + CODE_LIFETIME_MS), now);
              && store.users == old(store.users) + [u]
              && res.cookies == old(res.cookies)[COOKIE_NAME :=
                   Issued(Jwt.Sign(SessionClaims(u.id), env.jwtSecret, now), SessionCookieOptions(env))]
              && sent == Some(VerificationEmail(email.value, VerificationCode(draw)))
              && (mail.Delivered? ==>
                    res.status == 201 && res.body == Some(WithUser(true, "User registered successfully", Sanitize(u))))
              && (mail.Rejected? ==>
                    res.status == 400 && res.body == Some(Status(false, "Failed to send verification email: " + mail.reason)))
  {
    sent := None;
    if !(Truthy(email) && Truthy(password) && Truthy(name)) {
      res.Send(400, Status(false, ALL_FIELDS_REQUIRED));
      return;
    }
    if FindByEmail(store.users, email).Some? {
      res.Send(400, Status(false, USER_EXISTS));
      return;
    }
    var hashedPassword := Bcrypt.Hash(password.value, salt);
    var verificationToken := VerificationCode(draw);
    var user := NewUser(|store.users|, email.value, hashedPassword, name.value,
                        Some(verificationToken), Some(now + CODE_LIFETIME_MS), now);
    store.Insert(user);
    var _ := GenerateTokenAndSetCookie(res, user.id, env, now);
    sent := Some(VerificationEmail(user.email, verificationToken));
    if mail.Rejected? {
      res.Send(400, Status(false, "Failed to send verification email: " + mail.reason));
      return;
    }
    res.Send(201, WithUser(true, "User registered successfully", Sanitize(user)));
  }

  /** POST /api/auth/verify-email. */
  method VerifyEmail(store: UserCollection, res: Response, code: Option<string>, now: Millis,
                     mail: MailOutcome)
    returns (sent: Option<Email>)
    requires store.Valid()
    modifies store, res
    ensures store.Valid() && res.cookies == old(res.cookies)
    ensures FindByCode(old(store.users), code, now).None? ==>
              && store.users == old(store.users) && sent == None
              && res.status == 400 && res.body == Some(Status(false, INVALID_CODE))
    ensures FindByCode(old(store.users), code, now).Some? ==>
              var i := FindByCode(old(store.users), code, now).value;
              var u := old(store.users)[i].(isVerified := true, verificationToken := None,
                                             verificationTokenExpiresAt := None, updatedAt := now);
              && store.users == old(store.users)[i := u]
              && sent == Some(WelcomeEmail(u.email, u.name))
              && (mail.Delivered? ==>
                    res.status == 200 && res.body == Some(WithUser(true, "Email verified successfully", Sanitize(u))))
              && (mail.Rejected? ==> res.status == 500 && res.body == Some(Status(false, "server error")))
  {
    var found := FindByCode(store.users, code, now);
    if found.None? {
      res.Send(400, Status(false, INVALID_CODE));
      return None;
    }
    var user := store.users[found.value];
    user := user.(isVerified := true);
    user := user.(verificationToken := None);
    user := user.(verificationTokenExpiresAt := None);
    store.Save(user, now);
    var updatedUser := store.users[user.id];
    sent := Some(WelcomeEmail(updatedUser.email, updatedUser.name));
    if mail.Rejected? {
      res.Send(500, Status(false, "server error"));
      return;
    }
    res.Send(200, WithUser(true, "Email verified successfully", Sanitize(updatedUser)));
  }

  /** POST /api/auth/login. An unknown email and a wrong password give the
      same 400 and the same message. */
  method Login(store: UserCollection, res: Response, email: Option<string>, password: Option<string>,
               env: Env, now: Millis)
    requires store.Valid()
    modifies store, res
    ensures store.Valid()
    ensures FindByEmail(old(store.users), email).None? ==>
              && store.users == old(store.users) && res.cookies == old(res.cookies)
              && res.status == 400 && res.body == Some(Status(false, INVALID_CREDENTIALS))
    ensures FindByEmail(old(store.users), email).Some? && password.None? ==>
              && store.users == old(store.users) && res.cookies == old(res.cookies)
              && res.status == 400 && res.body == Some(Status(false, "Server error"))
    ensures FindByEmail(old(store.users), email).Some? && password.Some? &&
            !Bcrypt.Compare(password.value, old(store.users)[FindByEmail(old(store.users), email).value].password) ==>
              && store.users == old(store.users) && res.cookies == old(res.cookies)
              && res.status == 400 && res.body == Some(Status(false, INVALID_CREDENTIALS))
    ensures FindByEmail(old(store.users), email).Some? && password.Some? &&
            Bcrypt.Compare(password.value, old(store.users)[FindByEmail(old(store.users), email).value].password) ==>
              var i := FindByEmail(old(store.users), email).value;
              var u := Saved(old(store.users)[i], old(store.users)[i].(lastLogin := now), now);
              && store.users == old(store.users)[i := u]
              && res.cookies == old(res.cookies)[COOKIE_NAME :=
                   Issued(Jwt.Sign(SessionClaims(i), env.jwtSecret, now), SessionCookieOptions(env))]
              && res.status == 200 && res.body == Some(WithUser(true, "Login successful", Sanitize(u)))
  {
    var found := FindByEmail(store.users, email);
    if found.None? {
      res.Send(400, Status(false, INVALID_CREDENTIALS));
      return;
    }
    var user := store.users[found.value];
    if password.None? {
      // bcrypt.compare throws on a missing password; the catch answers 400.
      res.Send(400, Status(false, "Server error"));
      return;
    }
    if !Bcrypt.Compare(password.value, user.password) {
      res.Send(400, Status(false, INVALID_CREDENTIALS));
      return;
    }
    var _ := GenerateTokenAndSetCookie(res, user.id, env, now);
    user := user.(lastLogin := now);
    store.Save(user, now);
    res.Send(200, WithUser(true, "Login successful", Sanitize(store.users[user.id])));
  }

  /** POST /api/auth/logout: always succeeds. */
  method Logout(res: Response)
    modifies res
    ensures res.cookies == old(res.cookies)[COOKIE_NAME := Cleared]
    ensures res.status == 200 && res.body == Some(Status(true, "Logged out successfully"))
  {
    res.ClearCookie(COOKIE_NAME);
    res.Send(200, Status(true, "Logged out successfully"));
  }

  /** POST /api/auth/forgot-password. */
  method ForgotPassword(store: UserCollection, res: Response, email: Option<string>, env: Env,
                        now: Millis, random: seq<Byte>, mail: MailOutcome)
    returns (sent: Option<Email>)
    requires store.Valid()
    requires |random| == RESET_TOKEN_BYTES
    modifies store, res
    ensures store.Valid() && res.cookies == old(res.cookies)
    ensures FindByEmail(old(store.users), email).None? ==>
              && store.users == old(store.users) && sent == None
              && res.status == 400 && res.body == Some(Status(false, USER_NOT_FOUND))
    ensures FindByEmail(old(store.users), email).Some? ==>
              var i := FindByEmail(old(store.users), email).value;
              var u := Saved(old(store.users)[i],
                             old(store.users)[i].(resetPasswordToken := Some(ResetToken(random)),
                                                  resetPasswordExpiresAt := Some(now + RESET_LIFETIME_MS)),
                             now);
              && store.users == old(store.users)[i := u]
              && sent == Some(ResetRequestEmail(u.email, ResetUrl(env.clientUrl, ResetToken(random))))
              && (mail.Delivered? ==>
                    res.status == 200 && res.body == Some(Status(true, "Password reset email sent successfully")))
              && (mail.Rejected? ==>
                    res.status == 400 && res.body == Some(Status(false, "Failed to send password reset email: " + mail.reason)))
  {
    var found := FindByEmail(store.users, email);
    if found.None? {
      res.Send(400, Status(false, USER_NOT_FOUND));
      return None;
    }
    var user := store.users[found.value];
    var resetToken := ResetToken(random);
    var resetTokenExpiresAt := now + RESET_LIFETIME_MS;
    user := user.(resetPasswordToken := Some(resetToken));
    user := user.(resetPasswordExpiresAt := Some(resetTokenExpiresAt));
    store.Save(user, now);
    var resetUrl := ResetUrl(env.clientUrl, resetToken);
    sent := Some(ResetRequestEmail(user.email, resetUrl));
    if mail.Rejected? {
      res.Send(400, Status(false, "Failed to send password reset email: " + mail.reason));
      return;
    }
    res.Send(200, Status(true, "Password reset email sent successfully"));
  }

  /** POST /api/auth/reset-password/:token. */
  method ResetPassword(store: UserCollection, res: Response, token: string, password: Option<string>,
                       now: Millis, salt: Bcrypt.Salt, mail: MailOutcome)
    returns (sent: Option<Email>)
    requires store.Valid()
    modifies store, res
    ensures store.Valid() && res.cookies == old(res.cookies)
    ensures FindByResetToken(old(store.users), token, now).None? ==>
              && store.users == old(store.users) && sent == None
              && res.status == 400 && res.body == Some(Status(false, INVALID_RESET))
    ensures FindByResetToken(old(store.users), token, now).Some? && password.None? ==>
              && store.users == old(store.users) && sent == None
              && res.status == 500 && res.body == Some(Status(false, HASH_ILLEGAL_ARGUMENTS))
    ensures FindByResetToken(old(store.users), token, now).Some? && password.Some? ==>
              var i := FindByResetToken(old(store.users), token, now).value;
              var u := old(store.users)[i].(password := Bcrypt.Hash(password.value, salt),
                                             resetPasswordToken := None, resetPasswordExpiresAt := None,
                                             updatedAt := now);
              && store.users == old(store.users)[i := u]
              && sent == Some(ResetSuccessEmail(u.email))
              && (mail.Delivered? ==>
                    res.status == 200 && res.body == Some(Status(true, "Password reset successfully")))
              && (mail.Rejected? ==>
                    res.status == 500 && res.body == Some(Status(false, "Failed to send password reset success email: " + mail.reason)))
  {
    var found := FindByResetToken(store.users, token, now);
    if found.None? {
      res.Send(400, Status(false, INVALID_RESET));
      return None;
    }
    var user := store.users[found.value];
    if password.None? {
      res.Send(500, Status(false, HASH_ILLEGAL_ARGUMENTS));
      return None;
    }
    var hashedPassword := Bcrypt.Hash(password.value, salt);
    user := user.(password := hashedPassword);
    user := user.(resetPasswordToken := None);
    user := user.(resetPasswordExpiresAt := None);
    store.Save(user, now);
    sent := Some(ResetSuccessEmail(user.email));
    if mail.Rejected? {
      res.Send(500, Status(false, "Failed to send password reset success email: " + mail.reason));
      return;
    }
    res.Send(200, Status(true, "Password reset successfully"));
  }
}
