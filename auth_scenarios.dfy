/** Properties of the credential lifecycle that span several requests
    (backend/controllers/auth.controller.js): what one handler leaves in the
    users collection decides what the next one answers. */
module AuthScenarios {
  import opened Base
  import opened JsText
  import Bcrypt
  import opened UserModel
  import opened Http
  import opened SessionCookie
  import opened AuthController

  /** Consuming a verification code: the document `verifyEmail` saves. */
  function CodeConsumed(u: User, now: Millis): (v: User)
    ensures v.isVerified && v.verificationToken.None? && v.verificationTokenExpiresAt.None?
    ensures v.id == u.id && v.email == u.email && v.password == u.password
    ensures v.resetPasswordToken == u.resetPasswordToken
  {
    u.(isVerified := true, verificationToken := None, verificationTokenExpiresAt := None, updatedAt := now)
  }

  /** A code held by a single user can be redeemed once: after it is
      consumed, no user matches it again, at any later time. */
  lemma {:induction false} CodeSingleUse(users: seq<User>, code: Option<string>, t1: Millis, t2: Millis)
    requires FindByCode(users, code, t1).Some?
    requires forall j :: 0 <= j < |users| && users[j].verificationToken == code ==>
               j == FindByCode(users, code, t1).value
    ensures var i := FindByCode(users, code, t1).value;
            FindByCode(users[i := CodeConsumed(users[i], t1)], code, t2).None?
  {
    var i := FindByCode(users, code, t1).value;
    var after := users[i := CodeConsumed(users[i], t1)];
    forall j | 0 <= j < |after|
      ensures !CodeMatches(after[j], code, t2)
    {
      if j != i {
        assert after[j] == users[j];
      }
    }
  }

  /** After `forgotPassword` stored a token no one else holds, the reset
      lookup within the hour finds exactly the requester. */
  lemma {:induction false} ResetFindsRequester(before: seq<User>, after: seq<User>, i: nat, token: string,
                                               t0: Millis, t1: Millis)
    requires i < |before| && |after| == |before|
    requires after[i].resetPasswordToken == Some(token) &&
             after[i].resetPasswordExpiresAt == Some(t0 + RESET_LIFETIME_MS)
    requires forall j :: 0 <= j < |after| && j != i ==> after[j] == before[j]
    requires forall j :: 0 <= j < |before| ==> before[j].resetPasswordToken != Some(token)
    requires t1 < t0 + RESET_LIFETIME_MS
    ensures FindByResetToken(after, token, t1) == Some(i)
  {
    assert ResetTokenMatches(after[i], token, t1);
    forall j | 0 <= j < |after| && j != i
      ensures !ResetTokenMatches(after[j], token, t1)
    {
      assert after[j] == before[j];
    }
  }

  /** With the token cleared from the requester and held by no one else,
      the reset lookup finds nobody. */
  lemma {:induction false} ReplayFindsNobody(before: seq<User>, after: seq<User>, i: nat, token: string,
                                             t: Millis)
    requires i < |before| && |after| == |before|
    requires after[i].resetPasswordToken.None?
    requires forall j :: 0 <= j < |after| && j != i ==> after[j] == before[j]
    requires forall j :: 0 <= j < |before| ==> before[j].resetPasswordToken != Some(token)
    ensures FindByResetToken(after, token, t).None?
  {
    forall j | 0 <= j < |after|
      ensures !ResetTokenMatches(after[j], token, t)
    {
      if j != i {
        assert after[j] == before[j];
      }
    }
  }

  /** Signing up and then logging in with the same email and password
      succeeds, as the user signup created. */
  method SignupThenLogin(store: UserCollection, email: string, password: string, name: string,
                         env: Env, t0: Millis, t1: Millis, draw: nat, salt: Bcrypt.Salt)
    returns (signupStatus: int, loginStatus: int, loginBody: Option<Body>)
    requires store.Valid()
    requires email != "" && password != "" && name != ""
    requires forall j :: 0 <= j < |store.users| ==> store.users[j].email != email
    modifies store
    ensures store.Valid()
    ensures signupStatus == 201 && loginStatus == 200
    ensures |store.users| == |old(store.users)| + 1
    ensures store.users[|old(store.users)|].email == email
    ensures loginBody.Some? && loginBody.value.WithUser? && loginBody.value.user.email == email
  {
    var r1 := new Response();
    var _ := Signup(store, r1, Some(email), Some(password), Some(name), env, t0, draw, salt, Delivered);
    signupStatus := r1.status;
    var id := |store.users| - 1;
    FindByEmailUnique(store.users, email, id);
    var r2 := new Response();
    Login(store, r2, Some(email), Some(password), env, t1);
    loginStatus := r2.status;
    loginBody := r2.body;
  }

  /** Verifying twice with a code only one user holds: however the first
      attempt's welcome mail fares, the second attempt is refused. */
  method VerifyTwice(store: UserCollection, code: Option<string>, t1: Millis, t2: Millis,
                     mail: MailOutcome)
    returns (firstStatus: int, secondStatus: int)
    requires store.Valid()
    requires FindByCode(store.users, code, t1).Some?
    requires forall j :: 0 <= j < |store.users| && store.users[j].verificationToken == code ==>
               j == FindByCode(store.users, code, t1).value
    modifies store
    ensures store.Valid()
    ensures mail.Delivered? ==> firstStatus == 200
    ensures secondStatus == 400
  {
    ghost var before := store.users;
    var r1 := new Response();
    var _ := VerifyEmail(store, r1, code, t1, mail);
    firstStatus := r1.status;
    var i := FindByCode(before, code, t1).value;
    assert store.users == before[i := CodeConsumed(before[i], t1)];
    CodeSingleUse(before, code, t1, t2);
    var r2 := new Response();
    var _ := VerifyEmail(store, r2, code, t2, Delivered);
    secondStatus := r2.status;
  }

  /** Asking for a reset and resetting within the hour: both succeed, the
      requester's password becomes the new one and the token is cleared;
      no other user changes. */
  method ForgotThenReset(store: UserCollection, email: string, newPassword: string, env: Env,
                         t0: Millis, t1: Millis, random: seq<Byte>, salt: Bcrypt.Salt, i: nat)
    returns (forgotStatus: int, resetStatus: int)
    requires store.Valid()
    requires |random| == RESET_TOKEN_BYTES
    requires i < |store.users| && store.users[i].email == email
    requires forall j :: 0 <= j < |store.users| ==>
               store.users[j].resetPasswordToken != Some(ResetToken(random))
    requires t0 <= t1 < t0 + RESET_LIFETIME_MS
    modifies store
    ensures store.Valid()
    ensures forgotStatus == 200 && resetStatus == 200
    ensures |store.users| == |old(store.users)|
    ensures store.users[i].email == email && store.users[i].password == Bcrypt.Hash(newPassword, salt)
    ensures store.users[i].resetPasswordToken.None?
    ensures forall j :: 0 <= j < |store.users| && j != i ==> store.users[j] == old(store.users)[j]
  {
    var token := ResetToken(random);
    FindByEmailUnique(store.users, email, i);
    ghost var u0 := store.users;

    var r1 := new Response();
    var _ := ForgotPassword(store, r1, Some(email), env, t0, random, Delivered);
    forgotStatus := r1.status;
    ResetFindsRequester(u0, store.users, i, token, t0, t1);

    var r2 := new Response();
    var _ := ResetPassword(store, r2, token, Some(newPassword), t1, salt, Delivered);
    resetStatus := r2.status;
  }

  /** Logging in with the new password succeeds, and replaying the reset
      link afterwards is refused. */
  method LoginThenReplay(store: UserCollection, email: string, newPassword: string, env: Env,
                         t2: Millis, token: string, salt: Bcrypt.Salt, i: nat)
    returns (loginStatus: int, replayStatus: int)
    requires store.Valid()
    requires i < |store.users| && store.users[i].email == email
    requires store.users[i].password == Bcrypt.Hash(newPassword, salt)
    requires store.users[i].resetPasswordToken.None?
    requires forall j :: 0 <= j < |store.users| && j != i ==> store.users[j].resetPasswordToken != Some(token)
    modifies store
    ensures store.Valid()
    ensures loginStatus == 200 && replayStatus == 400
  {
    FindByEmailUnique(store.users, email, i);
    Bcrypt.CompareOwnHash(newPassword, salt);
    ghost var before := store.users;
    var r3 := new Response();
    Login(store, r3, Some(email), Some(newPassword), env, t2);
    loginStatus := r3.status;
    ReplayFindsNobody(before, store.users, i, token, t2);

    var r4 := new Response();
    var _ := ResetPassword(store, r4, token, Some(newPassword), t2, salt, Delivered);
    replayStatus := r4.status;
  }

  /** The recovery path: asking for a reset, resetting within the hour,
      then logging in with the new password all succeed, and replaying the
      reset link is refused. The token is assumed to be held by nobody
      before the request (it is 160 random bits). */
  method ForgotResetLogin(store: UserCollection, email: string, newPassword: string, env: Env,
                          t0: Millis, t1: Millis, t2: Millis, random: seq<Byte>, salt: Bcrypt.Salt)
    returns (forgotStatus: int, resetStatus: int, loginStatus: int, replayStatus: int)
    requires store.Valid()
    requires |random| == RESET_TOKEN_BYTES
    requires exists i :: 0 <= i < |store.users| && store.users[i].email == email
    requires forall j :: 0 <= j < |store.users| ==>
               store.users[j].resetPasswordToken != Some(ResetToken(random))
    requires t0 <= t1 < t0 + RESET_LIFETIME_MS && t1 <= t2
    modifies store
    ensures store.Valid()
    ensures forgotStatus == 200 && resetStatus == 200 && loginStatus == 200 && replayStatus == 400
  {
    var i :| 0 <= i < |store.users| && store.users[i].email == email;
    forgotStatus, resetStatus := ForgotThenReset(store, email, newPassword, env, t0, t1, random, salt, i);
    loginStatus, replayStatus := LoginThenReplay(store, email, newPassword, env, t2, ResetToken(random), salt, i);
  }
}
