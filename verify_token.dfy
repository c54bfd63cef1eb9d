/** The session gate in front of the task routes
    (backend/middleware/verifyToken.js). */
module VerifyToken {
  import opened Base
  import Jwt
  import opened Http

  const NO_TOKEN_MESSAGE := "No token provided, authorization denied"
  const INVALID_TOKEN_MESSAGE := "Token is not valid"

  datatype Verdict = Admit(userId: UserId) | Deny(message: string)

  /** `if (!token)` on the cookie value: a missing cookie and an empty one are falsy. */
  function CookieTruthy(cookie: Option<Jwt.Token>): (truthy: bool)
    ensures cookie.None? ==> !truthy
    ensures cookie == Some(Jwt.Unparsable("")) ==> !truthy
    ensures cookie.Some? && cookie.value.Signed? ==> truthy
    ensures cookie.Some? && cookie.value.Unparsable? && cookie.value.text != "" ==> truthy
  {
    cookie.Some? && cookie.value != Jwt.Unparsable("")
  }

  /** The decision once `jwt.verify` has run: a thrown error and a falsy
      payload are both "Token is not valid"; a payload admits its `userId`. */
  function Judge(outcome: Jwt.VerifyResult): (v: Verdict)
    ensures v.Admit? <==> outcome.Decoded? && outcome.payload.Some?
    ensures v.Admit? ==> v.userId == outcome.payload.value.userId
    ensures v.Deny? ==> v.message == INVALID_TOKEN_MESSAGE
  {
    match outcome
    case Thrown(_) => Deny(INVALID_TOKEN_MESSAGE)
    case Decoded(None) => Deny(INVALID_TOKEN_MESSAGE)
    case Decoded(Some(claims)) => Admit(claims.userId)
  }

  /** The whole decision for a request's cookie at time `now`. */
  function Decide(cookie: Option<Jwt.Token>, secret: string, now: Millis): (v: Verdict)
    ensures !CookieTruthy(cookie) ==> v == Deny(NO_TOKEN_MESSAGE)
    ensures CookieTruthy(cookie) ==> v == Judge(Jwt.Verify(cookie.value, secret, now))
    ensures v.Admit? <==> CookieTruthy(cookie) && Jwt.Verify(cookie.value, secret, now).Decoded?
  {
    if !CookieTruthy(cookie) then Deny(NO_TOKEN_MESSAGE)
    else Judge(Jwt.Verify(cookie.value, secret, now))
  }

  /** A request is admitted exactly when it carries a token this server
      signed that has not expired, and then as the user the token names. */
  lemma AdmitsExactlySignedUnexpired(cookie: Option<Jwt.Token>, secret: string, now: Millis)
    ensures Decide(cookie, secret, now).Admit? <==>
            cookie.Some? && cookie.value.Signed? && cookie.value.key == secret &&
            Jwt.Seconds(now) < cookie.value.exp
    ensures Decide(cookie, secret, now).Admit? ==>
            Decide(cookie, secret, now).userId == cookie.value.claims.userId
  {
  }

  /** `verifyToken(req, res, next)`: on admission it binds `req.userId` and
      calls `next` once; every denial is a 401 `{ success: false, message }`
      and leaves the request alone. */
  method VerifyTokenMiddleware(req: Request, res: Response, secret: string, now: Millis)
    modifies req, res
    ensures var v := Decide(req.TokenCookie(), secret, now);
            && (v.Admit? ==> req.userId == Some(v.userId) && req.nextCalls == old(req.nextCalls) + 1 &&
                             res.status == old(res.status) && res.body == old(res.body))
            && (v.Deny? ==> req.userId == old(req.userId) && req.nextCalls == old(req.nextCalls) &&
                            res.status == 401 && res.body == Some(Status(false, v.message)))
    ensures res.cookies == old(res.cookies)
  {
    var v := Decide(req.TokenCookie(), secret, now);
    if v.Admit? {
      req.userId := Some(v.userId);
      req.nextCalls := req.nextCalls + 1;
    } else {
      res.Send(401, Status(false, v.message));
    }
  }
}
