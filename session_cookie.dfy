/** Issuing the session (backend/utils/generateTokenAndSetCookie.js): a JWT
    carrying `{ userId }`, valid for seven days, delivered as the `token`
    cookie. */
module SessionCookie {
  import opened Base
  import Jwt
  import opened Http

  /** The process environment the session code reads. */
  datatype Env = Env(nodeEnv: Option<string>, jwtSecret: string, clientUrl: string)

  const COOKIE_NAME := "token"

  /** `maxAge: 7 * 24 * 60 * 60 * 1000`. */
  const COOKIE_MAX_AGE_MS: nat := 7 * 24 * 60 * 60 * 1000

  /** The claims signed into the token: exactly the user's id. */
  function SessionClaims(userId: UserId): (c: Jwt.Claims)
    ensures c.userId == userId
  {
    Jwt.Claims(userId)
  }

  /** The options of the session cookie. */
  function SessionCookieOptions(env: Env): (o: CookieOptions)
    ensures o.httpOnly && o.sameSite == "Strict"
    ensures o.secure <==> env.nodeEnv == Some("production")
    ensures o.maxAge == Jwt.LIFETIME_SECONDS * 1000
  {
    CookieOptions(true, env.nodeEnv == Some("production"), "Strict", COOKIE_MAX_AGE_MS)
  }

  /** `generateTokenAndSetCookie(res, userId)` at time `now`: signs
      `{ userId }` with the server secret, sets it as the `token` cookie
      and returns it. */
  method GenerateTokenAndSetCookie(res: Response, userId: UserId, env: Env, now: Millis)
    returns (token: Jwt.Token)
    modifies res
    ensures token == Jwt.Sign(SessionClaims(userId), env.jwtSecret, now)
    ensures res.cookies == old(res.cookies)[COOKIE_NAME := Issued(token, SessionCookieOptions(env))]
    ensures res.status == old(res.status) && res.body == old(res.body)
  {
    token := Jwt.Sign(SessionClaims(userId), env.jwtSecret, now);
    res.Cookie(COOKIE_NAME, token, SessionCookieOptions(env));
  }

  /** The cookie a client holds after issuance authenticates it as `userId`
      for the token's lifetime, which is the cookie's `maxAge` (up to the
      rounding of `iat` down to a whole second). */
  lemma IssuedSessionAuthenticates(userId: UserId, env: Env, issued: Millis, at: Millis)
    requires issued <= at < issued + COOKIE_MAX_AGE_MS - 1000
    ensures Jwt.Verify(Jwt.Sign(SessionClaims(userId), env.jwtSecret, issued), env.jwtSecret, at)
            == Jwt.Decoded(Some(Jwt.Claims(userId)))
  {
    Jwt.TokenLifetime(SessionClaims(userId), env.jwtSecret, issued, at);
  }
}
