/** The session-token library (`jsonwebtoken`) with an HMAC secret, modelled
    symbolically. A token is either a signed JWT, recorded with its claims,
    its `iat` and `exp` (whole seconds) and the key it was signed with, or
    some other cookie text that does not parse as a JWT. */
module Jwt {
  import opened Base

  /** `expiresIn: '7d'` in seconds. */
  const LIFETIME_SECONDS: nat := 7 * 24 * 60 * 60

  datatype Claims = Claims(userId: UserId)

  datatype Token =
    | Signed(claims: Claims, iat: nat, exp: nat, key: string)
    | Unparsable(text: string)

  datatype VerifyError = InvalidSignature | TokenExpired | Malformed

  /** What `jwt.verify` hands back: it throws, or returns the decoded payload;
      `Decoded(None)` stands for a falsy payload. */
  datatype VerifyResult = Thrown(error: VerifyError) | Decoded(payload: Option<Claims>)

  /** `Math.floor(Date.now() / 1000)`, the clock jsonwebtoken reads. */
  function Seconds(now: Millis): nat
  {
    now / 1000
  }

  /** `jwt.sign(claims, secret, { expiresIn: '7d' })` at time `now`. */
  function Sign(claims: Claims, secret: string, now: Millis): (t: Token)
    ensures t.Signed? && t.claims == claims && t.key == secret
    ensures t.iat == Seconds(now) && t.exp == t.iat + LIFETIME_SECONDS
  {
    Signed(claims, Seconds(now), Seconds(now) + LIFETIME_SECONDS, secret)
  }

  /** `jwt.verify(token, secret)` at time `now`: malformed text and a wrong
      key throw, and so does a token whose `exp` is not after the clock. */
  function Verify(t: Token, secret: string, now: Millis): (r: VerifyResult)
    ensures r.Decoded? <==> t.Signed? && t.key == secret && Seconds(now) < t.exp
    ensures r.Decoded? ==> r.payload == Some(t.claims)
  {
    match t
    case Unparsable(_) => Thrown(Malformed)
    case Signed(claims, _, exp, key) =>
      if key != secret then Thrown(InvalidSignature)
      else if Seconds(now) >= exp then Thrown(TokenExpired)
      else Decoded(Some(claims))
  }

  /** A token issued at `issued` is accepted at `at` exactly while the clock,
      in whole seconds, has not reached seven days after the issuing second;
      in particular it is accepted for the first 7 days less one second and
      rejected from 7 days on. */
  lemma TokenLifetime(claims: Claims, secret: string, issued: Millis, at: Millis)
    requires issued <= at
    ensures Verify(Sign(claims, secret, issued), secret, at).Decoded? <==>
            at / 1000 < issued / 1000 + LIFETIME_SECONDS
    ensures at < issued + LIFETIME_SECONDS * 1000 - 1000 ==>
            Verify(Sign(claims, secret, issued), secret, at) == Decoded(Some(claims))
    ensures at >= issued + LIFETIME_SECONDS * 1000 ==>
            Verify(Sign(claims, secret, issued), secret, at) == Thrown(TokenExpired)
  {
    if at >= issued + LIFETIME_SECONDS * 1000 {
      assert at / 1000 >= (issued + LIFETIME_SECONDS * 1000) / 1000;
      assert (issued + LIFETIME_SECONDS * 1000) / 1000 == issued / 1000 + LIFETIME_SECONDS;
    }
    if at < issued + LIFETIME_SECONDS * 1000 - 1000 {
      assert at / 1000 <= (issued + LIFETIME_SECONDS * 1000 - 1000) / 1000;
      assert (issued + LIFETIME_SECONDS * 1000 - 1000) / 1000 == issued / 1000 + LIFETIME_SECONDS - 1;
    }
  }

  /** Signing then verifying with the same secret inside the lifetime
      gives back exactly the claims that were signed. */
  lemma SignVerifyRoundTrip(claims: Claims, secret: string, issued: Millis, at: Millis)
    requires issued <= at < issued + LIFETIME_SECONDS * 1000 - 1000
    ensures Verify(Sign(claims, secret, issued), secret, at).payload == Some(claims)
  {
    TokenLifetime(claims, secret, issued, at);
  }

  /** A token signed with another key never verifies. */
  lemma OtherKeyRejected(claims: Claims, key: string, secret: string, issued: Millis, at: Millis)
    requires key != secret
    ensures Verify(Sign(claims, key, issued), secret, at) == Thrown(InvalidSignature)
  {
  }
}
