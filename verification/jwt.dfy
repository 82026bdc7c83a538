/**
 * An abstract signed token in place of `jsonwebtoken`. A token is either
 * garbage (anything the library cannot decode) or a payload together with
 * the secret it was signed with and its absolute expiry in whole seconds.
 * Signing stamps `exp = floor(now / 1000) + lifetime`; verification succeeds
 * only under the signing secret and while `floor(now / 1000) < exp`.
 */
module Jwt {
  import opened Wrappers

  /**
   * How the library reads an `expiresIn` string: a number of seconds, or
   * None where `jwt.sign` throws because the string is not a timespan. The
   * library's own parser is not part of this model, so it is a parameter.
   */
  type Timespan = string -> Option<nat>

  /** The payload: `{ userId }` for access tokens, `{ userId, refreshTokenId }` for refresh tokens. */
  datatype Claims = Claims(userId: string, refreshTokenId: Option<string>)

  datatype Token =
    | Malformed
    | Signed(claims: Claims, signedWith: string, exp: nat)

  /** Whole seconds of a millisecond clock reading, as the library computes `iat`. */
  function Seconds(nowMillis: nat): nat {
    nowMillis / 1000
  }

  /**
   * jwt.sign(claims, secret, { expiresIn }) at clock reading `now`, once the
   * library has read `expiresIn` as `lifetime` seconds: the token verifies
   * under exactly `secret`, with exactly `claims`, until the lifetime has
   * elapsed from the second of issuance.
   */
  function Sign(claims: Claims, secret: string, now: nat, lifetime: nat): (token: Token)
    ensures forall other, t ::
              Verify(token, other, t) == (if other == secret && Seconds(t) < Seconds(now) + lifetime then Some(claims) else None)
  {
    Signed(claims, secret, Seconds(now) + lifetime)
  }

  /** jwt.verify(token, secret) at clock reading `now`: the claims, or None where the library throws. */
  function Verify(token: Token, secret: string, now: nat): (r: Option<Claims>)
    ensures r.Some? ==> token.Signed? && token.signedWith == secret && r.value == token.claims
  {
    if token.Signed? && token.signedWith == secret && Seconds(now) < token.exp then Some(token.claims)
    else None
  }

  /** jwt.verify on a cookie value that may be missing: a missing credential never verifies. */
  function VerifyCookie(cookie: Option<Token>, secret: string, now: nat): (r: Option<Claims>)
    ensures cookie.None? ==> r.None?
    ensures cookie.Some? ==> r == Verify(cookie.value, secret, now)
  {
    match cookie
    case None => None
    case Some(t) => Verify(t, secret, now)
  }
}
