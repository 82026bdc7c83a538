/**
 * Properties that relate several calls of the credential service: what a
 * login makes possible, what a logout takes away, and which states the
 * token check can end in.
 */
module Lifecycle {
  import opened Wrappers
  import Decimal
  import opened Duration
  import opened Jwt
  import Store = RevocationStore
  import opened AuthUtils

  /** The access credential verifies under the access secret: the fast path applies. */
  ghost predicate AccessValid(cfg: Config, accessToken: Option<Token>, now: nat) {
    VerifyCookie(accessToken, cfg.accessTokenSecret, now).Some?
  }

  /** The refresh credential verifies and names a session the store maps to a non-empty user id. */
  ghost predicate SessionLive(cfg: Config, refreshToken: Option<Token>, store: Store.Store, now: nat) {
    && refreshToken.Some?
    && SessionOf(cfg, refreshToken.value, now).Some?
    && var stored := Store.Get(store, SessionOf(cfg, refreshToken.value, now).value, now);
       stored.Some? && stored.value != ""
  }

  /** The refresh credential verifies but its payload names no session, so the store lookup rejects. */
  ghost predicate RefreshKeyless(cfg: Config, refreshToken: Option<Token>, now: nat) {
    refreshToken.Some? && Keyless(cfg, refreshToken.value, now)
  }

  /** The five outcomes of checkTokens, each characterised in both directions. */
  lemma CheckTokensDecision(cfg: Config, accessToken: Option<Token>, refreshToken: Option<Token>, store: Store.Store, now: nat)
    ensures CheckTokens(cfg, accessToken, refreshToken, store, now).Authenticated?
        <==> AccessValid(cfg, accessToken, now)
    ensures CheckTokens(cfg, accessToken, refreshToken, store, now).Refreshed?
        <==> !AccessValid(cfg, accessToken, now) && SessionLive(cfg, refreshToken, store, now)
             && cfg.timespan(cfg.accessTokenExpiresIn).Some?
    ensures CheckTokens(cfg, accessToken, refreshToken, store, now) == Unauthorized
        <==> !AccessValid(cfg, accessToken, now) && !SessionLive(cfg, refreshToken, store, now)
             && !RefreshKeyless(cfg, refreshToken, now)
    ensures CheckTokens(cfg, accessToken, refreshToken, store, now) == Failed(StoreRejected)
        <==> !AccessValid(cfg, accessToken, now) && RefreshKeyless(cfg, refreshToken, now)
    ensures CheckTokens(cfg, accessToken, refreshToken, store, now) == Failed(SignFailed)
        <==> !AccessValid(cfg, accessToken, now) && SessionLive(cfg, refreshToken, store, now)
             && cfg.timespan(cfg.accessTokenExpiresIn).None?
  {
  }

  /** The ways a check without a valid access token ends in UNAUTHORIZED. */
  lemma UnauthorizedCases(cfg: Config, accessToken: Option<Token>, refreshToken: Option<Token>, store: Store.Store, now: nat)
    requires !AccessValid(cfg, accessToken, now)
    ensures refreshToken.None? ==> CheckTokens(cfg, accessToken, refreshToken, store, now) == Unauthorized
    ensures refreshToken.Some? && Verify(refreshToken.value, cfg.refreshTokenSecret, now).None? ==>
      CheckTokens(cfg, accessToken, refreshToken, store, now) == Unauthorized
    ensures refreshToken.Some? && SessionOf(cfg, refreshToken.value, now).Some? ==>
      var stored := Store.Get(store, SessionOf(cfg, refreshToken.value, now).value, now);
      (stored.None? || stored == Some("")) ==> CheckTokens(cfg, accessToken, refreshToken, store, now) == Unauthorized
  {
  }

  /** The fast path reads neither the refresh credential nor the store. */
  lemma FastPathIgnoresRefreshAndStore(
    cfg: Config, accessToken: Option<Token>, r1: Option<Token>, r2: Option<Token>, s1: Store.Store, s2: Store.Store, now: nat)
    requires AccessValid(cfg, accessToken, now)
    ensures CheckTokens(cfg, accessToken, r1, s1, now) == CheckTokens(cfg, accessToken, r2, s2, now)
  {
  }

  /**
   * No rotation: the refresh path writes nothing, so a refresh credential
   * that has just been used to refresh is accepted again, with any other
   * failing access credential, against the same store.
   */
  lemma RefreshCanBeReplayed(
    cfg: Config, a1: Option<Token>, a2: Option<Token>, refreshToken: Token, store: Store.Store, now: nat)
    requires CheckTokens(cfg, a1, Some(refreshToken), store, now).Refreshed?
    requires !AccessValid(cfg, a2, now)
    ensures CheckTokens(cfg, a2, Some(refreshToken), store, now) == CheckTokens(cfg, a1, Some(refreshToken), store, now)
  {
  }

  /** The refresh lifetime a successful login has parsed, for the store record and the cookie. */
  function RefreshLifetime(cfg: Config): nat
    requires ParseExpiration(cfg.refreshTokenExpiresIn).Success?
  {
    ParseExpiration(cfg.refreshTokenExpiresIn).value
  }

  /** The lifetime in seconds the signing library reads from a lifetime string it accepts. */
  function TokenLifetime(cfg: Config, expiresIn: string): nat
    requires cfg.timespan(expiresIn).Some?
  {
    cfg.timespan(expiresIn).value
  }

  /** A clock reading at or after `now` is in the same or a later whole second. */
  lemma SecondsMonotone(now: nat, t: nat)
    requires now <= t
    ensures Seconds(now) <= Seconds(t)
  {
  }

  /** If `t` lies before the expiry second of a token issued at `now`, it lies before `now + lifetime` seconds. */
  lemma BeforeExpirySecond(now: nat, t: nat, lifetime: nat)
    requires Seconds(t) < Seconds(now) + lifetime
    ensures t < now + lifetime * 1000
  {
    assert t < (Seconds(t) + 1) * 1000;
    assert (Seconds(t) + 1) * 1000 <= (Seconds(now) + lifetime) * 1000;
    assert Seconds(now) * 1000 <= now;
  }

  /**
   * After a login, the session record is readable for as long as the
   * refresh token verifies: the store TTL (counted from the millisecond of
   * issuance) never runs out before the token's expiry (counted from the
   * whole second of issuance), provided the signing library does not read
   * the refresh lifetime as longer than parseExpiration does.
   */
  lemma {:induction false} LoginRecordOutlivesRefreshToken(
    cfg: Config, store: Store.Store, userId: string, prior: Option<Token>, now: nat, t: nat)
    requires SendAuthCookies(cfg, store, userId, prior, now).LoggedIn?
    requires TokenLifetime(cfg, cfg.refreshTokenExpiresIn) <= RefreshLifetime(cfg)
    requires now <= t
    requires Verify(SendAuthCookies(cfg, store, userId, prior, now).refreshToken, cfg.refreshTokenSecret, t).Some?
    ensures Store.Get(SendAuthCookies(cfg, store, userId, prior, now).store, SessionId(userId, now), t) == Some(userId)
  {
    var r := SendAuthCookies(cfg, store, userId, prior, now);
    var lifetime := RefreshLifetime(cfg);
    assert Seconds(t) < Seconds(now) + TokenLifetime(cfg, cfg.refreshTokenExpiresIn);
    if lifetime == 0 {
      SecondsMonotone(now, t);
      assert false;
    } else {
      BeforeExpirySecond(now, t, lifetime);
      assert Store.Live(r.store[SessionId(userId, now)], t);
    }
  }

  /** Right after a login, its access credential authenticates the user until it expires. */
  lemma LoginThenAuthenticate(
    cfg: Config, store: Store.Store, userId: string, prior: Option<Token>, now: nat,
    refreshToken: Option<Token>, later: Store.Store, t: nat)
    requires SendAuthCookies(cfg, store, userId, prior, now).LoggedIn?
    requires Seconds(t) < Seconds(now) + TokenLifetime(cfg, cfg.accessTokenExpiresIn)
    ensures CheckTokens(cfg, Some(SendAuthCookies(cfg, store, userId, prior, now).accessToken), refreshToken, later, t)
         == Authenticated(userId)
  {
  }

  /**
   * Once the access credential of a login has expired, its refresh
   * credential obtains a new access token for the same user, as long as the
   * refresh credential itself has not expired and the user id is not empty.
   * The store record outlives the refresh credential when the signing
   * library reads the refresh lifetime as no longer than parseExpiration.
   */
  lemma LoginThenRefresh(cfg: Config, store: Store.Store, userId: string, prior: Option<Token>, now: nat, t: nat)
    requires SendAuthCookies(cfg, store, userId, prior, now).LoggedIn?
    requires TokenLifetime(cfg, cfg.refreshTokenExpiresIn) <= RefreshLifetime(cfg)
    requires userId != ""
    requires now <= t
    requires Seconds(now) + TokenLifetime(cfg, cfg.accessTokenExpiresIn) <= Seconds(t)
    requires Seconds(t) < Seconds(now) + TokenLifetime(cfg, cfg.refreshTokenExpiresIn)
    ensures
      var r := SendAuthCookies(cfg, store, userId, prior, now);
      CheckTokens(cfg, Some(r.accessToken), Some(r.refreshToken), r.store, t)
        == Refreshed(userId, Sign(Claims(userId, None), cfg.accessTokenSecret, t, TokenLifetime(cfg, cfg.accessTokenExpiresIn)))
  {
    var r := SendAuthCookies(cfg, store, userId, prior, now);
    var id := SessionId(userId, now);
    assert Verify(r.accessToken, cfg.accessTokenSecret, t).None?;
    assert Verify(r.refreshToken, cfg.refreshTokenSecret, t) == Some(Claims(userId, Some(id)));
    LoginRecordOutlivesRefreshToken(cfg, store, userId, prior, now, t);
    assert Store.Get(r.store, id, t) == Some(userId);
  }

  /** An empty user id is stored like any other, but the refresh path refuses it. */
  lemma EmptyUserIdCannotRefresh(cfg: Config, store: Store.Store, prior: Option<Token>, now: nat, t: nat)
    requires SendAuthCookies(cfg, store, "", prior, now).LoggedIn?
    requires Seconds(now) + TokenLifetime(cfg, cfg.accessTokenExpiresIn) <= Seconds(t)
    ensures
      var r := SendAuthCookies(cfg, store, "", prior, now);
      CheckTokens(cfg, Some(r.accessToken), Some(r.refreshToken), r.store, t) == Unauthorized
  {
  }

  /**
   * After logging out with a refresh credential that verified, that
   * credential never refreshes again, whatever failing access credential
   * accompanies it.
   */
  lemma LogoutRevokesRefresh(
    cfg: Config, store: Store.Store, refreshToken: Token, now: nat, accessToken: Option<Token>, t: nat)
    requires SessionOf(cfg, refreshToken, now).Some?
    requires !AccessValid(cfg, accessToken, t)
    ensures CheckTokens(cfg, accessToken, Some(refreshToken), ClearAuthCookies(cfg, store, refreshToken, now).store, t)
         == Unauthorized
  {
  }

  /** Logout does not revoke access tokens: one that still verifies keeps authenticating. */
  lemma AccessSurvivesLogout(
    cfg: Config, store: Store.Store, refreshToken: Token, now: nat, accessToken: Token, t: nat)
    requires Verify(accessToken, cfg.accessTokenSecret, t).Some?
    ensures CheckTokens(cfg, Some(accessToken), Some(refreshToken), ClearAuthCookies(cfg, store, refreshToken, now).store, t)
         == Authenticated(accessToken.claims.userId)
  {
  }

  /**
   * Login revokes the session of a prior refresh credential that verifies
   * (unless the new session has the very same id); one that does not verify
   * changes nothing, and in either case the login itself proceeds exactly
   * as it would without a prior credential.
   */
  lemma LoginRevokesOldSession(cfg: Config, store: Store.Store, userId: string, prior: Token, now: nat)
    ensures
      var r := SendAuthCookies(cfg, store, userId, Some(prior), now);
      var plain := SendAuthCookies(cfg, store, userId, None, now);
      && r.LoggedIn? == plain.LoggedIn?
      && (r.LoggedIn? ==> r.accessToken == plain.accessToken && r.refreshToken == plain.refreshToken
                          && r.cookies == plain.cookies)
      && (SessionOf(cfg, prior, now).None? ==> r == plain)
      && (SessionOf(cfg, prior, now).Some? && SessionOf(cfg, prior, now).value != SessionId(userId, now) ==>
            SessionOf(cfg, prior, now).value !in r.store)
  {
  }

  /**
   * Logout always clears both cookies with the constructor's options, and
   * only touches the store key of a refresh credential that verifies.
   */
  lemma LogoutEffects(cfg: Config, store: Store.Store, refreshToken: Token, now: nat, key: string, t: nat)
    ensures ClearAuthCookies(cfg, store, refreshToken, now).cookies
         == [ClearCookie("id", cfg.cookieOptions), ClearCookie("rid", cfg.cookieOptions)]
    ensures SessionOf(cfg, refreshToken, now) != Some(key) ==>
      Store.Get(ClearAuthCookies(cfg, store, refreshToken, now).store, key, t) == Store.Get(store, key, t)
  {
  }

  /**
   * With the constructor's default lifetimes, which the signing library
   * accepts, the login cookies live 15 minutes and 30 days, and in
   * development mode neither is secure or bound to a domain.
   */
  lemma DefaultLoginCookies(
    timespan: Timespan, accessSecret: string, refreshSecret: string, store: Store.Store, userId: string, now: nat)
    requires timespan("15m").Some? && timespan("30d").Some?
    ensures
      var cfg := NewAuthUtils(timespan, accessSecret, refreshSecret);
      var r := SendAuthCookies(cfg, store, userId, None, now);
      && r.LoggedIn?
      && r.cookies[0].options.maxAge == Some(900000)
      && r.cookies[1].options.maxAge == Some(2592000000)
      && !r.cookies[0].options.secure && r.cookies[0].options.domain == ""
      && !r.cookies[1].options.secure && r.cookies[1].options.domain == ""
  {
    FifteenMinutesExample();
    ThirtyDaysExample();
    assert ParseExpiration("30d") == Success(2592000);
  }

  /**
   * Session ids are unambiguous: the digits after the last '-' are the
   * clock reading, so two logins share a session id only if they are for
   * the same user in the same millisecond.
   */
  lemma SessionIdInjective(u1: string, t1: nat, u2: string, t2: nat)
    requires SessionId(u1, t1) == SessionId(u2, t2)
    ensures u1 == u2 && t1 == t2
  {
    var d1, d2 := Decimal.Render(t1), Decimal.Render(t2);
    DigitsAfterLastDash(u1, d1, u2, d2);
    DigitsAfterLastDash(u2, d2, u1, d1);
    var s := SessionId(u1, t1);
    assert d1 == s[|s| - |d1|..] == d2;
    assert u1 == s[..|u1|] == u2;
    Decimal.RenderInjective(t1, t2);
  }

  /** Digit suffixes after a '-' cannot differ in length: a longer one would cover the other's dash. */
  lemma DigitsAfterLastDash(u1: string, d1: string, u2: string, d2: string)
    requires u1 + "-" + d1 == u2 + "-" + d2
    requires Decimal.AllDigits(d1) && Decimal.AllDigits(d2)
    ensures |d1| <= |d2|
  {
    var s := u1 + "-" + d1;
    forall j | |u1| < j < |s| ensures Decimal.IsDigit(s[j]) {
      assert s[j] == d1[j - |u1| - 1];
    }
    assert s[|u2|] == '-';
  }

  /**
   * A refresh lifetime of 0 seconds stores the session with no expiry at all
   * (the TTL is falsy), but its refresh credential never verifies after issuance.
   */
  lemma ZeroRefreshLifetime(cfg: Config, store: Store.Store, userId: string, prior: Option<Token>, now: nat, t: nat)
    requires SendAuthCookies(cfg, store, userId, prior, now).LoggedIn?
    requires RefreshLifetime(cfg) == 0
    requires TokenLifetime(cfg, cfg.refreshTokenExpiresIn) <= RefreshLifetime(cfg)
    requires now <= t
    ensures Store.Get(SendAuthCookies(cfg, store, userId, prior, now).store, SessionId(userId, now), t) == Some(userId)
    ensures Verify(SendAuthCookies(cfg, store, userId, prior, now).refreshToken, cfg.refreshTokenSecret, t).None?
  {
  }
}
