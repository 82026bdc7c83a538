/**
 * The credential service `AuthUtils` (authUtils.ts): its configuration and
 * cookie options, token issuance, the access/refresh check, login and logout.
 * Every call is one sequential step: it takes the store state and the clock
 * reading `now` (milliseconds, as `Date.now()` returns) and returns the new
 * store state with whatever it hands back to the response.
 */
module AuthUtils {
  import opened Wrappers
  import Decimal
  import opened Duration
  import opened Jwt
  import Store = RevocationStore

  datatype SameSite = Strict | Lax | NoneSameSite

  /** CookieOptions: the transport attributes applied when a cookie is written or cleared. */
  datatype CookieOptions = CookieOptions(
    httpOnly: bool,
    secure: bool,
    sameSite: SameSite,
    path: string,
    domain: string,
    maxAge: Option<nat>)

  /**
   * The immutable state of an AuthUtils instance (the store handle is passed
   * to each call instead). `timespan` is how the signing library reads a
   * lifetime string; it is fixed by the library, not by the caller.
   */
  datatype Config = Config(
    timespan: Timespan,
    accessTokenSecret: string,
    refreshTokenSecret: string,
    accessTokenExpiresIn: string,
    refreshTokenExpiresIn: string,
    cookieOptions: CookieOptions)

  /** The constructor, with its default lifetimes, development mode and empty domain. */
  function NewAuthUtils(
    timespan: Timespan,
    accessTokenSecret: string,
    refreshTokenSecret: string,
    accessTokenExpiresIn: string := "15m",
    refreshTokenExpiresIn: string := "30d",
    isProduction: bool := false,
    domain: string := ""): (cfg: Config)
    ensures cfg.timespan == timespan
    ensures cfg.accessTokenSecret == accessTokenSecret && cfg.refreshTokenSecret == refreshTokenSecret
    ensures cfg.accessTokenExpiresIn == accessTokenExpiresIn
    ensures cfg.refreshTokenExpiresIn == refreshTokenExpiresIn
    ensures cfg.cookieOptions.httpOnly && cfg.cookieOptions.sameSite == Lax && cfg.cookieOptions.path == "/"
    ensures cfg.cookieOptions.secure <==> isProduction
    ensures isProduction ==> cfg.cookieOptions.domain == "." + domain
    ensures !isProduction ==> cfg.cookieOptions.domain == ""
    ensures cfg.cookieOptions.maxAge.None?
  {
    Config(
      timespan, accessTokenSecret, refreshTokenSecret, accessTokenExpiresIn, refreshTokenExpiresIn,
      CookieOptions(
        httpOnly := true,
        secure := isProduction,
        sameSite := Lax,
        path := "/",
        domain := if isProduction then "." + domain else "",
        maxAge := None))
  }

  /** One cookie instruction handed to the response. */
  datatype CookieOp =
    | SetCookie(name: string, value: Token, options: CookieOptions)
    | ClearCookie(name: string, options: CookieOptions)

  const AccessCookie: string := "id"
  const RefreshCookie: string := "rid"

  /**
   * The errors the service lets escape, other than UNAUTHORIZED: the signing
   * library refuses a lifetime string, the store refuses a call (a verified
   * refresh payload without a `refreshTokenId` sends it an undefined key),
   * or parseExpiration throws.
   */
  datatype ServiceError =
    | SignFailed
    | StoreRejected
    | Lifetime(error: DurationError)

  /** The result of checkTokens. */
  datatype AuthResult =
    | Authenticated(userId: string)                     // { userId, newAccessToken: null }
    | Refreshed(userId: string, newAccessToken: Token)  // { userId, newAccessToken }
    | Unauthorized                                      // TRPCError UNAUTHORIZED
    | Failed(error: ServiceError)                       // any other error, propagated

  datatype AuthTokens = AuthTokens(refreshToken: Token, accessToken: Token)

  /** Both lifetime strings are ones the signing library accepts. */
  predicate Signable(cfg: Config) {
    cfg.timespan(cfg.refreshTokenExpiresIn).Some? && cfg.timespan(cfg.accessTokenExpiresIn).Some?
  }

  /**
   * createAuthTokens: a refresh token over `{ userId, refreshTokenId }` and
   * an access token over `{ userId }`, each signed with its own secret and
   * the library's reading of its own lifetime string. Signing throws on a
   * lifetime string the library does not accept.
   */
  function CreateAuthTokens(cfg: Config, userId: string, refreshTokenId: string, now: nat)
    : (r: Result<AuthTokens, ServiceError>)
    ensures r.Success? <==> Signable(cfg)
    ensures r.Failure? ==> r.error == SignFailed
    ensures r.Success? ==> forall t: nat ::
      Verify(r.value.refreshToken, cfg.refreshTokenSecret, t)
        == (if Seconds(t) < Seconds(now) + cfg.timespan(cfg.refreshTokenExpiresIn).value
            then Some(Claims(userId, Some(refreshTokenId))) else None)
    ensures r.Success? ==> forall t: nat ::
      Verify(r.value.accessToken, cfg.accessTokenSecret, t)
        == (if Seconds(t) < Seconds(now) + cfg.timespan(cfg.accessTokenExpiresIn).value
            then Some(Claims(userId, None)) else None)
  {
    match cfg.timespan(cfg.refreshTokenExpiresIn)
    case None => Failure(SignFailed)
    case Some(refreshLifetime) =>
      var refreshToken := Sign(Claims(userId, Some(refreshTokenId)), cfg.refreshTokenSecret, now, refreshLifetime);
      match cfg.timespan(cfg.accessTokenExpiresIn)
      case None => Failure(SignFailed)
      case Some(accessLifetime) =>
        var accessToken := Sign(Claims(userId, None), cfg.accessTokenSecret, now, accessLifetime);
        Success(AuthTokens(refreshToken, accessToken))
  }

  /**
   * The store key a refresh token names, if the token verifies under the
   * refresh secret and its payload carries one.
   */
  function SessionOf(cfg: Config, refreshToken: Token, now: nat): (id: Option<string>)
    ensures id.Some? <==>
      Verify(refreshToken, cfg.refreshTokenSecret, now).Some?
      && Verify(refreshToken, cfg.refreshTokenSecret, now).value.refreshTokenId.Some?
    ensures id.Some? ==> id == Verify(refreshToken, cfg.refreshTokenSecret, now).value.refreshTokenId
  {
    match Verify(refreshToken, cfg.refreshTokenSecret, now)
    case None => None
    case Some(data) => data.refreshTokenId
  }

  /** A refresh token that verifies but whose payload has no `refreshTokenId`. */
  predicate Keyless(cfg: Config, refreshToken: Token, now: nat) {
    Verify(refreshToken, cfg.refreshTokenSecret, now).Some?
    && Verify(refreshToken, cfg.refreshTokenSecret, now).value.refreshTokenId.None?
  }

  /**
   * checkTokens: a valid access token authenticates on its own; otherwise a
   * present refresh token that verifies and whose session the store still
   * maps to a non-empty user id yields a new access token for that stored
   * user id. The store is only read.
   */
  function CheckTokens(cfg: Config, accessToken: Option<Token>, refreshToken: Option<Token>, store: Store.Store, now: nat)
    : (r: AuthResult)
    ensures VerifyCookie(accessToken, cfg.accessTokenSecret, now).Some? ==>
      r == Authenticated(VerifyCookie(accessToken, cfg.accessTokenSecret, now).value.userId)
    ensures VerifyCookie(accessToken, cfg.accessTokenSecret, now).None? && refreshToken.None? ==> r == Unauthorized
    ensures r == Failed(StoreRejected) <==>
      VerifyCookie(accessToken, cfg.accessTokenSecret, now).None?
      && refreshToken.Some? && Keyless(cfg, refreshToken.value, now)
    ensures r.Failed? ==> r.error == StoreRejected || r.error == SignFailed
    ensures r.Refreshed? ==>
      && refreshToken.Some?
      && SessionOf(cfg, refreshToken.value, now).Some?
      && Store.Get(store, SessionOf(cfg, refreshToken.value, now).value, now) == Some(r.userId)
      && r.userId != ""
      && cfg.timespan(cfg.accessTokenExpiresIn).Some?
      && r.newAccessToken == Sign(Claims(r.userId, None), cfg.accessTokenSecret, now, cfg.timespan(cfg.accessTokenExpiresIn).value)
    ensures r == Failed(SignFailed) ==>
      && refreshToken.Some?
      && SessionOf(cfg, refreshToken.value, now).Some?
      && Store.Get(store, SessionOf(cfg, refreshToken.value, now).value, now).Some?
      && Store.Get(store, SessionOf(cfg, refreshToken.value, now).value, now).value != ""
      && cfg.timespan(cfg.accessTokenExpiresIn).None?
  {
    match VerifyCookie(accessToken, cfg.accessTokenSecret, now)
    case Some(data) => Authenticated(data.userId)
    case None =>
      if refreshToken.None? then Unauthorized
      else
        match Verify(refreshToken.value, cfg.refreshTokenSecret, now)
        case None => Unauthorized
        case Some(data) =>
          match data.refreshTokenId
          case None => Failed(StoreRejected)
          case Some(refreshTokenId) =>
            match Store.Get(store, refreshTokenId, now)
            case None => Unauthorized
            case Some(userId) =>
              if userId == "" then Unauthorized
              else
                match cfg.timespan(cfg.accessTokenExpiresIn)
                case None => Failed(SignFailed)
                case Some(lifetime) => Refreshed(userId, Sign(Claims(userId, None), cfg.accessTokenSecret, now, lifetime))
  }

  /**
   * `${userId}-${Date.now()}`: the store key of a new session. The user id
   * comes first, then a dash, then the clock reading in decimal.
   */
  function SessionId(userId: string, now: nat): (id: string)
    ensures |id| > |userId| + 1
    ensures id[..|userId|] == userId && id[|userId|] == '-'
    ensures Decimal.AllDigits(id[|userId| + 1..]) && Decimal.Value(id[|userId| + 1..]) == now
  {
    Decimal.ValueOfRender(now);
    var id := userId + "-" + Decimal.Render(now);
    assert id[|userId| + 1..] == Decimal.Render(now);
    id
  }

  /**
   * The best-effort deletion both login and logout perform: delete the
   * session a refresh token names if it verifies; any failure leaves the
   * store as it was and is not reported.
   */
  function RevokeSession(cfg: Config, store: Store.Store, refreshToken: Token, now: nat): (r: Store.Store)
    ensures SessionOf(cfg, refreshToken, now).None? ==> r == store
    ensures SessionOf(cfg, refreshToken, now).Some? ==>
      r == store - {SessionOf(cfg, refreshToken, now).value}
  {
    match SessionOf(cfg, refreshToken, now)
    case None => store
    case Some(id) => Store.Del(store, id, now).store
  }

  /** The store keys a login given an optional earlier refresh token deletes before anything else. */
  function RevokedKeys(cfg: Config, oldRefreshToken: Option<Token>, now: nat): set<string> {
    if oldRefreshToken.Some? && SessionOf(cfg, oldRefreshToken.value, now).Some?
    then {SessionOf(cfg, oldRefreshToken.value, now).value}
    else {}
  }

  /** What sendAuthCookies leaves behind: the new store, and the cookies or the error it throws. */
  datatype LoginResult =
    | LoggedIn(store: Store.Store, accessToken: Token, refreshToken: Token, cookies: seq<CookieOp>)
    | LoginFailed(store: Store.Store, error: ServiceError)

  /** The first step of sendAuthCookies: revoke the session of the earlier refresh token, if it names one. */
  function RevokeOld(cfg: Config, store: Store.Store, oldRefreshToken: Option<Token>, now: nat): (r: Store.Store)
    ensures r == store - RevokedKeys(cfg, oldRefreshToken, now)
  {
    if oldRefreshToken.Some? then RevokeSession(cfg, store, oldRefreshToken.value, now) else store
  }

  /**
   * The rest of sendAuthCookies, on the store the revocation left: sign
   * both tokens for the session `id`, record the session for the refresh
   * lifetime and set the `id` and `rid` cookies, whose max-age is the parsed
   * lifetime in milliseconds. A refused or unparsable lifetime throws before
   * the store is written; an unparsable access lifetime throws after the
   * session has been recorded, before any cookie is set.
   */
  function IssueSession(cfg: Config, revoked: Store.Store, userId: string, id: string, now: nat)
    : (r: LoginResult)
    ensures r.LoggedIn? <==>
      Signable(cfg) && ParseExpiration(cfg.refreshTokenExpiresIn).Success?
      && ParseExpiration(cfg.accessTokenExpiresIn).Success?
    ensures !Signable(cfg) ==> r == LoginFailed(revoked, SignFailed)
    ensures Signable(cfg) && ParseExpiration(cfg.refreshTokenExpiresIn).Failure? ==>
      r == LoginFailed(revoked, Lifetime(ParseExpiration(cfg.refreshTokenExpiresIn).error))
    ensures Signable(cfg) && ParseExpiration(cfg.refreshTokenExpiresIn).Success?
            && ParseExpiration(cfg.accessTokenExpiresIn).Failure? ==>
      r.LoginFailed? && r.error == Lifetime(ParseExpiration(cfg.accessTokenExpiresIn).error)
    ensures Signable(cfg) && ParseExpiration(cfg.refreshTokenExpiresIn).Success? ==>
      var lifetime := ParseExpiration(cfg.refreshTokenExpiresIn).value;
      && id in r.store
      && r.store[id] == Store.Entry(userId, if lifetime == 0 then None else Some(now + lifetime * 1000))
      && r.store - {id} == revoked - {id}
    ensures r.LoggedIn? ==>
      && (forall t: nat ::
            Verify(r.refreshToken, cfg.refreshTokenSecret, t)
              == (if Seconds(t) < Seconds(now) + cfg.timespan(cfg.refreshTokenExpiresIn).value
                  then Some(Claims(userId, Some(id))) else None))
      && (forall t: nat ::
            Verify(r.accessToken, cfg.accessTokenSecret, t)
              == (if Seconds(t) < Seconds(now) + cfg.timespan(cfg.accessTokenExpiresIn).value
                  then Some(Claims(userId, None)) else None))
      && r.cookies == [
           SetCookie(AccessCookie, r.accessToken,
             cfg.cookieOptions.(maxAge := Some(ParseExpiration(cfg.accessTokenExpiresIn).value * 1000))),
           SetCookie(RefreshCookie, r.refreshToken,
             cfg.cookieOptions.(maxAge := Some(ParseExpiration(cfg.refreshTokenExpiresIn).value * 1000)))]
  {
    match CreateAuthTokens(cfg, userId, id, now)
    case Failure(e) => LoginFailed(revoked, e)
    case Success(tokens) => RecordSession(cfg, revoked, userId, id, tokens, now)
  }

  /**
   * The steps of sendAuthCookies after signing: record the session for the
   * parsed refresh lifetime, then set the two cookies. Parsing the refresh
   * lifetime throws before the store is written, parsing the access
   * lifetime after it.
   */
  function RecordSession(cfg: Config, revoked: Store.Store, userId: string, id: string, tokens: AuthTokens, now: nat)
    : (r: LoginResult)
    ensures r.LoggedIn? <==>
      ParseExpiration(cfg.refreshTokenExpiresIn).Success? && ParseExpiration(cfg.accessTokenExpiresIn).Success?
    ensures ParseExpiration(cfg.refreshTokenExpiresIn).Failure? ==>
      r == LoginFailed(revoked, Lifetime(ParseExpiration(cfg.refreshTokenExpiresIn).error))
    ensures ParseExpiration(cfg.refreshTokenExpiresIn).Success? && ParseExpiration(cfg.accessTokenExpiresIn).Failure? ==>
      r.LoginFailed? && r.error == Lifetime(ParseExpiration(cfg.accessTokenExpiresIn).error)
    ensures ParseExpiration(cfg.refreshTokenExpiresIn).Success? ==>
      var lifetime := ParseExpiration(cfg.refreshTokenExpiresIn).value;
      && id in r.store
      && r.store[id] == Store.Entry(userId, if lifetime == 0 then None else Some(now + lifetime * 1000))
      && r.store - {id} == revoked - {id}
    ensures r.LoggedIn? ==>
      && r.accessToken == tokens.accessToken && r.refreshToken == tokens.refreshToken
      && r.cookies == [
           SetCookie(AccessCookie, r.accessToken,
             cfg.cookieOptions.(maxAge := Some(ParseExpiration(cfg.accessTokenExpiresIn).value * 1000))),
           SetCookie(RefreshCookie, r.refreshToken,
             cfg.cookieOptions.(maxAge := Some(ParseExpiration(cfg.refreshTokenExpiresIn).value * 1000)))]
  {
    match ParseExpiration(cfg.refreshTokenExpiresIn)
    case Failure(e) => LoginFailed(revoked, Lifetime(e))
    case Success(refreshLifetime) =>
      var stored := Store.Set(revoked, id, userId, Some(refreshLifetime), now);
      match ParseExpiration(cfg.accessTokenExpiresIn)
      case Failure(e) => LoginFailed(stored, Lifetime(e))
      case Success(accessLifetime) =>
        LoggedIn(stored, tokens.accessToken, tokens.refreshToken, [
          SetCookie(AccessCookie, tokens.accessToken, cfg.cookieOptions.(maxAge := Some(accessLifetime * 1000))),
          SetCookie(RefreshCookie, tokens.refreshToken, cfg.cookieOptions.(maxAge := Some(refreshLifetime * 1000)))])
  }

  /**
   * sendAuthCookies: best-effort revoke the old session, then issue a new
   * session under the id `userId-now`. Each step that throws leaves the
   * effects of the steps before it in place.
   */
  function SendAuthCookies(cfg: Config, store: Store.Store, userId: string, oldRefreshToken: Option<Token>, now: nat)
    : (r: LoginResult)
    ensures r.LoggedIn? <==>
      Signable(cfg) && ParseExpiration(cfg.refreshTokenExpiresIn).Success?
      && ParseExpiration(cfg.accessTokenExpiresIn).Success?
    ensures !Signable(cfg) ==>
      r == LoginFailed(store - RevokedKeys(cfg, oldRefreshToken, now), SignFailed)
    ensures Signable(cfg) && ParseExpiration(cfg.refreshTokenExpiresIn).Failure? ==>
      r == LoginFailed(store - RevokedKeys(cfg, oldRefreshToken, now),
                       Lifetime(ParseExpiration(cfg.refreshTokenExpiresIn).error))
    ensures Signable(cfg) && ParseExpiration(cfg.refreshTokenExpiresIn).Success?
            && ParseExpiration(cfg.accessTokenExpiresIn).Failure? ==>
      r.LoginFailed? && r.error == Lifetime(ParseExpiration(cfg.accessTokenExpiresIn).error)
    ensures Signable(cfg) && ParseExpiration(cfg.refreshTokenExpiresIn).Success? ==>
      var id := SessionId(userId, now);
      var lifetime := ParseExpiration(cfg.refreshTokenExpiresIn).value;
      && id in r.store
      && r.store[id] == Store.Entry(userId, if lifetime == 0 then None else Some(now + lifetime * 1000))
      && r.store - {id} == store - RevokedKeys(cfg, oldRefreshToken, now) - {id}
    ensures r.LoggedIn? ==>
      var id := SessionId(userId, now);
      && (forall t: nat ::
            Verify(r.refreshToken, cfg.refreshTokenSecret, t)
              == (if Seconds(t) < Seconds(now) + cfg.timespan(cfg.refreshTokenExpiresIn).value
                  then Some(Claims(userId, Some(id))) else None))
      && (forall t: nat ::
            Verify(r.accessToken, cfg.accessTokenSecret, t)
              == (if Seconds(t) < Seconds(now) + cfg.timespan(cfg.accessTokenExpiresIn).value
                  then Some(Claims(userId, None)) else None))
      && r.cookies == [
           SetCookie(AccessCookie, r.accessToken,
             cfg.cookieOptions.(maxAge := Some(ParseExpiration(cfg.accessTokenExpiresIn).value * 1000))),
           SetCookie(RefreshCookie, r.refreshToken,
             cfg.cookieOptions.(maxAge := Some(ParseExpiration(cfg.refreshTokenExpiresIn).value * 1000)))]
  {
    IssueSession(cfg, RevokeOld(cfg, store, oldRefreshToken, now), userId, SessionId(userId, now), now)
  }

  /**
   * A refresh token issued for session `id` names that session for exactly
   * as long as it verifies, so the token and its store record stay paired.
   */
  lemma IssuedRefreshTokenNamesSession(cfg: Config, userId: string, id: string, now: nat, t: nat)
    requires CreateAuthTokens(cfg, userId, id, now).Success?
    ensures SessionOf(cfg, CreateAuthTokens(cfg, userId, id, now).value.refreshToken, t)
         == (if Seconds(t) < Seconds(now) + cfg.timespan(cfg.refreshTokenExpiresIn).value then Some(id) else None)
    ensures !Keyless(cfg, CreateAuthTokens(cfg, userId, id, now).value.refreshToken, t)
  {
  }

  /** What clearAuthCookies leaves behind. */
  datatype LogoutResult = LoggedOut(store: Store.Store, cookies: seq<CookieOp>)

  /**
   * clearAuthCookies: best-effort revoke the session of the refresh token,
   * then clear both cookies with the base options whatever happened.
   */
  function ClearAuthCookies(cfg: Config, store: Store.Store, refreshToken: Token, now: nat): (r: LogoutResult)
    ensures r.cookies == [ClearCookie(AccessCookie, cfg.cookieOptions), ClearCookie(RefreshCookie, cfg.cookieOptions)]
    ensures r.store == store - RevokedKeys(cfg, Some(refreshToken), now)
  {
    LoggedOut(
      RevokeSession(cfg, store, refreshToken, now),
      [ClearCookie(AccessCookie, cfg.cookieOptions), ClearCookie(RefreshCookie, cfg.cookieOptions)])
  }
}
