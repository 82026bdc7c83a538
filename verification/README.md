# AuthAPI credential lifecycle, modelled in Dafny

This project models `AuthUtils`, the credential service of AuthAPI, together
with the Redis-backed revocation store it relies on. The service issues a
short-lived access token (cookie `id`) and a long-lived refresh token (cookie
`rid`). It records each login session in the store under the key
`userId-now`. A request is authenticated by its access token alone, or else by
a refresh token whose session is still recorded, which earns a new access
token. Login revokes the previous session on a best-effort basis. Logout does
the same and always clears both cookies.

Everything is pure and functional. Each operation takes the store state (a
finite map from key to value and optional expiry) and the clock reading `now`
in milliseconds. It returns the new store state together with the cookies,
tokens or result it hands back.

| file | module | models |
|---|---|---|
| `wrappers.dfy` | `Wrappers` | `Option` (null/undefined) and `Result` (value or thrown error) |
| `decimal.dfy` | `Decimal` | `parseInt(s, 10)` on digit strings and `${n}` rendering of the clock |
| `duration.dfy` | `Duration` | `parseExpiration`, `getExpirationInMilliseconds` |
| `jwt.dfy` | `Jwt` | an abstract stand-in for `jsonwebtoken` sign/verify |
| `store.dfy` | `RevocationStore` | `RedisClient.set/get/del/exists` |
| `auth.dfy` | `AuthUtils` | constructor options, `createAuthTokens`, `checkTokens`, `sendAuthCookies`, `clearAuthCookies` |
| `lifecycle.dfy` | `Lifecycle` | properties that span several calls |

Abstractions:
- A token is either `Malformed` or `Signed(claims, signedWith, exp)`.
  - Signing at `now` with a lifetime of `L` seconds sets `exp = floor(now/1000) + L`, as `jsonwebtoken` computes `iat + expiresIn`.
  - Verification succeeds only under the signing secret, and only while `floor(now/1000) < exp`.
- A missing or empty cookie is `None`. That is the falsy case the source tests with `if (oldRefreshToken)` and `if (!refreshToken)`.
- A store entry has an absolute expiry of `now + ttl*1000` milliseconds. It is live up to and including that millisecond, because the server expires a key only once its clock is past the expiry. Every operation treats an expired entry as absent.
- The token library reads an `expiresIn` string with its own parser, which is not part of this model. `Config.timespan` stands for it: a function from the string to a number of seconds, or to nothing where `jwt.sign` throws. Tokens are signed with that reading; the store TTL and the cookie max-age use `parseExpiration`.
- Errors that escape a call other than `UNAUTHORIZED` are `ServiceError`s:
  - `SignFailed` when `jwt.sign` refuses a lifetime string;
  - `StoreRejected` when the store is called with an undefined key;
  - `Lifetime(e)` when `parseExpiration` throws `e`.
- `checkTokens` returns `Authenticated(userId)` for `{ userId, newAccessToken: null }` and `Refreshed(userId, token)` for a new access token. It returns `Unauthorized` for the thrown `UNAUTHORIZED` error and `Failed(error)` for any other thrown error.
- `sendAuthCookies` runs as three steps: `RevokeOld`, then `IssueSession` (signing), then `RecordSession` (store write, then cookies). A step that throws keeps the effects of the steps before it.

On these points the model follows the code:
- `checkTokens` does not rotate the refresh token. It does not write the store on the refresh path either, so a used refresh token stays usable (`Lifecycle.RefreshCanBeReplayed`).
- Session ids are `userId-Date.now()`, with no random part. `Lifecycle.SessionIdInjective` shows that they collide only for the same user within the same millisecond.
- Logout deletes the session only when the refresh token verifies. A token that does not verify leaves the store untouched.
- Logout does not revoke a still-valid access token (`Lifecycle.AccessSurvivesLogout`).

## Model

| member | source | states |
|---|---|---|
| Decimal.Value | src/authUtils.ts:240 | `parseInt(s, 10)` of a digit string is a natural number below 10 to the power of its length |
| Decimal.LeadingZeroIgnored | src/authUtils.ts:240 | a leading zero does not change the parsed value, so "015m" reads as 15 minutes |
| Decimal.Render | src/authUtils.ts:116 | the clock reading in a session id is a non-empty digit string without a leading zero |
| Decimal.ValueOfRender | src/authUtils.ts:240 | `parseInt` of the rendered clock reading gives the reading back |
| Decimal.RenderInjective | src/authUtils.ts:116 | distinct clock readings render as distinct digit strings |
| Duration.Lower | src/authUtils.ts:241 | lower-casing keeps the length, maps each character by itself and leaves no upper-case ASCII letter |
| Duration.ParseExpiration | src/authUtils.ts:236-255 | a success is the digit value times the seconds of a supported lower-cased unit at a digits/letters split; the invalid-format error names the input and occurs only when the input does not match; the unsupported-unit error names the lower-cased letters of a split whose unit is not s, m, h or d |
| Duration.LeadingDigits | src/authUtils.ts:237 | the `\d+` group ends at the first non-digit: everything before it is a digit |
| Duration.InUnit | src/authUtils.ts:243-254 | the unit switch multiplies by exactly 1, 60, 3600 or 86400 seconds for s, m, h, d and throws an unsupported-unit error for any other unit |
| Duration.ParseDigitsThenLetters | src/authUtils.ts:236-254 | for any non-empty digits `d` and letters `u`, parsing `d + u` gives value(d) times the seconds of lower-cased `u`, or the unsupported-unit error naming lower-cased `u` |
| Duration.InvalidFormatIffNoMatch | src/authUtils.ts:237-238 | the invalid-format error is thrown exactly when the whole string is not one or more digits followed by one or more letters |
| Duration.SuccessIffSupported | src/authUtils.ts:237-251 | parsing succeeds exactly on digits-then-letters strings whose letters are s, m, h or d in either case |
| Duration.RenderThenParse | src/authUtils.ts:236-251 | rendering a number followed by a supported unit letter and parsing it back yields the number times that unit's seconds |
| Duration.ExpirationInMilliseconds | src/authUtils.ts:88-90 | the millisecond lifetime is 1000 times the parsed seconds and fails with the same error |
| Duration.FifteenMinutesExample | src/authUtils.ts:21 | the default access lifetime "15m" is 900 seconds |
| Duration.FifteenMinutesInMilliseconds | src/authUtils.ts:88-90 | getExpirationInMilliseconds("15m") is 900000 |
| Duration.UpperCaseUnitExample | src/authUtils.ts:237-247 | the unit is case-insensitive: "15M" is also 900 seconds |
| Duration.ThirtyDaysExample | src/authUtils.ts:22 | the default refresh lifetime "30d" is 2592000 seconds |
| Duration.InvalidFormatExamples | src/authUtils.ts:237-238 | "abc", "15", "1.5h" and "-5m" are rejected as invalid format |
| Duration.UnknownUnitExample | src/authUtils.ts:252-253 | "10x" is rejected with an unsupported-unit error naming "x" |
| Duration.MillisecondUnitRejected | src/authUtils.ts:237-253 | "10ms" matches the pattern but is rejected as the unsupported unit "ms" |
| Duration.WeeksRejected | src/authUtils.ts:241-253 | "2W" is rejected as the unsupported unit "w" rather than approximated |
| Duration.SplitIsLeadingDigits | src/authUtils.ts:237 | when a string splits into digits then letters, the digit group the parser finds ends exactly at that split |
| Jwt.Verify | src/authUtils.ts:169-172 | verification returns only the claims the token was signed over, and only under its signing secret |
| Jwt.VerifyCookie | src/authUtils.ts:179 | a missing credential never verifies |
| Jwt.Sign | src/authUtils.ts:218-226 | a signed token verifies under exactly its own secret, returning its claims, while floor(t/1000) is below the issuance second plus the lifetime, and never afterwards |
| RevocationStore.Set | src/redisClient.ts:51-61 | set stores the value under the key and leaves every other key as it was |
| RevocationStore.Get | src/redisClient.ts:63-70 | get returns the stored value exactly when the key is present and unexpired, otherwise null |
| RevocationStore.Del | src/redisClient.ts:72-79 | del removes the key and returns 1 if it was present and unexpired, otherwise 0 |
| RevocationStore.Exists | src/redisClient.ts:81-88 | exists returns 1 exactly when get would find the key, otherwise 0 |
| RevocationStore.SetWithTtlThenGet | src/redisClient.ts:56-57 | a key set with a positive TTL reads back up to and including the expiry millisecond `now + ttl*1000` and is absent strictly after it |
| RevocationStore.SetWithoutTtlThenGet | src/redisClient.ts:56-60 | a key set with no TTL or a TTL of 0 (falsy) never expires |
| RevocationStore.SetOverwrites | src/redisClient.ts:51-61 | a second set of the same key replaces the first value and TTL entirely |
| RevocationStore.OtherKeysUnchanged | src/redisClient.ts:51-79 | set and del do not change what get returns for any other key |
| RevocationStore.DelThenGet | src/redisClient.ts:72-79 | after del the key is absent at every time, and a second del removes nothing |
| AuthUtils.NewAuthUtils | src/authUtils.ts:17-39 | the cookie options are httpOnly, sameSite lax and path "/", secure exactly in production, and have domain "." + domain in production and "" otherwise |
| AuthUtils.CreateAuthTokens | src/authUtils.ts:214-229 | signing fails exactly when the library refuses either lifetime string; otherwise the refresh token carries userId and refreshTokenId under the refresh secret and the access token carries only userId under the access secret, each verifying until the library's reading of its own lifetime ends |
| AuthUtils.IssuedRefreshTokenNamesSession | src/authUtils.ts:116-122 | a refresh token issued for a session id names exactly that session for as long as it verifies, and never lacks a refreshTokenId |
| AuthUtils.CheckTokens | src/authUtils.ts:167-206 | a valid access token yields its own userId; otherwise no refresh token yields Unauthorized; a verified refresh payload without refreshTokenId, and only that, makes the store lookup reject; a refresh yields the non-empty userId the store holds for the token's session and an access token signed over it; a refused access lifetime fails signing only after such a lookup |
| AuthUtils.SessionId | src/authUtils.ts:116 | the session id is the user id, a dash, then decimal digits whose value is the clock reading |
| AuthUtils.RevokeSession | src/authUtils.ts:103-114 | the old session is deleted only if its refresh token verifies; otherwise the store is unchanged and nothing is reported |
| AuthUtils.RevokeOld | src/authUtils.ts:103-114 | the first login step removes exactly the session an earlier refresh token names, if it names one, and nothing else |
| AuthUtils.IssueSession | src/authUtils.ts:117-135 | a refused lifetime string fails with SignFailed before the store is written; otherwise the session record and cookies are as in the following step, with tokens that verify for the library's lifetimes |
| AuthUtils.RecordSession | src/authUtils.ts:122-135 | an unparsable refresh lifetime throws before the store is written; otherwise the session is stored with TTL the parsed refresh lifetime (none if 0) and no other key changes; an unparsable access lifetime then throws before any cookie is set; on success `id` and `rid` get maxAge 1000 times each parsed lifetime |
| AuthUtils.SendAuthCookies | src/authUtils.ts:98-136 | login succeeds exactly when both lifetimes are signable and parse; every failure names its cause, and the store on failure is the original minus the revoked session, or that plus the new session when only the access lifetime fails to parse; when the refresh lifetime parses, `userId-now` maps to userId with TTL that lifetime (none if 0) and every other key is as before apart from the revoked session; the tokens verify with the issued claims and the cookies carry 1000 times the parsed lifetimes |
| AuthUtils.ClearAuthCookies | src/authUtils.ts:143-159 | logout always clears `id` and `rid` with the base options, and the store becomes the original minus the session the refresh token names when it verifies, and nothing else |
| Lifecycle.CheckTokensDecision | src/authUtils.ts:167-206 | each of the five outcomes of checkTokens holds exactly under its condition: a valid access token; a live non-empty session with a signable access lifetime; none of a valid access token, a live session or a keyless refresh payload; a keyless refresh payload (store rejects); or a live session with an access lifetime the library refuses |
| Lifecycle.UnauthorizedCases | src/authUtils.ts:179-196 | without a valid access token: a missing refresh token, a refresh token that fails verification, or a null or empty stored value each yield Unauthorized |
| Lifecycle.FastPathIgnoresRefreshAndStore | src/authUtils.ts:168-175 | with a valid access token the result depends on neither the refresh token nor the store |
| Lifecycle.RefreshCanBeReplayed | src/authUtils.ts:192-204 | the refresh path writes nothing, so the same refresh token refreshes again with any failing access token |
| Lifecycle.LoginRecordOutlivesRefreshToken | src/authUtils.ts:116-126 | after login, the session record is readable whenever the issued refresh token still verifies, when the library reads the refresh lifetime as no longer than parseExpiration |
| Lifecycle.LoginThenAuthenticate | src/authUtils.ts:117-175 | the access token issued at login authenticates its user until it expires, whatever the refresh token and store |
| Lifecycle.LoginThenRefresh | src/authUtils.ts:116-204 | once the login's access token has expired, its refresh token obtains a new access token for the same non-empty user, for as long as it verifies |
| Lifecycle.EmptyUserIdCannotRefresh | src/authUtils.ts:192-196 | a session stored for the empty user id never refreshes |
| Lifecycle.LogoutRevokesRefresh | src/authUtils.ts:147-158 | after logout with a refresh token that verified, that token always yields Unauthorized without a valid access token |
| Lifecycle.AccessSurvivesLogout | src/authUtils.ts:168-175 | logout does not invalidate an access token that still verifies |
| Lifecycle.LoginRevokesOldSession | src/authUtils.ts:103-126 | login deletes the verified old session, is unaffected by an old token that does not verify, and issues the same tokens and cookies either way |
| Lifecycle.LogoutEffects | src/authUtils.ts:147-158 | logout clears exactly `id` and `rid` with the constructor's options and changes no store key except the verified session |
| Lifecycle.DefaultLoginCookies | src/authUtils.ts:21-22 | with the default lifetimes, when the library accepts them, the login cookies get maxAge 900000 and 2592000000 milliseconds and in development mode neither is secure or bound to a domain |
| Lifecycle.SessionIdInjective | src/authUtils.ts:116 | two session ids are equal only for the same user and the same millisecond |
| Lifecycle.ZeroRefreshLifetime | src/authUtils.ts:122-126 | a zero refresh lifetime stores the session with no expiry, but its refresh token never verifies after issuance |

## Left out

- JWT cryptography (HMAC signing, base64 encoding, header checks) is replaced by the abstract `Jwt.Token`. Forging and tampering are therefore outside the model.
- The token library's own parser for `expiresIn` is not part of this model; it is the parameter `Config.timespan`. Properties that tie a token's expiry to its store record assume the library reads the refresh lifetime as no longer than `parseExpiration` does. Negative readings, which the library allows, are not represented, because `timespan` yields natural numbers.
- A refresh payload without `refreshTokenId` can only verify if both secrets are equal. Its `get` or `del` call on an undefined key is modelled as rejecting. `checkTokens` lets that rejection escape as `Failed(StoreRejected)`, while login and logout swallow it.
- Store failures (`StoreUnavailable`, connection errors) and the Redis connection lifecycle (`connect`, `disconnect`, error events) are network I/O and are not modelled.
- The getters (`getRedis`, `getAccessTokenSecret`, `getRefreshTokenSecret`, `getAccessTokenExpiresIn`, `getRefreshTokenExpiresIn`, `getCookieOptions`) only return fields; they are the fields of `AuthUtils.Config`.
- Concurrency is not modelled: each call is one sequential step over the store. This leaves out the race between concurrent refreshes, and the interleaving of login's `del` and `set` with other requests.
- Console logging is not modelled.
- JavaScript `number` limits are not modelled: `parseInt` and the multiplications use unbounded naturals.
- `jwt.verify`, the store and `Date.now()` read one shared clock value per call in the model; a real call reads the clock several times.
- Express wiring, the demo handlers, the middleware and the response adapter are transport. The middleware discards `newAccessToken`, so a refreshed access token is never written back.
