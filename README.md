# Session-token lifecycle of a Spring Boot authentication service, in Dafny

This project models the authentication core of a Spring Boot application. Users sign up or log in and receive two
cookies:

- `access_token` holds a short-lived JWT signed with HMAC.
- `refresh_token` holds a long-lived opaque UUID, kept as a row in a refresh-token store.

Each request passes through an authentication gate. The gate reads the access cookie and attaches the user it names
if the token is valid. `/api/auth/refresh` rotates a refresh token: the presented row is deleted before a new pair is
issued. `/api/auth/logout` deletes every refresh row the user owns and clears both cookies.

Modules, one per component:

- `Wrappers`: `Option` and `Result`, standing for Java's `null` and thrown exceptions.
- `JavaInt`: Java's truncating `/` and its narrowing `(int)` cast.
- `Tokens` (`JwtService.java`): the signer.
  - A signed token is the value `Jws(claims, key)`, meaning "these claims, signed under that key".
  - `Text` is a Java `String` as the signer sees it: either the compact serialisation of a signed token
    (`Compact`) or any other text (`Plain`).
  - Token times are NumericDate seconds, as in section 2 of RFC 7519.
- `Models` (`RefreshToken.java`, and a `User` record): the persisted entities.
- `Http`: cookies, the request's cookie array (possibly null), the response's appended cookies, and the first-match
  cookie search `FirstValue`.
- `Session` (`AuthService.java`): the step functions over the two stores, and the class `AuthService`.
  - The step functions are `SignupStep`, `LoginStep`, `LogoutStep`, `RefreshStep` and `IssueStep`.
  - `AuthService` holds the users (id ↦ user) and the refresh tokens (value ↦ row) as map fields. Its methods
    change those fields one repository call at a time. Each method is proved to reach the state, and return the
    result, that its step function gives.
- `Gate` (`JwtAuthFilter.java`): the filter class, a mutable `SecurityContext`, and a `FilterChain` that records
  the requests passed on.
- `Controller` (`Auth.java`): the handlers. Each returns a status and body, and appends cookies to an
  `HttpResponse`.
- `Lifecycle`: properties that span several operations:
  - single-use refresh tokens;
  - revocation at logout;
  - an issued pair is accepted by the gate and by a later refresh.

Things outside the program become parameters:

- the clock (`now`, in milliseconds);
- the fresh user id the store assigns;
- the random UUID;
- the password encoder's output (`encodedPassword`);
- the authentication manager's verdict (`authenticated`);
- the user-details service (a map from username to user).

A fresh id or UUID that is already stored is not excluded by a precondition. A UUID already stored is refused the
way the store's unique token index refuses it, with `DuplicateKey`. An already-stored user id is refused the same
way. That path has no counterpart in the source, where the store assigns the id (see "Left out").

On two points the code does something a reader might not expect, and the model follows the code:

- A token is still valid at the exact instant its `exp` names. `exp.before(now)` is the expiry test.
- The access cookie's max-age is the constant 900, whatever the configured access-token lifetime.

## Model

| member | source | states |
|---|---|---|
| `Session.SignupStep` | src/main/java/com/jayendrabharti/springbootfullstack/services/AuthService.java:43-52 | a registered email fails with no change to either store; a new email with an unused id and an unused value succeeds (an id already stored fails with nothing changed, a value already stored fails after the user was saved); success adds exactly one user (fresh id, email, encoded password) and exactly one refresh row for that id, and the response carries the request's email; any failure creates no refresh row; the stores stay well formed |
| `Session.AuthService.Signup` | src/main/java/com/jayendrabharti/springbootfullstack/services/AuthService.java:43-52 | the method's existsByEmail / save / issue sequence ends in the state and result of `SignupStep`, keeping the store invariant |
| `Session.LoginStep` | src/main/java/com/jayendrabharti/springbootfullstack/services/AuthService.java:54-62 | a rejected authentication fails with the stores unchanged; an unknown email fails with `UserNotFound`; an accepted authentication for a stored email succeeds with an unused value and fails with `DuplicateKey` and nothing changed with a stored one; a success issues a pair for the user with that email; users are never changed and a failure stores nothing |
| `Session.AuthService.Login` | src/main/java/com/jayendrabharti/springbootfullstack/services/AuthService.java:54-62 | the method ends in the state and result of `LoginStep` |
| `Session.FindByEmail` | src/main/java/com/jayendrabharti/springbootfullstack/services/AuthService.java:58-59 | nothing exactly when no user has the email, otherwise the stored user with that email |
| `Session.AuthService.FindUserByEmail` | src/main/java/com/jayendrabharti/springbootfullstack/services/AuthService.java:58-59 | the repository lookup agrees with `FindByEmail` |
| `Session.AuthService.ExistsByEmail` | src/main/java/com/jayendrabharti/springbootfullstack/services/AuthService.java:44 | true exactly when some stored user has the email |
| `Session.AuthService.SaveUser` | src/main/java/com/jayendrabharti/springbootfullstack/services/AuthService.java:49 | inserts the user under its id unless that id is taken, and leaves the refresh tokens alone |
| `Session.LogoutStep` | src/main/java/com/jayendrabharti/springbootfullstack/services/AuthService.java:64-65 | a row survives exactly when it is not the user's, surviving rows are unchanged, users are unchanged |
| `Session.LogoutCookies` | src/main/java/com/jayendrabharti/springbootfullstack/services/AuthService.java:66-67 | exactly two cookies, `access_token` on `/` then `refresh_token` on `/api/auth/refresh`, each http-only, empty, max-age 0 |
| `Session.AuthService.Logout` | src/main/java/com/jayendrabharti/springbootfullstack/services/AuthService.java:64-68 | the state becomes `LogoutStep` of the old state and the returned cookies are `LogoutCookies` |
| `Session.AuthService.DeleteByUserId` | src/main/java/com/jayendrabharti/springbootfullstack/services/AuthService.java:65 | removes the user's rows from the refresh-token map and nothing else |
| `Session.RefreshStep` | src/main/java/com/jayendrabharti/springbootfullstack/services/AuthService.java:70-86 | an unknown value fails with nothing changed; an expired row is deleted and the call fails; otherwise the row is deleted first, a missing owner fails with the row gone and no new row, an existing owner succeeds exactly when the new value is not stored among the other rows (else `DuplicateKey` with the row gone), and a success adds one row {fresh value, same owner, now + refresh lifetime} and a pair for the owner's email |
| `Session.AuthService.RefreshTokens` | src/main/java/com/jayendrabharti/springbootfullstack/services/AuthService.java:70-86 | the findByToken / isExpired / delete / findById / issue sequence ends in the state and result of `RefreshStep` |
| `Session.AuthService.FindByToken` | src/main/java/com/jayendrabharti/springbootfullstack/services/AuthService.java:71-72 | the row stored under the value, or nothing |
| `Session.AuthService.Delete` | src/main/java/com/jayendrabharti/springbootfullstack/services/AuthService.java:75 | removes exactly the row's token from the refresh-token map |
| `Session.AuthService.FindUserById` | src/main/java/com/jayendrabharti/springbootfullstack/services/AuthService.java:82-83 | the user stored under the id, or nothing |
| `Session.IssueStep` | src/main/java/com/jayendrabharti/springbootfullstack/services/AuthService.java:88-102 | a fresh value already stored is refused with nothing changed; an unused value always succeeds, adding exactly one row {value, user id, now + refresh lifetime, no document id}, and the pair satisfies `IssuedPair`: access cookie http-only on `/` for 900 s holding a token for the email, expiring now + access lifetime; refresh cookie http-only on the refresh path holding the opaque value |
| `Session.AuthService.GenerateTokensAndCookies` | src/main/java/com/jayendrabharti/springbootfullstack/services/AuthService.java:88-102 | the method ends in the state and result of `IssueStep` |
| `Session.AuthService.SaveRefreshToken` | src/main/java/com/jayendrabharti/springbootfullstack/models/RefreshToken.java:15-16 | the unique index on the token: a save succeeds exactly when the value is not yet stored |
| `Session.IssueKeepsWellFormed` | src/main/java/com/jayendrabharti/springbootfullstack/models/RefreshToken.java:15-16 | issuance keeps every stored token value the key of its own row |
| `Session.CreateCookie` | src/main/java/com/jayendrabharti/springbootfullstack/services/AuthService.java:104-111 | the cookie has the given name, value, path and max-age and is http-only |
| `Session.CreateClearedCookie` | src/main/java/com/jayendrabharti/springbootfullstack/services/AuthService.java:113-119 | the cookie has the given name and path, the empty value, max-age 0, and is http-only |
| `Session.RefreshCookieMaxAge` | src/main/java/com/jayendrabharti/springbootfullstack/services/AuthService.java:98-99 | `(int) (refreshTokenExpiration / 1000)`: a 32-bit value congruent modulo 2^32 to the lifetime in seconds truncated toward zero |
| `Session.RefreshCookieMaxAgeInSeconds` | src/main/java/com/jayendrabharti/springbootfullstack/services/AuthService.java:98-99 | for a lifetime below 1000 × 2^31 ms the refresh cookie's max-age is the lifetime in whole seconds, rounded down |
| `JavaInt.Div` | src/main/java/com/jayendrabharti/springbootfullstack/services/AuthService.java:99 | Java's `/`: the quotient truncated toward zero, for either sign |
| `JavaInt.ToInt` | src/main/java/com/jayendrabharti/springbootfullstack/services/AuthService.java:99 | Java's `(int)` cast: a 32-bit value congruent to the input modulo 2^32, and the input itself when it fits |
| `Tokens.NewSigner` | src/main/java/com/jayendrabharti/springbootfullstack/services/JwtService.java:25-31 | a key under 256 bits is refused; otherwise the key and both lifetimes are exactly the configured ones, fixed for the signer's life |
| `Tokens.Signer.GenerateAccessToken` | src/main/java/com/jayendrabharti/springbootfullstack/services/JwtService.java:33-40 | parsing the token with the service's key gives subject = username, iat = now and exp = now + access lifetime (as NumericDate seconds) |
| `Tokens.Signer.GenerateRefreshToken` | src/main/java/com/jayendrabharti/springbootfullstack/services/JwtService.java:42-44 | the value is the UUID's text, carries no claims and is refused by the parser |
| `Tokens.Signer.ParseSignedClaims` | src/main/java/com/jayendrabharti/springbootfullstack/services/JwtService.java:63-66 | claims come back exactly when the text is a JWS signed with the service's key, and they are that token's claims |
| `Tokens.Signer.ExtractEmail` | src/main/java/com/jayendrabharti/springbootfullstack/services/JwtService.java:50-52 | succeeds exactly when parsing does, with the token's subject |
| `Tokens.Signer.IsTokenExpired` | src/main/java/com/jayendrabharti/springbootfullstack/services/JwtService.java:59-61 | succeeds exactly when parsing does; true iff the expiry instant is strictly before `now` |
| `Tokens.Signer.IsTokenValid` | src/main/java/com/jayendrabharti/springbootfullstack/services/JwtService.java:54-57 | fails exactly when parsing does; otherwise true iff the subject equals the username and the token is not expired |
| `Tokens.Signer.GetRefreshTokenExpiration` | src/main/java/com/jayendrabharti/springbootfullstack/services/JwtService.java:46-48 | the configured refresh-token lifetime in milliseconds |
| `Tokens.AccessTokenRoundTrip` | src/main/java/com/jayendrabharti/springbootfullstack/services/JwtService.java:50-52 | the email extracted from a freshly issued token is the username it was issued for |
| `Tokens.ForeignTokenRejected` | src/main/java/com/jayendrabharti/springbootfullstack/services/JwtService.java:63-66 | a token signed under another key yields neither an email nor a validity verdict |
| `Tokens.ExpiryIsStrict` | src/main/java/com/jayendrabharti/springbootfullstack/services/JwtService.java:59-61 | not expired at the exact expiry instant, expired one millisecond later |
| `Tokens.AccessTokenLifetime` | src/main/java/com/jayendrabharti/springbootfullstack/services/JwtService.java:37 | an issued token is valid from issuance until at least ttl − 999 ms later and invalid at any instant after now + ttl |
| `Models.NewRefreshToken` | src/main/java/com/jayendrabharti/springbootfullstack/models/RefreshToken.java:26-30 | the row has the given token, owner and expiry, and no document id |
| `Models.RefreshToken.IsExpired` | src/main/java/com/jayendrabharti/springbootfullstack/models/RefreshToken.java:32-34 | `isExpired`: true exactly when the expiry date is strictly before `now` |
| `Models.ExpiredExactlyAfter` | src/main/java/com/jayendrabharti/springbootfullstack/models/RefreshToken.java:32-34 | a row is expired iff `now` is strictly after its expiry date, so not at the expiry date itself |
| `Http.NewCookie` | src/main/java/com/jayendrabharti/springbootfullstack/services/AuthService.java:105 | a new cookie has the given name and value, no path, max-age −1 and is not http-only, before the setters run |
| `Http.FirstValueIsFirstMatch` | src/main/java/com/jayendrabharti/springbootfullstack/security/JwtAuthFilter.java:59-64 | the search finds nothing iff no cookie has the name, and otherwise the value of the earliest cookie with that name |
| `Http.HttpResponse.AddCookie` | src/main/java/com/jayendrabharti/springbootfullstack/controllers/Auth.java:29 | appends exactly the cookie to the response's cookies |
| `Gate.JwtAuthFilter.ExtractTokenFromCookies` | src/main/java/com/jayendrabharti/springbootfullstack/security/JwtAuthFilter.java:56-65 | the loop returns the first `access_token` cookie's value, and nothing for a null array or no match |
| `Gate.TryAuthenticate` | src/main/java/com/jayendrabharti/springbootfullstack/security/JwtAuthFilter.java:37-50 | an authentication results iff the token is signed with the key, its subject loads user details with that username, and it is not expired; the principal is those details; every failure yields none |
| `Gate.GateOutcome` | src/main/java/com/jayendrabharti/springbootfullstack/security/JwtAuthFilter.java:34-51 | no token, or an identity already present, leaves the context unchanged; otherwise the context becomes the result of `TryAuthenticate` |
| `Gate.GateOnlyAttaches` | src/main/java/com/jayendrabharti/springbootfullstack/security/JwtAuthFilter.java:36-45 | the context changes iff it was empty, a token was present and the token is accepted; the only change is to attach the resolved user |
| `Gate.GateIdempotent` | src/main/java/com/jayendrabharti/springbootfullstack/security/JwtAuthFilter.java:36 | a second pass of the gate over the same request changes nothing |
| `Gate.JwtAuthFilter.DoFilterInternal` | src/main/java/com/jayendrabharti/springbootfullstack/security/JwtAuthFilter.java:31-54 | the context ends as `GateOutcome` of the first `access_token` cookie and the old context, raising nothing, and the request is forwarded exactly once, with that outcome already attached to the context the rest of the pipeline sees |
| `Gate.FilterChain.DoFilter` | src/main/java/com/jayendrabharti/springbootfullstack/security/JwtAuthFilter.java:53 | records exactly one forwarding of the request, together with the authentication the context holds at that moment |
| `Controller.Answer` | src/main/java/com/jayendrabharti/springbootfullstack/controllers/Auth.java:28-31 | a service success becomes 200 with the service's response; a service failure propagates unchanged |
| `Controller.AuthController.AddPair` | src/main/java/com/jayendrabharti/springbootfullstack/controllers/Auth.java:29-30 | appends the access cookie, then the refresh cookie |
| `Controller.AuthController.Signup` | src/main/java/com/jayendrabharti/springbootfullstack/controllers/Auth.java:26-32 | the service state follows `SignupStep`; on success the two issued cookies are appended in order and 200 is returned with the service's response; on failure nothing is appended |
| `Controller.AuthController.Login` | src/main/java/com/jayendrabharti/springbootfullstack/controllers/Auth.java:34-40 | as for signup, following `LoginStep` |
| `Controller.AuthController.Logout` | src/main/java/com/jayendrabharti/springbootfullstack/controllers/Auth.java:42-49 | the service logs the principal out, exactly the service's cookies are appended in order, and the answer is 200 "Logged out successfully" with the principal's email |
| `Controller.AuthController.Refresh` | src/main/java/com/jayendrabharti/springbootfullstack/controllers/Auth.java:51-62 | without a `refresh_token` cookie: 401 "No refresh token provided" with no email, the service state and the response cookies untouched; otherwise the state follows `RefreshStep` of the presented value and the pair is appended on success |
| `Controller.AuthController.ExtractCookieValue` | src/main/java/com/jayendrabharti/springbootfullstack/controllers/Auth.java:69-78 | the loop returns the first value of a cookie with exactly that name, and nothing for a null array or no match |
| `Controller.Me` | src/main/java/com/jayendrabharti/springbootfullstack/controllers/Auth.java:64-67 | 200 "Authenticated" with the principal's email |
| `Lifecycle.SignupTwiceFails` | src/main/java/com/jayendrabharti/springbootfullstack/services/AuthService.java:44-46 | a new email with an unused id and value signs up successfully, and a second signup with the same email then fails and changes nothing |
| `Lifecycle.SignupThenLogin` | src/main/java/com/jayendrabharti/springbootfullstack/services/AuthService.java:43-62 | after a signup with fresh inputs, an accepted login with the same email and an unused value issues a pair for that email, whose new row belongs to the signed-up user |
| `Lifecycle.RefreshIsSingleUse` | src/main/java/com/jayendrabharti/springbootfullstack/services/AuthService.java:79-80 | after a successful refresh with a value, presenting it again fails as unknown with nothing changed (given the new value differs from it) |
| `Lifecycle.RefreshConsumes` | src/main/java/com/jayendrabharti/springbootfullstack/services/AuthService.java:74-80 | any refresh attempt with a stored value, successful or not, leaves that value unusable, provided the new UUID's text differs from that value |
| `Lifecycle.LogoutRevokesAll` | src/main/java/com/jayendrabharti/springbootfullstack/services/AuthService.java:64-65 | after logout, each refresh token the user held is refused as unknown |
| `Lifecycle.LogoutIdempotent` | src/main/java/com/jayendrabharti/springbootfullstack/services/AuthService.java:65 | logging out twice is the same as logging out once |
| `Lifecycle.LogoutKeepsOthers` | src/main/java/com/jayendrabharti/springbootfullstack/services/AuthService.java:65 | another user's row survives logout unchanged |
| `Lifecycle.IssuedAccessCookieAuthenticates` | src/main/java/com/jayendrabharti/springbootfullstack/security/JwtAuthFilter.java:38-45 | an issued access cookie, presented as the first `access_token` cookie of any cookie array before ttl − 999 ms have passed, makes the gate attach the user its email resolves to |
| `Lifecycle.IssuedAccessCookieExpires` | src/main/java/com/jayendrabharti/springbootfullstack/services/JwtService.java:54-61 | once the access lifetime has passed, the gate attaches nothing for that cookie, wherever it is the first `access_token` cookie |
| `Lifecycle.SignupThenRotate` | src/main/java/com/jayendrabharti/springbootfullstack/services/AuthService.java:70-86 | after a signup with fresh inputs, the new user's refresh cookie is redeemable before its expiry, yields a different refresh value and the user's email, and replaying the original value then fails |

## Left out

- Cryptography and encoding.
  - HMAC signing and the compact JWS serialisation are abstract. The model knows only which key a token was signed
    with.
  - The choice of HS256/384/512 by key length is not modelled.
  - The UTF-8 encoding of the secret is not modelled: the secret is given as bytes.
- JJWT's own expiry check inside `parseSignedClaims` is not modelled. The JWT library's code is not part of this
  model. In the source, parsing a token whose `exp` is before now throws `ExpiredJwtException`, on the same boundary
  as `isTokenExpired`. So `extractEmail`, `isTokenExpired` and `isTokenValid` throw on an expired token. Here
  `ExtractEmail` returns the subject, `IsTokenExpired` returns `Ok(true)` and `IsTokenValid` returns `Ok(false)`.
  In the source `isTokenExpired` never returns true and `isTokenValid` never returns false because of expiry. The
  second `ensures` of `Tokens.ExpiryIsStrict` describes the model only. Either way the gate attaches nothing.
- The clock: each operation reads a single `now`. The source reads the clock several times within a call: `new Date()`,
  `System.currentTimeMillis()` and `Instant.now()`. Nanosecond parts of `Instant` are dropped.
- Overflow of `currentTimeMillis() + accessTokenExpiration` (a `long`) is not modelled, and neither is the
  `DateTimeException` of `Instant.plusMillis`: times are unbounded integers.
- The store-assigned document ids are not modelled. A refresh row keeps `id = None` once saved. A new user's id is
  the `userId` parameter.
  - `refreshTokenRepository.delete(refreshToken)` deletes by the row's document id. `Session.AuthService.Delete`
    removes the row stored under its token instead. The two agree only because token values are unique, which the
    store's unique index and `WellFormed` guarantee.
  - The source saves a new user with a null id, and the store assigns a fresh one. A save whose id is already stored
    would replace that user, not refuse it. The `DuplicateKey` refusal in `Session.SignupStep` and
    `Session.AuthService.SaveUser` has no counterpart in the source. It exists only for an oracle `userId` that is
    not fresh.
- The no-argument `RefreshToken()` constructor is not modelled. It is used only by the store's object mapper.
- `RefreshToken`'s getters and setters are Dafny field selection and update (`r.(token := t)`). Each setter changes
  only its own field by construction, so there is no separate member.
- Authorities, the credentials slot and the `WebAuthenticationDetails` of the authentication set by the gate are not
  modelled. Only the principal is kept.
- `User.java`, `CustomUserDetailsService.java` and the request/response DTOs are not part of this model. A user's
  username is assumed to be its email. The user-details service is a map parameter, and a missing key stands for
  `UsernameNotFoundException`.
- Password hashing (`PasswordEncoder.encode`) and `AuthenticationManager.authenticate` are oracles passed in as
  parameters.
- Route authorization in `SecurityConfig.java` is not modelled. It is assumed only that `/api/auth/logout` and
  `/api/auth/me` need an identity, so those two handlers always receive a principal. The other handlers do not read
  one.
- The concurrent-refresh race between `findByToken` and `delete` is not modelled. Operations are sequential, and the
  stores' atomicity is not modelled.
- The mapping of the service's `RuntimeException`s to HTTP statuses is left to the framework. Handlers return the
  error as `Err`.
- Frontend files, `Frontend.java` and `SampleDataController.java` are not part of this model.
- `Lifecycle.RefreshIsSingleUse` and `Lifecycle.RefreshConsumes`: both assume the UUID issued at rotation differs
  from the consumed value. With equal values the store would accept the new row and the old value would work again.
