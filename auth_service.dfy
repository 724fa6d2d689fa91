/**
 * The session service (AuthService): signup, login, logout and refresh-token
 * rotation over two stores, the users (id to user, emails unique) and the
 * refresh tokens (token value to row, values unique).
 *
 * Each operation is specified twice: by a step function over the stores
 * (`SignupStep`, `LoginStep`, `LogoutStep`, `RefreshStep`), whose properties
 * are stated and proved here, and by a method of the class `AuthService`,
 * which mutates its store fields one repository call at a time and is proved
 * to end in the state and with the result the step function gives.
 */
module Session {
  import opened Wrappers
  import JavaInt
  import opened Tokens
  import opened Models
  import opened Http

  const AccessCookiePath: string := "/"
  const RefreshCookiePath: string := "/api/auth/refresh"
  /** The access cookie's max-age in seconds, fixed whatever the token's lifetime. */
  const AccessCookieMaxAge: int := 900

  /** The service's failures, each a `RuntimeException` (or the store's duplicate-key error) in the source. */
  datatype AuthError =
    | EmailAlreadyRegistered  // "Email already registered"
    | BadCredentials          // the authentication manager rejected the email and password
    | UserNotFound            // "User not found"
    | InvalidRefreshToken     // "Invalid refresh token"
    | RefreshTokenExpired     // "Refresh token expired"
    | DuplicateKey            // a unique index of the store refused a save

  datatype SignupRequest = SignupRequest(email: string, password: string)
  datatype LoginRequest = LoginRequest(email: string, password: string)
  datatype AuthResponse = AuthResponse(message: string, email: Option<string>)
  datatype AuthResult = AuthResult(response: AuthResponse, accessTokenCookie: Cookie, refreshTokenCookie: Cookie)

  /** The two stores: users by id, refresh-token rows by token value. */
  datatype Stores = Stores(users: map<string, User>, tokens: map<Text, RefreshToken>)

  /** The stores after an operation, and what the operation returned or threw. */
  datatype Step = Step(after: Stores, result: Result<AuthResult, AuthError>)

  /** The stores' indexes: each key is its row's id or token, and no two users share an email. */
  ghost predicate WellFormed(s: Stores)
  {
    && (forall id :: id in s.users ==> s.users[id].id == id)
    && (forall a, b :: a in s.users && b in s.users && s.users[a].email == s.users[b].email ==> a == b)
    && (forall t :: t in s.tokens ==> s.tokens[t].token == t)
  }

  /** What `existsByEmail` answers: the specification of the repository call `AuthService.ExistsByEmail`. */
  predicate EmailTaken(users: map<string, User>, email: string)
  {
    exists id :: id in users && users[id].email == email
  }

  /** `deleteByUserId`: the rows owned by `userId` removed, the others kept. */
  function WithoutOwner(tokens: map<Text, RefreshToken>, userId: string): map<Text, RefreshToken>
  {
    map t | t in tokens && tokens[t].userId != userId :: tokens[t]
  }

  /** `createCookie`: an http-only cookie with the given name, value, max-age and path. */
  function CreateCookie(name: string, value: Text, maxAgeSeconds: int, path: string): (c: Cookie)
    ensures c.name == name && c.value == value
    ensures c.httpOnly && c.path == Some(path) && c.maxAge == maxAgeSeconds
  {
    NewCookie(name, value).(httpOnly := true).(path := Some(path)).(maxAge := maxAgeSeconds)
  }

  /** `createClearedCookie`: an http-only, empty cookie with max-age 0, which makes the browser drop it. */
  function CreateClearedCookie(name: string, path: string): (c: Cookie)
    ensures c.name == name && c.value == Plain("")
    ensures c.httpOnly && c.path == Some(path) && c.maxAge == 0
  {
    NewCookie(name, Plain("")).(httpOnly := true).(path := Some(path)).(maxAge := 0)
  }

  /** The refresh cookie's max-age: `(int) (refreshTokenExpiration / 1000)`, with Java's truncation and wrap-around. */
  function RefreshCookieMaxAge(signer: Signer): (seconds: int)
    ensures JavaInt.IntMin <= seconds <= JavaInt.IntMax
    ensures (seconds - JavaInt.Div(signer.refreshTokenExpiration, 1000)) % 0x1_0000_0000 == 0
  {
    JavaInt.ToInt(JavaInt.Div(signer.GetRefreshTokenExpiration(), 1000))
  }

  /** For every lifetime that fits, the refresh cookie lives as many whole seconds as the row does milliseconds. */
  lemma RefreshCookieMaxAgeInSeconds(signer: Signer)
    requires 0 <= signer.refreshTokenExpiration < 1000 * 0x8000_0000
    ensures 1000 * RefreshCookieMaxAge(signer) <= signer.refreshTokenExpiration < 1000 * RefreshCookieMaxAge(signer) + 1000
  {
    var q := JavaInt.Div(signer.refreshTokenExpiration, 1000);
    assert q * 1000 <= signer.refreshTokenExpiration < q * 1000 + 1000;
    assert 0 <= q <= JavaInt.IntMax;
  }

  /**
   * What every issued token pair looks like: an http-only access cookie on `/`
   * for 900 seconds whose value is a token signed with the service's key for
   * `email`, expiring `accessTokenExpiration` after `now`; and an http-only
   * refresh cookie, on the refresh endpoint only, carrying the opaque value
   * `refresh`; and the response "Success" for `email`.
   */
  ghost predicate IssuedPair(a: AuthResult, signer: Signer, email: string, refresh: Text, now: int)
  {
    && a.response == AuthResponse("Success", Some(email))
    && a.accessTokenCookie.name == AccessCookieName
    && a.accessTokenCookie.path == Some(AccessCookiePath)
    && a.accessTokenCookie.httpOnly
    && a.accessTokenCookie.maxAge == AccessCookieMaxAge
    && signer.ParseSignedClaims(a.accessTokenCookie.value)
       == Ok(Claims(email, NumericDate(now), NumericDate(now + signer.accessTokenExpiration)))
    && a.refreshTokenCookie.name == RefreshCookieName
    && a.refreshTokenCookie.path == Some(RefreshCookiePath)
    && a.refreshTokenCookie.httpOnly
    && a.refreshTokenCookie.maxAge == RefreshCookieMaxAge(signer)
    && a.refreshTokenCookie.value == refresh
    && signer.ParseSignedClaims(refresh).Err?
  }

  /**
   * `generateTokensAndCookies`: store a new row for the user under the fresh
   * value `uuid`, expiring `refreshTokenExpiration` after `now`, and return the
   * token pair.  The store's unique index refuses a value already present.
   */
  function IssueStep(s: Stores, signer: Signer, user: User, now: int, uuid: string): (r: Step)
    ensures Plain(uuid) in s.tokens ==> r == Step(s, Err(DuplicateKey))
    ensures Plain(uuid) !in s.tokens ==> r.result.Ok?
    ensures r.after.users == s.users
    ensures r.result.Ok? ==>
      && Plain(uuid) !in s.tokens
      && r.after.tokens == s.tokens[Plain(uuid) := NewRefreshToken(Plain(uuid), user.id, now + signer.refreshTokenExpiration)]
      && IssuedPair(r.result.value, signer, user.email, Plain(uuid), now)
    ensures r.result.Err? ==> r.after == s && r.result.error == DuplicateKey
  {
    var access := signer.GenerateAccessToken(user.email, now);
    var refresh := signer.GenerateRefreshToken(uuid);
    var row := NewRefreshToken(refresh, user.id, now + signer.GetRefreshTokenExpiration());
    if refresh in s.tokens then Step(s, Err(DuplicateKey))
    else
      Step(Stores(s.users, s.tokens[refresh := row]),
           Ok(AuthResult(AuthResponse("Success", Some(user.email)),
                         CreateCookie(AccessCookieName, access, AccessCookieMaxAge, AccessCookiePath),
                         CreateCookie(RefreshCookieName, refresh, RefreshCookieMaxAge(signer), RefreshCookiePath))))
  }

  /** Issuing for a stored user keeps the stores well formed. */
  lemma IssueKeepsWellFormed(s: Stores, signer: Signer, user: User, now: int, uuid: string)
    requires WellFormed(s)
    ensures WellFormed(IssueStep(s, signer, user, now, uuid).after)
  {
  }

  /**
   * `signup`: an email already registered is refused with no change to either
   * store; otherwise exactly one user (the fresh id, the email, the encoded
   * password) is added and a token pair is issued for it.
   */
  function SignupStep(s: Stores, signer: Signer, request: SignupRequest, encodedPassword: string,
                      userId: string, uuid: string, now: int): (r: Step)
    requires WellFormed(s)
    ensures WellFormed(r.after)
    ensures EmailTaken(s.users, request.email) ==> r == Step(s, Err(EmailAlreadyRegistered))
    ensures !EmailTaken(s.users, request.email) && userId in s.users ==> r == Step(s, Err(DuplicateKey))
    ensures !EmailTaken(s.users, request.email) && userId !in s.users && Plain(uuid) in s.tokens ==>
      r == Step(Stores(s.users[userId := User(userId, request.email, encodedPassword)], s.tokens), Err(DuplicateKey))
    ensures !EmailTaken(s.users, request.email) && userId !in s.users && Plain(uuid) !in s.tokens ==> r.result.Ok?
    ensures r.result.Ok? ==>
      && !EmailTaken(s.users, request.email)
      && userId !in s.users
      && r.after.users == s.users[userId := User(userId, request.email, encodedPassword)]
      && Plain(uuid) !in s.tokens
      && r.after.tokens == s.tokens[Plain(uuid) := NewRefreshToken(Plain(uuid), userId, now + signer.refreshTokenExpiration)]
      && IssuedPair(r.result.value, signer, request.email, Plain(uuid), now)
    ensures r.result.Err? ==> r.after.tokens == s.tokens
  {
    if EmailTaken(s.users, request.email) then Step(s, Err(EmailAlreadyRegistered))
    else if userId in s.users then Step(s, Err(DuplicateKey))
    else
      var user := User(userId, request.email, encodedPassword);
      var saved := Stores(s.users[userId := user], s.tokens);
      IssueKeepsWellFormed(saved, signer, user, now, uuid);
      IssueStep(saved, signer, user, now, uuid)
  }

  /** `findByEmail`: the user with this email, unique in a well-formed store. */
  function FindByEmail(s: Stores, email: string): (u: Option<User>)
    requires WellFormed(s)
    ensures u.None? <==> !EmailTaken(s.users, email)
    ensures u.Some? ==> u.value.id in s.users && s.users[u.value.id] == u.value && u.value.email == email
  {
    if EmailTaken(s.users, email) then
      var id :| id in s.users && s.users[id].email == email;
      Some(s.users[id])
    else None
  }

  /**
   * `login`: tokens are issued only when the authentication manager accepts
   * (`authenticated`) and a user has the email; a failure stores nothing.
   */
  function LoginStep(s: Stores, signer: Signer, request: LoginRequest, authenticated: bool,
                     uuid: string, now: int): (r: Step)
    requires WellFormed(s)
    ensures WellFormed(r.after)
    ensures r.after.users == s.users
    ensures !authenticated ==> r == Step(s, Err(BadCredentials))
    ensures authenticated && !EmailTaken(s.users, request.email) ==> r == Step(s, Err(UserNotFound))
    ensures authenticated && EmailTaken(s.users, request.email) && Plain(uuid) in s.tokens ==> r == Step(s, Err(DuplicateKey))
    ensures authenticated && EmailTaken(s.users, request.email) && Plain(uuid) !in s.tokens ==> r.result.Ok?
    ensures r.result.Ok? ==>
      && authenticated
      && (exists id :: id in s.users && s.users[id].email == request.email
            && r.after.tokens == s.tokens[Plain(uuid) := NewRefreshToken(Plain(uuid), id, now + signer.refreshTokenExpiration)])
      && IssuedPair(r.result.value, signer, request.email, Plain(uuid), now)
    ensures r.result.Err? ==> r.after == s
  {
    if !authenticated then Step(s, Err(BadCredentials))
    else
      match FindByEmail(s, request.email)
      case None => Step(s, Err(UserNotFound))
      case Some(user) =>
        IssueKeepsWellFormed(s, signer, user, now, uuid);
        IssueStep(s, signer, user, now, uuid)
  }

  /** `logout`: every row owned by the user goes, every other row stays, users are untouched. */
  function LogoutStep(s: Stores, userId: string): (r: Stores)
    requires WellFormed(s)
    ensures WellFormed(r)
    ensures r.users == s.users
    ensures forall t :: t in r.tokens <==> t in s.tokens && s.tokens[t].userId != userId
    ensures forall t :: t in r.tokens ==> r.tokens[t] == s.tokens[t]
  {
    Stores(s.users, WithoutOwner(s.tokens, userId))
  }

  /** The cookies `logout` returns: both session cookies cleared, each on its own path, access first. */
  function LogoutCookies(): (c: seq<Cookie>)
    ensures |c| == 2
    ensures c[0].name == AccessCookieName && c[0].path == Some(AccessCookiePath)
    ensures c[1].name == RefreshCookieName && c[1].path == Some(RefreshCookiePath)
    ensures forall i :: 0 <= i < 2 ==> c[i].value == Plain("") && c[i].maxAge == 0 && c[i].httpOnly
  {
    [CreateClearedCookie(AccessCookieName, AccessCookiePath), CreateClearedCookie(RefreshCookieName, RefreshCookiePath)]
  }

  /**
   * `refreshTokens`: an unknown value fails and changes nothing; an expired row
   * is deleted and the call fails; otherwise the row is deleted first (rotation),
   * then the owner is looked up (failing with the row already gone if it is
   * missing) and a new pair is issued for the owner.
   */
  function RefreshStep(s: Stores, signer: Signer, value: Text, now: int, uuid: string): (r: Step)
    requires WellFormed(s)
    ensures WellFormed(r.after)
    ensures r.after.users == s.users
    ensures value !in s.tokens ==> r == Step(s, Err(InvalidRefreshToken))
    ensures value in s.tokens && s.tokens[value].IsExpired(now) ==>
      r == Step(Stores(s.users, s.tokens - {value}), Err(RefreshTokenExpired))
    ensures value in s.tokens && !s.tokens[value].IsExpired(now) && s.tokens[value].userId !in s.users ==>
      r == Step(Stores(s.users, s.tokens - {value}), Err(UserNotFound))
    ensures value in s.tokens && !s.tokens[value].IsExpired(now) && s.tokens[value].userId in s.users ==>
      (Plain(uuid) in s.tokens - {value} <==> r == Step(Stores(s.users, s.tokens - {value}), Err(DuplicateKey)))
    ensures (&& value in s.tokens && !s.tokens[value].IsExpired(now) && s.tokens[value].userId in s.users
             && Plain(uuid) !in s.tokens - {value}) ==> r.result.Ok?
    ensures r.result.Ok? ==>
      && value in s.tokens && !s.tokens[value].IsExpired(now)
      && s.tokens[value].userId in s.users
      && Plain(uuid) !in s.tokens - {value}
      && r.after.tokens == (s.tokens - {value})[Plain(uuid) := NewRefreshToken(Plain(uuid), s.tokens[value].userId, now + signer.refreshTokenExpiration)]
      && IssuedPair(r.result.value, signer, s.users[s.tokens[value].userId].email, Plain(uuid), now)
    ensures r.result.Err? && value in s.tokens ==> r.after == Stores(s.users, s.tokens - {value})
  {
    if value !in s.tokens then Step(s, Err(InvalidRefreshToken))
    else
      var row := s.tokens[value];
      var consumed := Stores(s.users, s.tokens - {value});
      if row.IsExpired(now) then Step(consumed, Err(RefreshTokenExpired))
      else
        if row.userId !in consumed.users then Step(consumed, Err(UserNotFound))
        else
          var user := consumed.users[row.userId];
          IssueKeepsWellFormed(consumed, signer, user, now, uuid);
          IssueStep(consumed, signer, user, now, uuid)
  }

  /** The service: the two repositories as map fields, and the token signer. */
  class AuthService {
    var users: map<string, User>
    var refreshTokens: map<Text, RefreshToken>
    const jwtService: Signer

    function State(): Stores
      reads this
    {
      Stores(users, refreshTokens)
    }

    ghost predicate Valid()
      reads this
    {
      WellFormed(State())
    }

    constructor (jwtService: Signer, users: map<string, User>, refreshTokens: map<Text, RefreshToken>)
      requires WellFormed(Stores(users, refreshTokens))
      ensures Valid() && this.jwtService == jwtService && State() == Stores(users, refreshTokens)
    {
      this.jwtService := jwtService;
      this.users := users;
      this.refreshTokens := refreshTokens;
    }

    /** `existsByEmail`: a search of the user store, specified by `EmailTaken`. */
    method ExistsByEmail(email: string) returns (b: bool)
      ensures b == EmailTaken(users, email)
    {
      b := exists id | id in users :: users[id].email == email;
    }

    method FindUserByEmail(email: string) returns (u: Option<User>)
      requires Valid()
      ensures u == FindByEmail(State(), email)
    {
      var taken := ExistsByEmail(email);
      if taken {
        var id :| id in users && users[id].email == email;
        u := Some(users[id]);
      } else {
        u := None;
      }
    }

    method FindUserById(id: string) returns (u: Option<User>)
      ensures u == (if id in users then Some(users[id]) else None)
    {
      u := if id in users then Some(users[id]) else None;
    }

    /** Inserting a user; the id index refuses an id already present. */
    method SaveUser(user: User) returns (saved: bool)
      modifies this
      ensures saved == (user.id !in old(users))
      ensures users == (if saved then old(users)[user.id := user] else old(users))
      ensures refreshTokens == old(refreshTokens)
    {
      saved := user.id !in users;
      if saved {
        users := users[user.id := user];
      }
    }

    method FindByToken(value: Text) returns (row: Option<RefreshToken>)
      ensures row == (if value in refreshTokens then Some(refreshTokens[value]) else None)
    {
      row := if value in refreshTokens then Some(refreshTokens[value]) else None;
    }

    /** Inserting a refresh-token row; the unique index on the token refuses a value already present. */
    method SaveRefreshToken(row: RefreshToken) returns (saved: bool)
      modifies this
      ensures saved == (row.token !in old(refreshTokens))
      ensures refreshTokens == (if saved then old(refreshTokens)[row.token := row] else old(refreshTokens))
      ensures users == old(users)
    {
      saved := row.token !in refreshTokens;
      if saved {
        refreshTokens := refreshTokens[row.token := row];
      }
    }

    method Delete(row: RefreshToken)
      modifies this
      ensures refreshTokens == old(refreshTokens) - {row.token}
      ensures users == old(users)
    {
      refreshTokens := refreshTokens - {row.token};
    }

    method DeleteByUserId(userId: string)
      modifies this
      ensures refreshTokens == WithoutOwner(old(refreshTokens), userId)
      ensures users == old(users)
    {
      refreshTokens := WithoutOwner(refreshTokens, userId);
    }

    method GenerateTokensAndCookies(user: User, now: int, uuid: string) returns (r: Result<AuthResult, AuthError>)
      modifies this
      ensures Step(State(), r) == IssueStep(old(State()), jwtService, user, now, uuid)
    {
      var accessToken := jwtService.GenerateAccessToken(user.email, now);
      var refreshToken := jwtService.GenerateRefreshToken(uuid);
      var entity := NewRefreshToken(refreshToken, user.id, now + jwtService.GetRefreshTokenExpiration());
      var saved := SaveRefreshToken(entity);
      if !saved {
        return Err(DuplicateKey);
      }
      var accessCookie := CreateCookie(AccessCookieName, accessToken, AccessCookieMaxAge, AccessCookiePath);
      var refreshCookie := CreateCookie(RefreshCookieName, refreshToken, RefreshCookieMaxAge(jwtService), RefreshCookiePath);
      r := Ok(AuthResult(AuthResponse("Success", Some(user.email)), accessCookie, refreshCookie));
    }

    method Signup(request: SignupRequest, encodedPassword: string, userId: string, uuid: string, now: int)
      returns (r: Result<AuthResult, AuthError>)
      requires Valid()
      modifies this
      ensures Valid()
      ensures Step(State(), r) == SignupStep(old(State()), jwtService, request, encodedPassword, userId, uuid, now)
    {
      var taken := ExistsByEmail(request.email);
      if taken {
        return Err(EmailAlreadyRegistered);
      }
      var user := User(userId, request.email, encodedPassword);
      var saved := SaveUser(user);
      if !saved {
        return Err(DuplicateKey);
      }
      r := GenerateTokensAndCookies(user, now, uuid);
    }

    method Login(request: LoginRequest, authenticated: bool, uuid: string, now: int)
      returns (r: Result<AuthResult, AuthError>)
      requires Valid()
      modifies this
      ensures Valid()
      ensures Step(State(), r) == LoginStep(old(State()), jwtService, request, authenticated, uuid, now)
    {
      if !authenticated {
        return Err(BadCredentials);
      }
      var found := FindUserByEmail(request.email);
      if found.None? {
        return Err(UserNotFound);
      }
      r := GenerateTokensAndCookies(found.value, now, uuid);
    }

    method Logout(userId: string) returns (cookies: seq<Cookie>)
      requires Valid()
      modifies this
      ensures Valid()
      ensures State() == LogoutStep(old(State()), userId)
      ensures cookies == LogoutCookies()
    {
      DeleteByUserId(userId);
      cookies := [CreateClearedCookie(AccessCookieName, AccessCookiePath),
                  CreateClearedCookie(RefreshCookieName, RefreshCookiePath)];
    }

    method RefreshTokens(refreshTokenValue: Text, now: int, uuid: string)
      returns (r: Result<AuthResult, AuthError>)
      requires Valid()
      modifies this
      ensures Valid()
      ensures Step(State(), r) == RefreshStep(old(State()), jwtService, refreshTokenValue, now, uuid)
    {
      var found := FindByToken(refreshTokenValue);
      if found.None? {
        return Err(InvalidRefreshToken);
      }
      var refreshToken := found.value;
      if refreshToken.IsExpired(now) {
        Delete(refreshToken);
        return Err(RefreshTokenExpired);
      }
      Delete(refreshToken);
      var user := FindUserById(refreshToken.userId);
      if user.None? {
        return Err(UserNotFound);
      }
      r := GenerateTokensAndCookies(user.value, now, uuid);
    }
  }
}
