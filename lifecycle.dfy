/**
 * Properties of the session-token lifecycle that relate several operations:
 * refresh tokens are single-use, logout revokes them all, and a freshly
 * issued pair is accepted by the gate and by the refresh endpoint.
 */
module Lifecycle {
  import opened Wrappers
  import opened Tokens
  import opened Models
  import opened Http
  import opened Session
  import opened Gate

  /**
   * Signing up a new email with a fresh id and value succeeds; signing up
   * again with the same email then fails and changes nothing.
   */
  lemma SignupTwiceFails(s: Stores, signer: Signer, request: SignupRequest, hash: string, userId: string,
                         uuid: string, now: int, request2: SignupRequest, hash2: string, userId2: string,
                         uuid2: string, now2: int)
    requires WellFormed(s)
    requires !EmailTaken(s.users, request.email) && userId !in s.users && Plain(uuid) !in s.tokens
    requires request2.email == request.email
    ensures SignupStep(s, signer, request, hash, userId, uuid, now).result.Ok?
    ensures var s1 := SignupStep(s, signer, request, hash, userId, uuid, now).after;
      SignupStep(s1, signer, request2, hash2, userId2, uuid2, now2) == Step(s1, Err(EmailAlreadyRegistered))
  {
    var s1 := SignupStep(s, signer, request, hash, userId, uuid, now).after;
    assert s1.users[userId].email == request2.email;
  }

  /** After signing up, logging in with the same email and an accepted password issues a pair for that email. */
  lemma SignupThenLogin(s: Stores, signer: Signer, request: SignupRequest, hash: string, userId: string,
                        uuid: string, now: int, password: string, uuid2: string, now2: int)
    requires WellFormed(s)
    requires !EmailTaken(s.users, request.email) && userId !in s.users && Plain(uuid) !in s.tokens
    requires uuid2 != uuid && Plain(uuid2) !in s.tokens
    ensures var s1 := SignupStep(s, signer, request, hash, userId, uuid, now).after;
      var login := LoginStep(s1, signer, LoginRequest(request.email, password), true, uuid2, now2);
      && login.result.Ok?
      && IssuedPair(login.result.value, signer, request.email, Plain(uuid2), now2)
      && login.after.tokens[Plain(uuid2)].userId == userId
  {
    var s1 := SignupStep(s, signer, request, hash, userId, uuid, now).after;
    assert s1.users[userId].email == request.email;
  }

  /**
   * Rotation makes a refresh token single-use: once a refresh with `value`
   * has succeeded, presenting `value` again fails as unknown and changes
   * nothing, provided the new value issued differs from the consumed one.
   */
  lemma RefreshIsSingleUse(s: Stores, signer: Signer, value: Text, now: int, uuid: string, now2: int, uuid2: string)
    requires WellFormed(s)
    requires RefreshStep(s, signer, value, now, uuid).result.Ok?
    requires Plain(uuid) != value
    ensures var s1 := RefreshStep(s, signer, value, now, uuid).after;
      RefreshStep(s1, signer, value, now2, uuid2) == Step(s1, Err(InvalidRefreshToken))
  {
    var s1 := RefreshStep(s, signer, value, now, uuid).after;
    assert value !in s1.tokens;
  }

  /** Whatever a refresh attempt with a stored value does, that value is no longer stored afterwards. */
  lemma RefreshConsumes(s: Stores, signer: Signer, value: Text, now: int, uuid: string, now2: int, uuid2: string)
    requires WellFormed(s)
    requires value in s.tokens
    requires Plain(uuid) != value
    ensures var s1 := RefreshStep(s, signer, value, now, uuid).after;
      RefreshStep(s1, signer, value, now2, uuid2) == Step(s1, Err(InvalidRefreshToken))
  {
    var s1 := RefreshStep(s, signer, value, now, uuid).after;
    assert value !in s1.tokens;
  }

  /** After logout, every refresh token the user held is refused as unknown. */
  lemma LogoutRevokesAll(s: Stores, signer: Signer, userId: string, value: Text, now: int, uuid: string)
    requires WellFormed(s)
    requires value in s.tokens && s.tokens[value].userId == userId
    ensures var s1 := LogoutStep(s, userId);
      RefreshStep(s1, signer, value, now, uuid) == Step(s1, Err(InvalidRefreshToken))
  {
  }

  /** Logging out a second time changes nothing. */
  lemma LogoutIdempotent(s: Stores, userId: string)
    requires WellFormed(s)
    ensures LogoutStep(LogoutStep(s, userId), userId) == LogoutStep(s, userId)
  {
    var once := LogoutStep(s, userId);
    assert LogoutStep(once, userId).tokens == once.tokens;
  }

  /** Other users' rows survive a logout unchanged. */
  lemma LogoutKeepsOthers(s: Stores, userId: string, value: Text)
    requires WellFormed(s)
    requires value in s.tokens && s.tokens[value].userId != userId
    ensures value in LogoutStep(s, userId).tokens
    ensures LogoutStep(s, userId).tokens[value] == s.tokens[value]
  {
  }

  /**
   * The access cookie of an issued pair, presented to the gate as the first
   * `access_token` cookie of a request with no identity yet, attaches the
   * user the email resolves to, from issuance until
   * `accessTokenExpiration - 999` ms later.
   */
  lemma {:induction false} IssuedAccessCookieAuthenticates(a: AuthResult, signer: Signer, email: string, refresh: Text,
                                                           now: int, at: int, userDetails: map<string, User>,
                                                           cookies: seq<Cookie>)
    requires IssuedPair(a, signer, email, refresh, now)
    requires FirstValue(cookies, AccessCookieName) == Some(a.accessTokenCookie.value)
    requires 0 <= now && 0 <= signer.accessTokenExpiration
    requires now <= at <= now + signer.accessTokenExpiration - 999
    requires email in userDetails && userDetails[email].email == email
    ensures GateOutcome(CookieValue(Some(cookies), AccessCookieName), None,
                        signer, userDetails, at)
            == Some(Authentication(userDetails[email]))
  {
    var t := a.accessTokenCookie.value;
    assert t.jws.claims == Claims(email, NumericDate(now), NumericDate(now + signer.accessTokenExpiration));
    AccessTokenLifetime(signer, email, now, at);
    assert signer.GenerateAccessToken(email, now) == t;
  }

  /** Once the access token's lifetime has passed, the gate attaches nothing for that cookie, wherever it is first. */
  lemma {:induction false} IssuedAccessCookieExpires(a: AuthResult, signer: Signer, email: string, refresh: Text,
                                                     now: int, at: int, userDetails: map<string, User>,
                                                     cookies: seq<Cookie>)
    requires IssuedPair(a, signer, email, refresh, now)
    requires FirstValue(cookies, AccessCookieName) == Some(a.accessTokenCookie.value)
    requires 0 <= now && 0 <= signer.accessTokenExpiration
    requires at > now + signer.accessTokenExpiration
    ensures GateOutcome(CookieValue(Some(cookies), AccessCookieName), None,
                        signer, userDetails, at)
            == None
  {
    var t := a.accessTokenCookie.value;
    AccessTokenLifetime(signer, email, now, at);
    assert signer.GenerateAccessToken(email, now) == t;
  }

  /**
   * The signup scenario: a new user's refresh cookie can be redeemed before
   * it expires; the new refresh cookie carries a different value, and
   * replaying the original value is refused.
   */
  lemma SignupThenRotate(s: Stores, signer: Signer, request: SignupRequest, hash: string, userId: string,
                         uuid: string, now: int, at: int, uuid2: string, at2: int, uuid3: string)
    requires WellFormed(s)
    requires !EmailTaken(s.users, request.email) && userId !in s.users && Plain(uuid) !in s.tokens
    requires now <= at <= now + signer.refreshTokenExpiration
    requires uuid2 != uuid
    requires Plain(uuid2) !in s.tokens
    ensures var signed := SignupStep(s, signer, request, hash, userId, uuid, now);
      var cookie := signed.result.value.refreshTokenCookie;
      var rotated := RefreshStep(signed.after, signer, cookie.value, at, uuid2);
      && rotated.result.Ok?
      && rotated.result.value.refreshTokenCookie.value != cookie.value
      && rotated.result.value.response == AuthResponse("Success", Some(request.email))
      && RefreshStep(rotated.after, signer, cookie.value, at2, uuid3) == Step(rotated.after, Err(InvalidRefreshToken))
  {
    var signed := SignupStep(s, signer, request, hash, userId, uuid, now);
    var value := Plain(uuid);
    assert signed.after.tokens[value].userId == userId;
    assert signed.after.users[userId].email == request.email;
    assert Plain(uuid2) !in signed.after.tokens - {value};
    RefreshIsSingleUse(signed.after, signer, value, at, uuid2, at2, uuid3);
  }
}
