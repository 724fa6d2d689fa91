/**
 * The HTTP handlers under `/api/auth` (Auth): each calls the session service,
 * appends the cookies it returns to the response and answers with a status
 * and an `AuthResponse` body.  A service failure propagates as `Err`, and no
 * cookie is appended.
 */
module Controller {
  import opened Wrappers
  import opened Tokens
  import opened Models
  import opened Http
  import opened Session

  datatype ResponseEntity = ResponseEntity(status: int, body: AuthResponse)

  /** The answer of `refresh` when the request carries no refresh cookie. */
  const NoRefreshToken: ResponseEntity := ResponseEntity(401, AuthResponse("No refresh token provided", None))

  /** `me`: the authenticated principal's email under "Authenticated". */
  function Me(user: User): (r: ResponseEntity)
    ensures r.status == 200 && r.body.message == "Authenticated" && r.body.email == Some(user.email)
  {
    ResponseEntity(200, AuthResponse("Authenticated", Some(user.email)))
  }

  /** What a successful token-issuing handler appends: the access cookie, then the refresh cookie. */
  function PairCookies(a: AuthResult): seq<Cookie>
  {
    [a.accessTokenCookie, a.refreshTokenCookie]
  }

  /** A handler's answer to the service's result: 200 with the service's response, or the service's error. */
  function Answer(result: Result<AuthResult, AuthError>): (r: Result<ResponseEntity, AuthError>)
    ensures result.Ok? <==> r.Ok?
    ensures result.Ok? ==> r.value.status == 200 && r.value.body == result.value.response
    ensures result.Err? ==> r.error == result.error
  {
    match result
    case Ok(a) => Ok(ResponseEntity(200, a.response))
    case Err(e) => Err(e)
  }

  /** The cookies a token-issuing handler leaves on the response. */
  function AppendedCookies(before: seq<Cookie>, result: Result<AuthResult, AuthError>): seq<Cookie>
  {
    if result.Ok? then before + PairCookies(result.value) else before
  }

  class AuthController {
    const authService: AuthService

    constructor (authService: AuthService)
      ensures this.authService == authService
    {
      this.authService := authService;
    }

    /** Appends both cookies of an issued pair, access cookie first. */
    method AddPair(result: AuthResult, response: HttpResponse)
      modifies response
      ensures response.cookies == old(response.cookies) + PairCookies(result)
    {
      response.AddCookie(result.accessTokenCookie);
      response.AddCookie(result.refreshTokenCookie);
    }

    method Signup(request: SignupRequest, encodedPassword: string, userId: string, uuid: string, now: int,
                  response: HttpResponse) returns (r: Result<ResponseEntity, AuthError>)
      requires authService.Valid()
      modifies authService, response
      ensures authService.Valid()
      ensures var step := SignupStep(old(authService.State()), authService.jwtService, request, encodedPassword, userId, uuid, now);
        && authService.State() == step.after
        && r == Answer(step.result)
        && response.cookies == AppendedCookies(old(response.cookies), step.result)
    {
      var result := authService.Signup(request, encodedPassword, userId, uuid, now);
      if result.Err? {
        return Err(result.error);
      }
      AddPair(result.value, response);
      r := Ok(ResponseEntity(200, result.value.response));
    }

    method Login(request: LoginRequest, authenticated: bool, uuid: string, now: int,
                 response: HttpResponse) returns (r: Result<ResponseEntity, AuthError>)
      requires authService.Valid()
      modifies authService, response
      ensures authService.Valid()
      ensures var step := LoginStep(old(authService.State()), authService.jwtService, request, authenticated, uuid, now);
        && authService.State() == step.after
        && r == Answer(step.result)
        && response.cookies == AppendedCookies(old(response.cookies), step.result)
    {
      var result := authService.Login(request, authenticated, uuid, now);
      if result.Err? {
        return Err(result.error);
      }
      AddPair(result.value, response);
      r := Ok(ResponseEntity(200, result.value.response));
    }

    /** `logout` for the authenticated principal: its rows go, and every cookie the service returns is appended in order. */
    method Logout(user: User, response: HttpResponse) returns (r: ResponseEntity)
      requires authService.Valid()
      modifies authService, response
      ensures authService.Valid()
      ensures authService.State() == LogoutStep(old(authService.State()), user.id)
      ensures response.cookies == old(response.cookies) + LogoutCookies()
      ensures r == ResponseEntity(200, AuthResponse("Logged out successfully", Some(user.email)))
    {
      var cookies := authService.Logout(user.id);
      for i := 0 to |cookies|
        invariant response.cookies == old(response.cookies) + cookies[..i]
        modifies response
      {
        response.AddCookie(cookies[i]);
      }
      r := ResponseEntity(200, AuthResponse("Logged out successfully", Some(user.email)));
    }

    /** The value of the first cookie called `cookieName`; nothing when there is none or no cookie array. */
    method ExtractCookieValue(request: Request, cookieName: string) returns (value: Option<Text>)
      ensures value == CookieValue(request.cookies, cookieName)
    {
      if request.cookies.None? {
        return None;
      }
      var cookies := request.cookies.value;
      for i := 0 to |cookies|
        invariant FirstValue(cookies, cookieName) == FirstValue(cookies[i..], cookieName)
      {
        assert cookies[i..][1..] == cookies[i + 1..];
        if cookieName == cookies[i].name {
          return Some(cookies[i].value);
        }
      }
      value := None;
    }

    /**
     * `refresh`: without a `refresh_token` cookie the answer is 401 "No refresh
     * token provided" and the service is not called; otherwise the service
     * rotates the presented value.
     */
    method Refresh(request: Request, now: int, uuid: string, response: HttpResponse)
      returns (r: Result<ResponseEntity, AuthError>)
      requires authService.Valid()
      modifies authService, response
      ensures authService.Valid()
      ensures var presented := CookieValue(request.cookies, RefreshCookieName);
        if presented.None? then
          && r == Ok(NoRefreshToken)
          && authService.State() == old(authService.State())
          && response.cookies == old(response.cookies)
        else
          var step := RefreshStep(old(authService.State()), authService.jwtService, presented.value, now, uuid);
          && authService.State() == step.after
          && r == Answer(step.result)
          && response.cookies == AppendedCookies(old(response.cookies), step.result)
    {
      var refreshToken := ExtractCookieValue(request, RefreshCookieName);
      if refreshToken.None? {
        return Ok(NoRefreshToken);
      }
      var result := authService.RefreshTokens(refreshToken.value, now, uuid);
      if result.Err? {
        return Err(result.error);
      }
      AddPair(result.value, response);
      r := Ok(ResponseEntity(200, result.value.response));
    }
  }
}
