/**
 * The authentication gate (JwtAuthFilter): on each request, read the
 * `access_token` cookie and, when no identity is attached yet, attach the
 * user the token names if the token is valid.  Every failure is swallowed,
 * and the request is always passed on exactly once.
 */
module Gate {
  import opened Wrappers
  import opened Tokens
  import opened Models
  import opened Http

  /** The authentication set on the security context: its principal is the user details. */
  datatype Authentication = Authentication(principal: User)

  /** The request-scoped security context the gate may write. */
  class SecurityContext {
    var authentication: Option<Authentication>

    constructor (authentication: Option<Authentication>)
      ensures this.authentication == authentication
    {
      this.authentication := authentication;
    }
  }

  /** One request passed on, with the authentication the rest of the pipeline sees while handling it. */
  datatype Forwarding = Forwarding(request: Request, authentication: Option<Authentication>)

  /** The rest of the filter chain: the requests passed on to it, in order, each with the identity then attached. */
  class FilterChain {
    var forwarded: seq<Forwarding>

    constructor ()
      ensures forwarded == []
    {
      forwarded := [];
    }

    method DoFilter(request: Request, context: SecurityContext)
      modifies this
      ensures forwarded == old(forwarded) + [Forwarding(request, context.authentication)]
    {
      forwarded := forwarded + [Forwarding(request, context.authentication)];
    }
  }

  /**
   * The condition under which a token authenticates: signed with the
   * service's key, its subject resolving to user details whose username is
   * that subject, and not yet expired at `now`.
   */
  ghost predicate Accepts(signer: Signer, token: Text, userDetails: map<string, User>, now: int)
  {
    && token.Compact? && token.jws.key == signer.signingKey
    && token.jws.claims.subject in userDetails
    && userDetails[token.jws.claims.subject].email == token.jws.claims.subject
    && now <= DateOf(token.jws.claims.expiration)
  }

  /**
   * The `try` block: extract the email, load the user details (a missing
   * username throws), check validity.  Any exception yields no authentication.
   */
  function TryAuthenticate(signer: Signer, token: Text, userDetails: map<string, User>, now: int): (r: Option<Authentication>)
    ensures r.Some? <==> Accepts(signer, token, userDetails, now)
    ensures r.Some? ==> r.value == Authentication(userDetails[token.jws.claims.subject])
  {
    match signer.ExtractEmail(token)
    case Err(_) => None
    case Ok(email) =>
      if email !in userDetails then None
      else
        var details := userDetails[email];
        match signer.IsTokenValid(token, details.email, now)
        case Err(_) => None
        case Ok(valid) => if valid then Some(Authentication(details)) else None
  }

  /**
   * The security context after the gate: unchanged without a token or with an
   * identity already attached; otherwise the accepted identity, if any.
   */
  function GateOutcome(token: Option<Text>, current: Option<Authentication>, signer: Signer,
                       userDetails: map<string, User>, now: int): (r: Option<Authentication>)
    ensures token.None? ==> r == current
    ensures current.Some? ==> r == current
    ensures token.Some? && current.None? ==> r == TryAuthenticate(signer, token.value, userDetails, now)
  {
    if token.Some? && current.None? then TryAuthenticate(signer, token.value, userDetails, now) else current
  }

  /** The gate changes the context only by attaching an accepted identity to a request that had none. */
  lemma GateOnlyAttaches(token: Option<Text>, current: Option<Authentication>, signer: Signer,
                         userDetails: map<string, User>, now: int)
    ensures GateOutcome(token, current, signer, userDetails, now) != current <==>
      && current.None? && token.Some?
      && Accepts(signer, token.value, userDetails, now)
    ensures GateOutcome(token, current, signer, userDetails, now) != current ==>
      GateOutcome(token, current, signer, userDetails, now)
      == Some(Authentication(userDetails[token.value.jws.claims.subject]))
  {
  }

  /** Running the gate again on the same request changes nothing. */
  lemma GateIdempotent(token: Option<Text>, current: Option<Authentication>, signer: Signer,
                       userDetails: map<string, User>, now: int)
    ensures var once := GateOutcome(token, current, signer, userDetails, now);
      GateOutcome(token, once, signer, userDetails, now) == once
  {
  }

  class JwtAuthFilter {
    const jwtService: Signer

    constructor (jwtService: Signer)
      ensures this.jwtService == jwtService
    {
      this.jwtService := jwtService;
    }

    /** The value of the first `access_token` cookie; nothing when there is none or no cookie array. */
    method ExtractTokenFromCookies(request: Request) returns (token: Option<Text>)
      ensures token == CookieValue(request.cookies, AccessCookieName)
    {
      if request.cookies.None? {
        return None;
      }
      var cookies := request.cookies.value;
      var i := 0;
      while i < |cookies|
        invariant 0 <= i <= |cookies|
        invariant FirstValue(cookies, AccessCookieName) == FirstValue(cookies[i..], AccessCookieName)
      {
        assert cookies[i..][1..] == cookies[i + 1..];
        if cookies[i].name == AccessCookieName {
          return Some(cookies[i].value);
        }
        i := i + 1;
      }
      token := None;
    }

    /**
     * `doFilterInternal`.  `userDetails` is the user-details service: the
     * user it loads for each username it knows.
     */
    method DoFilterInternal(request: Request, context: SecurityContext, filterChain: FilterChain,
                            userDetails: map<string, User>, now: int)
      modifies context, filterChain
      ensures context.authentication
        == GateOutcome(CookieValue(request.cookies, AccessCookieName), old(context.authentication),
                       jwtService, userDetails, now)
      ensures filterChain.forwarded == old(filterChain.forwarded) + [Forwarding(request, context.authentication)]
    {
      var token := ExtractTokenFromCookies(request);
      if token.Some? && context.authentication.None? {
        var email := jwtService.ExtractEmail(token.value);
        if email.Ok? && email.value in userDetails {
          var details := userDetails[email.value];
          var valid := jwtService.IsTokenValid(token.value, details.email, now);
          if valid.Ok? && valid.value {
            context.authentication := Some(Authentication(details));
          }
        }
      }
      filterChain.DoFilter(request, context);
    }
  }
}
