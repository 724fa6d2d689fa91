/**
 * The token signer (JwtService): issues HMAC-signed access tokens, checks them,
 * and hands out opaque refresh-token values.
 *
 * Signing and the compact serialisation are abstract: a signed token is the
 * value `Jws(claims, key)`, i.e. "these claims, signed with that key".  Times
 * inside a token are NumericDate values (whole seconds since the epoch, as
 * section 2 of RFC 7519 defines them); every other time is in milliseconds.
 */
module Tokens {
  import opened Wrappers
  import JavaInt

  /** An HMAC key: the bytes of the configured secret. */
  type Key = seq<bv8>

  /** The registered claims the service writes: `sub`, `iat` and `exp` (seconds). */
  datatype Claims = Claims(subject: string, issuedAt: int, expiration: int)

  /** A compact JWS: claims signed with HMAC under `key`. */
  datatype Jws = Jws(claims: Claims, key: Key)

  /**
   * A Java String as the signer sees it: either the compact serialisation of a
   * signed token, or any other text (a UUID, an empty cookie value, garbage).
   */
  datatype Text = Compact(jws: Jws) | Plain(chars: string)

  /** Why the JWT library refuses a key or a token. */
  datatype JwtError =
    | WeakKey       // shorter than 256 bits
    | Malformed     // not a compact JWS at all
    | BadSignature  // a JWS signed under some other key

  /** JJWT's conversion of a `java.util.Date` (milliseconds) to a NumericDate. */
  function NumericDate(millis: int): int
  {
    JavaInt.Div(millis, 1000)
  }

  /** The `java.util.Date` a NumericDate claim reads back as. */
  function DateOf(seconds: int): int
  {
    seconds * 1000
  }

  /** The service's final fields: the signing key and the two lifetimes in milliseconds. */
  datatype Signer = Signer(signingKey: Key, accessTokenExpiration: int, refreshTokenExpiration: int)
  {
    /** A token whose subject is the user's username and whose expiry is `now + accessTokenExpiration`. */
    function GenerateAccessToken(username: string, now: int): (t: Text)
      ensures ParseSignedClaims(t) == Ok(Claims(username, NumericDate(now), NumericDate(now + accessTokenExpiration)))
    {
      Compact(Jws(Claims(username, NumericDate(now), NumericDate(now + accessTokenExpiration)), signingKey))
    }

    /** A refresh-token value: the text of a random UUID, unsigned and carrying no claims. */
    function GenerateRefreshToken(uuid: string): (t: Text)
      ensures ParseSignedClaims(t).Err?
      ensures t.Plain? && t.chars == uuid
    {
      Plain(uuid)
    }

    /** The refresh-token lifetime as configured. */
    function GetRefreshTokenExpiration(): (ttl: int)
      ensures ttl == refreshTokenExpiration
    {
      refreshTokenExpiration
    }

    /** Parsing with `verifyWith(signingKey)`: claims only from a token signed with this key. */
    function ParseSignedClaims(t: Text): (r: Result<Claims, JwtError>)
      ensures r.Ok? <==> t.Compact? && t.jws.key == signingKey
      ensures r.Ok? ==> r.value == t.jws.claims
    {
      match t
      case Plain(_) => Err(Malformed)
      case Compact(jws) => if jws.key == signingKey then Ok(jws.claims) else Err(BadSignature)
    }

    function ExtractEmail(t: Text): (r: Result<string, JwtError>)
      ensures r.Ok? <==> ParseSignedClaims(t).Ok?
      ensures r.Ok? ==> r.value == t.jws.claims.subject
    {
      match ParseSignedClaims(t)
      case Err(e) => Err(e)
      case Ok(claims) => Ok(claims.subject)
    }

    /** `exp.before(now)`: expired strictly after the expiry instant, not at it. */
    function IsTokenExpired(t: Text, now: int): (r: Result<bool, JwtError>)
      ensures r.Ok? <==> ParseSignedClaims(t).Ok?
      ensures r.Ok? ==> (r.value <==> DateOf(t.jws.claims.expiration) < now)
    {
      match ParseSignedClaims(t)
      case Err(e) => Err(e)
      case Ok(claims) => Ok(DateOf(claims.expiration) < now)
    }

    /** The subject must equal the username and the token must not be expired. */
    function IsTokenValid(t: Text, username: string, now: int): (r: Result<bool, JwtError>)
      ensures r.Ok? <==> ParseSignedClaims(t).Ok?
      ensures r.Ok? ==> (r.value <==> t.jws.claims.subject == username && now <= DateOf(t.jws.claims.expiration))
    {
      match ExtractEmail(t)
      case Err(e) => Err(e)
      case Ok(email) =>
        if email == username then
          match IsTokenExpired(t, now)
          case Err(e) => Err(e)
          case Ok(expired) => Ok(!expired)
        else Ok(false)
    }
  }

  /** The constructor: `Keys.hmacShaKeyFor` refuses a key shorter than 256 bits. */
  function NewSigner(secret: Key, accessTokenExpiration: int, refreshTokenExpiration: int): (r: Result<Signer, JwtError>)
    ensures r.Err? <==> |secret| < 32
    ensures r.Ok? ==> r.value.signingKey == secret
    ensures r.Ok? ==> r.value.accessTokenExpiration == accessTokenExpiration
    ensures r.Ok? ==> r.value.GetRefreshTokenExpiration() == refreshTokenExpiration
  {
    if |secret| < 32 then Err(WeakKey) else Ok(Signer(secret, accessTokenExpiration, refreshTokenExpiration))
  }

  /** Round trip: the email read back from a freshly issued token is the subject it was issued for. */
  lemma AccessTokenRoundTrip(signer: Signer, username: string, now: int)
    ensures signer.ExtractEmail(signer.GenerateAccessToken(username, now)) == Ok(username)
  {
  }

  /** A token signed under another key yields no claims, whatever it says. */
  lemma ForeignTokenRejected(signer: Signer, claims: Claims, key: Key, now: int, username: string)
    requires key != signer.signingKey
    ensures signer.ExtractEmail(Compact(Jws(claims, key))).Err?
    ensures signer.IsTokenValid(Compact(Jws(claims, key)), username, now).Err?
  {
  }

  /** The expiry boundary: a token is still live at the exact instant its `exp` claim names. */
  lemma ExpiryIsStrict(signer: Signer, t: Text)
    requires signer.ParseSignedClaims(t).Ok?
    ensures signer.IsTokenExpired(t, DateOf(t.jws.claims.expiration)) == Ok(false)
    ensures signer.IsTokenExpired(t, DateOf(t.jws.claims.expiration) + 1) == Ok(true)
  {
  }

  /**
   * Lifetime of an issued access token, in milliseconds.  The `exp` claim is
   * rounded down to a whole second, so the token is valid from issuance up to
   * at least `ttl - 999` ms later, and invalid at any instant after `now + ttl`.
   */
  lemma {:induction false} AccessTokenLifetime(signer: Signer, username: string, now: int, at: int)
    requires 0 <= now && 0 <= signer.accessTokenExpiration
    ensures now <= at <= now + signer.accessTokenExpiration - 999 ==>
      signer.IsTokenValid(signer.GenerateAccessToken(username, now), username, at) == Ok(true)
    ensures at > now + signer.accessTokenExpiration ==>
      signer.IsTokenValid(signer.GenerateAccessToken(username, now), username, at) == Ok(false)
  {
    var millis := now + signer.accessTokenExpiration;
    var exp := NumericDate(millis);
    assert DateOf(exp) <= millis < DateOf(exp) + 1000;
  }
}
