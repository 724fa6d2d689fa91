/** The servlet surface: cookies, requests and the response being written. */
module Http {
  import opened Wrappers
  import opened Tokens

  const AccessCookieName: string := "access_token"
  const RefreshCookieName: string := "refresh_token"

  /** A cookie directive; `maxAge` is in seconds (`-1`: until the browser closes). */
  datatype Cookie = Cookie(name: string, value: Text, path: Option<string>, maxAge: int, httpOnly: bool)

  /** `new Cookie(name, value)`: no path, max-age -1, not http-only. */
  function NewCookie(name: string, value: Text): (c: Cookie)
    ensures c.name == name && c.value == value && c.path.None? && c.maxAge == -1 && !c.httpOnly
  {
    Cookie(name, value, None, -1, false)
  }

  /** An inbound request as the core reads it: its cookie array, which may be null. */
  datatype Request = Request(cookies: Option<seq<Cookie>>)

  /** The value of the first cookie called `name`, scanning left to right. */
  function FirstValue(cookies: seq<Cookie>, name: string): Option<Text>
  {
    if cookies == [] then None
    else if cookies[0].name == name then Some(cookies[0].value)
    else FirstValue(cookies[1..], name)
  }

  /** `i` is the position of the first cookie called `name`. */
  ghost predicate IsFirstMatch(cookies: seq<Cookie>, name: string, i: int)
  {
    && 0 <= i < |cookies|
    && cookies[i].name == name
    && forall j :: 0 <= j < i ==> cookies[j].name != name
  }

  /** FirstValue finds nothing exactly when no cookie has the name, and otherwise the earliest one's value. */
  lemma {:induction false} FirstValueIsFirstMatch(cookies: seq<Cookie>, name: string)
    ensures FirstValue(cookies, name).None? <==> forall i :: 0 <= i < |cookies| ==> cookies[i].name != name
    ensures FirstValue(cookies, name).Some? ==>
      exists i :: IsFirstMatch(cookies, name, i) && cookies[i].value == FirstValue(cookies, name).value
  {
    if cookies != [] && cookies[0].name != name {
      var rest := cookies[1..];
      FirstValueIsFirstMatch(rest, name);
      forall i | 0 <= i < |rest| ensures rest[i] == cookies[i + 1] {}
      if FirstValue(rest, name).Some? {
        var i :| IsFirstMatch(rest, name, i) && rest[i].value == FirstValue(rest, name).value;
        assert IsFirstMatch(cookies, name, i + 1);
      } else {
        forall i | 0 <= i < |cookies| ensures cookies[i].name != name {
          if i > 0 { assert cookies[i] == rest[i - 1]; }
        }
      }
    } else if cookies != [] {
      assert IsFirstMatch(cookies, name, 0);
    }
  }

  /** Reading a cookie from a request: nothing when the cookie array is null. */
  function CookieValue(cookies: Option<seq<Cookie>>, name: string): Option<Text>
  {
    match cookies
    case None => None
    case Some(cs) => FirstValue(cs, name)
  }

  /** The `HttpServletResponse` a handler writes: the cookies added to it, in order. */
  class HttpResponse {
    var cookies: seq<Cookie>

    constructor ()
      ensures cookies == []
    {
      cookies := [];
    }

    method AddCookie(c: Cookie)
      modifies this
      ensures cookies == old(cookies) + [c]
    {
      cookies := cookies + [c];
    }
  }
}
