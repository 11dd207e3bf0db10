/** The session cookie: the attributes configured on a manager, the cookie
    record `setCookie` builds from them, and the response it is written to. */
module Cookies {
  import opened Sessions

  /** net/http's `SameSite`; `SameSiteUnset` is its zero value. */
  datatype SameSiteMode =
    | SameSiteUnset
    | SameSiteDefaultMode
    | SameSiteLaxMode
    | SameSiteStrictMode
    | SameSiteNoneMode

  /** The cookie attributes a manager is configured with. */
  datatype CookiePolicy = CookiePolicy(
    name: string,
    domain: string,
    path: string,
    secure: bool,
    httpOnly: bool,
    sameSite: SameSiteMode)

  /** An `http.Cookie` as the manager fills it in; `expires == ZeroTime`
      means no Expires attribute. */
  datatype Cookie = Cookie(
    name: string,
    value: string,
    path: string,
    domain: string,
    expires: Time,
    secure: bool,
    httpOnly: bool,
    sameSite: SameSiteMode)

  const Hour: Duration := 3_600_000_000_000

  /** How far in the past a deletion cookie expires: thirty days. */
  const DeletionAge: Duration := Hour * 24 * 30

  /** The configured attributes a cookie carries. */
  function PolicyOf(c: Cookie): CookiePolicy {
    CookiePolicy(c.name, c.domain, c.path, c.secure, c.httpOnly, c.sameSite)
  }

  /** The cookie `setCookie` builds: the configured attributes verbatim,
      with value `tok` and expiry `exp`. */
  function SessionCookie(p: CookiePolicy, exp: Time, tok: string): (c: Cookie)
    ensures PolicyOf(c) == p
    ensures c.value == tok && c.expires == exp
  {
    Cookie(p.name, tok, p.path, p.domain, exp, p.secure, p.httpOnly, p.sameSite)
  }

  /** The cookie `deleteCookie` builds at instant `now`. */
  function DeletionCookie(p: CookiePolicy, now: Time): (c: Cookie)
    ensures PolicyOf(c) == p
    ensures c.value == ""
    ensures c.expires == now - DeletionAge && c.expires < now
  {
    SessionCookie(p, now - DeletionAge, "")
  }

  /** A client stores one cookie per (name, domain, path): a cookie with
      the same three replaces the one it holds (RFC 6265, section 5.3). */
  predicate SameSlot(a: Cookie, b: Cookie) {
    a.name == b.name && a.domain == b.domain && a.path == b.path
  }

  /** Whatever session cookie the policy issued, at whatever expiry, the
      deletion cookie lands in its slot, empty and already expired. */
  lemma DeletionReplacesSessionCookie(p: CookiePolicy, exp: Time, tok: string, now: Time)
    ensures SameSlot(SessionCookie(p, exp, tok), DeletionCookie(p, now))
    ensures DeletionCookie(p, now).value == "" && DeletionCookie(p, now).expires < now
  {
  }

  /** The value a client sends back for a cookie it holds. */
  function Echo(c: Cookie): (rc: RequestCookie)
    ensures rc.name == c.name && rc.value == c.value
  {
    RequestCookie(c.name, c.value)
  }

  /** The Set-Cookie headers `http.SetCookie` writes for `c`: the cookie
      itself, or none when its name is not a valid token. */
  function Written(c: Cookie): (hs: seq<Cookie>)
    ensures |hs| <= 1
    ensures hs != [] <==> IsToken(c.name)
    ensures hs != [] ==> hs[0] == c
  {
    if IsToken(c.name) then [c] else []
  }

  /** The response: the Set-Cookie headers written to it, in order. */
  class Response {
    var cookies: seq<Cookie>

    constructor ()
      ensures cookies == []
    {
      cookies := [];
    }

    /** `http.SetCookie(w, c)`: a cookie whose name is not a valid token
        is dropped without a word. */
    method SetCookie(c: Cookie)
      modifies this
      ensures cookies == old(cookies) + Written(c)
    {
      if IsToken(c.name) {
        cookies := cookies + [c];
      }
    }
  }
}
