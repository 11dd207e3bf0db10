/** The entities the manager works with: sessions, request contexts,
    requests, errors and time. `Session`, `newContext` and `FromContext`
    live outside manager.go; only the behaviour the manager relies on is
    given here. */
module Sessions {
  import opened Wrappers

  /** An instant, in nanoseconds; `ZeroTime` is Go's zero `time.Time`,
      which the source uses to mean "unset". */
  type Time = int

  /** A `time.Duration`, in nanoseconds. */
  type Duration = int

  const ZeroTime: Time := 0

  /** One session. `current` is the request-scoped annotation set by
      `FetchAll`; it is never persisted. */
  datatype Session = Session(
    id: string,
    userKey: string,
    createdAt: Time,
    expiresAt: Time,
    ip: string,
    userAgent: string,
    current: bool)

  /** Go's zero `Session{}`, what `FromContext` yields when nothing is bound. */
  const ZeroSession := Session("", "", ZeroTime, ZeroTime, "", "", false)

  /** The errors the manager itself produces or passes on. */
  datatype Error =
    | ErrNoCookie               // net/http's error when the named cookie is absent
    | Unauthorized              // the manager's own `errors.New("unauthorized")`
    | StoreFailure(msg: string) // any error a store returns, passed on unchanged

  /** A request's processing context, reduced to the session bound to it. */
  datatype Context = Context(bound: Option<Session>)

  /** `newContext`: the context `ctx` with `s` bound to it. */
  function NewContext(ctx: Context, s: Session): (c: Context)
    ensures FromContext(c) == Some(s)
  {
    ctx.(bound := Some(s))
  }

  /** `FromContext`: the session bound to `ctx`, if any. */
  function FromContext(ctx: Context): Option<Session> {
    ctx.bound
  }

  /** The ID of the bound session, or the zero-value ID `""` when none is
      bound (the `s, _ := FromContext(ctx)` idiom). */
  function BoundID(ctx: Context): (id: string)
    ensures FromContext(ctx).Some? ==> id == FromContext(ctx).value.id
    ensures FromContext(ctx).None? ==> id == ZeroSession.id
  {
    FromContext(ctx).GetOr(ZeroSession).id
  }

  /** One `name=value` pair of a request's Cookie header. */
  datatype RequestCookie = RequestCookie(name: string, value: string)

  /** An incoming request: the cookies it carries, in header order, and
      its context. */
  datatype Request = Request(cookies: seq<RequestCookie>, ctx: Context)

  /** A character allowed in an HTTP token (RFC 7230, section 3.2.6). */
  predicate IsTokenChar(c: char) {
    ('0' <= c <= '9') || ('a' <= c <= 'z') || ('A' <= c <= 'Z') || c in "!#$%&'*+-.^_`|~"
  }

  /** A valid cookie name: a non-empty token. net/http writes no cookie
      with any other name and finds none under it in a request. */
  predicate IsToken(s: string) {
    |s| > 0 && forall i :: 0 <= i < |s| ==> IsTokenChar(s[i])
  }

  /** `r.Cookie(name)`: the value of the first cookie called `name`, or
      nothing (net/http then reports `ErrNoCookie`); a name that is not a
      token is never found. */
  function CookieValue(cookies: seq<RequestCookie>, name: string): (v: Option<string>)
    ensures v.Some? ==> IsToken(name) && RequestCookie(name, v.value) in cookies
    ensures v.None? <==> !IsToken(name) || forall c :: c in cookies ==> c.name != name
  {
    if IsToken(name) then FirstNamed(cookies, name) else None
  }

  /** The value of the first pair called `name`. */
  function FirstNamed(cookies: seq<RequestCookie>, name: string): (v: Option<string>)
    ensures v.Some? ==> RequestCookie(name, v.value) in cookies
    ensures v.None? <==> forall c :: c in cookies ==> c.name != name
    decreases |cookies|
  {
    if cookies == [] then None
    else if cookies[0].name == name then Some(cookies[0].value)
    else FirstNamed(cookies[1..], name)
  }
}
