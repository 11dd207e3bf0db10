/** Properties that span several operations: a session issued by `Init`
    and presented back to `Auth`, and a session presented after `Revoke`. */
module Scenarios {
  import opened Wrappers
  import opened Sessions
  import opened Cookies
  import opened Stores
  import opened Managers

  /** The request a client sends after receiving the cookies `issued`. */
  function Resubmit(issued: seq<Cookie>, ctx: Context): (r: Request)
    ensures |r.cookies| == |issued|
    ensures forall i :: 0 <= i < |issued| ==> r.cookies[i] == Echo(issued[i])
  {
    Request(seq(|issued|, i requires 0 <= i < |issued| => Echo(issued[i])), ctx)
  }

  /** `Init` with an expiry, then whatever cookie it issued sent back
      through `Auth`. With a cookie name that is a token, the request is
      forwarded once, bound to the very session `Init` stored (same ID,
      same user key); with any other name no cookie was issued, and the
      request is rejected without consulting the store. */
  method PersistentRoundTrip(m: Manager, s: Session, ctx: Context, next: Handler) returns (t: AuthTrace)
    requires m.store.fault.None?
    requires s.expiresAt > ZeroTime
    requires Lookup(m.store.rows, s.id).None?
    modifies m.store
    ensures IsToken(m.cookie.name) ==> t.fetched == [s.id]
    ensures IsToken(m.cookie.name) ==>
      |t.served| == 1 && t.served[0].Forward? && t.served[0].next == next &&
      FromContext(t.served[0].req.ctx) == Some(s)
    ensures !IsToken(m.cookie.name) ==>
      t.fetched == [] && t.served == [Rejection(m.reject, ErrNoCookie, Resubmit([], ctx))]
  {
    var w := new Response();
    var err := m.Init(w, s);
    LookupAppended(old(m.store.rows), s);
    var r := Resubmit(w.cookies, ctx);
    if IsToken(m.cookie.name) {
      assert r.cookies[0] == RequestCookie(m.cookie.name, s.id);
    }
    t := m.Auth(next, r);
  }

  /** `Init` without an expiry still issues the cookie, but nothing is
      stored, so sending it back through `Auth` is rejected as
      unauthorized (or as a missing cookie, when the name is not a token
      and no cookie was issued). */
  method EphemeralRoundTrip(m: Manager, s: Session, ctx: Context, next: Handler) returns (t: AuthTrace)
    requires m.store.fault.None?
    requires s.expiresAt <= ZeroTime
    requires Lookup(m.store.rows, s.id).None?
    modifies m.store
    ensures IsToken(m.cookie.name) ==>
      t.fetched == [s.id] &&
      t.served == [Rejection(m.reject, Unauthorized, Resubmit([SessionCookie(m.cookie, s.expiresAt, s.id)], ctx))]
    ensures !IsToken(m.cookie.name) ==>
      t.fetched == [] && t.served == [Rejection(m.reject, ErrNoCookie, Resubmit([], ctx))]
  {
    var w := new Response();
    var err := m.Init(w, s);
    var r := Resubmit(w.cookies, ctx);
    if IsToken(m.cookie.name) {
      assert w.cookies == [SessionCookie(m.cookie, s.expiresAt, s.id)];
      assert r.cookies[0] == RequestCookie(m.cookie.name, s.id);
    }
    t := m.Auth(next, r);
  }

  /** `Revoke` on a request bound to a session, then the same request
      through `Auth`, with the store's failure state `later` by then
      (a backend may fail one call and serve the next). A revoke that
      succeeded leaves nothing to find, so the cookie is rejected as
      unauthorized; a revoke that failed left the store as it was, so the
      cookie is still forwarded if its session was stored. */
  method RevokedIsRejected(m: Manager, r: Request, w: Response, now: Time, later: Option<Error>, next: Handler)
    returns (err: Option<Error>, t: AuthTrace)
    requires FromContext(r.ctx).Some?
    requires CookieValue(r.cookies, m.cookie.name) == Some(FromContext(r.ctx).value.id)
    modifies m.store, w
    ensures later.None? && err.None? ==> t.served == [Rejection(m.reject, Unauthorized, r)]
    ensures later.None? && err.Some? ==>
      |t.served| == 1 && (t.served[0].Forward? <==> Lookup(old(m.store.rows), FromContext(r.ctx).value.id).Some?)
    ensures later.Some? ==> t.served == [Rejection(m.reject, later.value, r)]
  {
    err := m.Revoke(r.ctx, w, now);
    m.store.fault := later;
    t := m.Auth(next, r);
  }
}
