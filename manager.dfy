/** The session manager: its configuration, and the operations that issue,
    authenticate, revoke and list sessions. */
module Managers {
  import opened Wrappers
  import opened Sessions
  import opened Cookies
  import opened Stores
  import opened Options

  /** A handler the caller wraps with `Auth`. */
  datatype Handler = Handler(name: string)

  /** One `ServeHTTP` call `Auth` makes: the wrapped handler on a request,
      or the configured rejecter's handler for an error. */
  datatype Dispatch =
    | Forward(next: Handler, req: Request)
    | Rejection(via: Rejecter, err: Error, req: Request)

  /** What one request through `Auth` does: the IDs it looks up in the
      store and the handlers it serves, in order. */
  datatype AuthTrace = AuthTrace(fetched: seq<string>, served: seq<Dispatch>)

  /** The listing `FetchAll` returns for the store's sessions `ss` when a
      session with ID `id` is bound: the first entry with that ID marked
      current. */
  function MarkCurrent(ss: seq<Session>, id: string): seq<Session> {
    match FirstIndex(ss, id)
    case Some(k) => ss[k := ss[k].(current := true)]
    case None => ss
  }

  /** `MarkCurrent` keeps the length and order of the listing and changes
      at most one entry: the first one with the bound ID gets
      `current == true`, and nothing else about it changes. */
  lemma MarkCurrentChangesOnlyFirstMatch(ss: seq<Session>, id: string, i: nat)
    requires i < |ss|
    ensures |MarkCurrent(ss, id)| == |ss|
    ensures MarkCurrent(ss, id)[i] ==
      if FirstIndex(ss, id) == Some(i) then ss[i].(current := true) else ss[i]
    ensures FirstIndex(ss, id) == Some(i) <==>
      ss[i].id == id && forall j :: 0 <= j < i ==> ss[j].id != id
  {
  }

  /** When the store hands back unannotated sessions, exactly one entry of
      the listing is current if some session has the bound ID, and none is
      otherwise. */
  lemma CurrentIsFirstMatch(ss: seq<Session>, id: string, i: nat)
    requires i < |ss|
    requires forall j :: 0 <= j < |ss| ==> !ss[j].current
    ensures MarkCurrent(ss, id)[i].current <==>
      ss[i].id == id && forall j :: 0 <= j < i ==> ss[j].id != id
  {
    MarkCurrentChangesOnlyFirstMatch(ss, id, i);
  }

  class Manager {
    var store: Store
    var cookie: CookiePolicy
    var expiresIn: Duration
    var withIP: bool
    var withAgent: bool
    var genID: IDGenerator
    var reject: Rejecter

    /** The manager's configurable fields. */
    function Config(): Settings
      reads this
    {
      Settings(cookie, expiresIn, withIP, withAgent, genID, reject)
    }

    /** `&Manager{store: s}`: every other field at its zero value. */
    constructor (s: Store)
      ensures store == s && Config() == ZeroSettings
    {
      store := s;
      cookie := ZeroSettings.cookie;
      expiresIn := 0;
      withIP, withAgent := false, false;
      genID, reject := NilGenID, NilReject;
    }

    /** `o(m)`: run one option setter on this manager. */
    method Apply(o: Setter)
      modifies this
      ensures store == old(store)
      ensures Config() == Applied(old(Config()), o)
    {
      match o
      case CookieName(n) => cookie := cookie.(name := n);
      case Domain(d) => cookie := cookie.(domain := d);
      case Path(p) => cookie := cookie.(path := p);
      case Secure(b) => cookie := cookie.(secure := b);
      case HttpOnly(b) => cookie := cookie.(httpOnly := b);
      case SameSite(m) => cookie := cookie.(sameSite := m);
      case ExpiresIn(e) => expiresIn := e;
      case WithIP(b) => withIP := b;
      case WithAgent(b) => withAgent := b;
      case GenID(g) => genID := g;
      case Reject(r) => reject := r;
    }

    /** `Defaults`: reset every option except the domain and the expiry
        duration. */
    method Defaults()
      modifies this
      ensures store == old(store)
      ensures Config() == WithDefaults(old(Config()))
    {
      cookie := cookie.(name := DefaultName, path := "/", secure := true,
                        httpOnly := true, sameSite := SameSiteStrictMode);
      withIP := true;
      withAgent := true;
      genID := DefaultGenID;
      reject := DefaultReject;
    }

    /** `NewManager`: a manager on store `s` with the defaults, then `opts`
        in order. */
    static method NewManager(s: Store, opts: seq<Setter>) returns (m: Manager)
      ensures fresh(m) && m.store == s
      ensures m.Config() == ApplyAll(Initial, opts)
    {
      m := new Manager(s);
      m.Defaults();
      for i := 0 to |opts|
        invariant m.store == s
        invariant m.Config() == ApplyAll(Initial, opts[..i])
      {
        assert opts[..i + 1][..i] == opts[..i];
        m.Apply(opts[i]);
      }
      assert opts[..|opts|] == opts;
    }

    /** `Clone`: a fresh copy of this manager, with `opts` applied to the
        copy only. */
    method Clone(opts: seq<Setter>) returns (cm: Manager)
      ensures fresh(cm) && cm.store == store
      ensures cm.Config() == ApplyAll(Config(), opts)
    {
      cm := new Manager(store);
      cm.cookie, cm.expiresIn, cm.withIP, cm.withAgent := cookie, expiresIn, withIP, withAgent;
      cm.genID, cm.reject := genID, reject;
      for i := 0 to |opts|
        invariant cm.store == store
        invariant cm.Config() == ApplyAll(Config(), opts[..i])
      {
        assert opts[..i + 1][..i] == opts[..i];
        cm.Apply(opts[i]);
      }
      assert opts[..|opts|] == opts;
    }

    /** `setCookie`: write the session cookie for token `tok`, expiring at
        `exp` (net/http drops it if the configured name is not a token). */
    method SetCookie(w: Response, exp: Time, tok: string)
      modifies w
      ensures w.cookies == old(w.cookies) + Written(SessionCookie(cookie, exp, tok))
    {
      w.SetCookie(SessionCookie(cookie, exp, tok));
    }

    /** `deleteCookie`: overwrite the session cookie with an empty one that
        expired thirty days before `now`. */
    method DeleteCookie(w: Response, now: Time)
      modifies w
      ensures w.cookies == old(w.cookies) + Written(DeletionCookie(cookie, now))
    {
      SetCookie(w, now - DeletionAge, "");
    }

    /** `Init`, for the session `s` that `newSession` built from the
        request and the user key: store it when it has an expiry, then
        set its cookie unless the store refused it. */
    method Init(w: Response, s: Session) returns (err: Option<Error>)
      modifies store, w
      ensures store.calls == old(store.calls) + (if s.expiresAt > ZeroTime then [CreateCall(s)] else [])
      ensures err == (if s.expiresAt > ZeroTime then old(store.fault) else None)
      ensures store.rows == (if s.expiresAt > ZeroTime && err.None? then old(store.rows) + [s] else old(store.rows))
      ensures store.fault == old(store.fault)
      ensures w.cookies == old(w.cookies) + (if err.None? then Written(SessionCookie(cookie, s.expiresAt, s.id)) else [])
    {
      if s.expiresAt > ZeroTime {
        err := store.Create(s);
        if err.Some? {
          return;
        }
      }
      err := None;
      SetCookie(w, s.expiresAt, s.id);
    }

    /** `Auth(next)` serving request `r`: reject when the cookie is
        missing, when the store fails, or when it holds no such session;
        otherwise serve `next` once, with the session bound to the
        request's context. A nil rejecter or handler, on which Go panics,
        is recorded here as served like any other. */
    function Auth(next: Handler, r: Request): (t: AuthTrace)
      reads this, store
      ensures |t.served| == 1
      ensures CookieValue(r.cookies, cookie.name).None? ==>
        t.fetched == [] && t.served[0] == Rejection(reject, ErrNoCookie, r)
      ensures CookieValue(r.cookies, cookie.name).Some? ==>
        t.fetched == [CookieValue(r.cookies, cookie.name).value]
      ensures CookieValue(r.cookies, cookie.name).Some? && store.fault.Some? ==>
        t.served[0] == Rejection(reject, store.fault.value, r)
      ensures (CookieValue(r.cookies, cookie.name).Some? && store.fault.None? &&
               Lookup(store.rows, CookieValue(r.cookies, cookie.name).value).None?) ==>
        t.served[0] == Rejection(reject, Unauthorized, r)
      ensures t.served[0].Forward? <==>
        CookieValue(r.cookies, cookie.name).Some? && store.fault.None? &&
        Lookup(store.rows, CookieValue(r.cookies, cookie.name).value).Some?
      ensures t.served[0].Forward? ==>
        t.served[0].next == next && t.served[0].req.cookies == r.cookies &&
        FromContext(t.served[0].req.ctx) == Lookup(store.rows, t.fetched[0])
    {
      match CookieValue(r.cookies, cookie.name)
      case None => AuthTrace([], [Rejection(reject, ErrNoCookie, r)])
      case Some(v) =>
        var rep := store.FetchByID(v);
        if rep.err.Some? then AuthTrace([v], [Rejection(reject, rep.err.value, r)])
        else if !rep.ok then AuthTrace([v], [Rejection(reject, Unauthorized, r)])
        else AuthTrace([v], [Forward(next, r.(ctx := NewContext(r.ctx, rep.session)))])
    }

    /** `Revoke`: delete the bound session from the store, then delete the
        cookie; with no session bound, do nothing. */
    method Revoke(ctx: Context, w: Response, now: Time) returns (err: Option<Error>)
      modifies store, w
      ensures FromContext(ctx).None? ==>
        err.None? && unchanged(store) && w.cookies == old(w.cookies)
      ensures FromContext(ctx).Some? ==>
        store.calls == old(store.calls) + [DeleteByIDCall(FromContext(ctx).value.id)] &&
        err == old(store.fault)
      ensures store.fault == old(store.fault)
      ensures FromContext(ctx).Some? && err.None? ==>
        forall s :: s in store.rows <==> s in old(store.rows) && s.id != FromContext(ctx).value.id
      ensures err.Some? ==> store.rows == old(store.rows)
      ensures w.cookies == old(w.cookies) +
        (if FromContext(ctx).Some? && err.None? then Written(DeletionCookie(cookie, now)) else [])
    {
      var bound := FromContext(ctx);
      if bound.None? {
        return None;
      }
      err := store.DeleteByID(bound.value.id);
      if err.Some? {
        return;
      }
      DeleteCookie(w, now);
    }

    /** `RevokeOther`: delete every session of `key` except the bound one;
        the cookie is left as it is. */
    method RevokeOther(ctx: Context, key: string) returns (err: Option<Error>)
      modifies store
      ensures store.calls == old(store.calls) + [DeleteByUserKeyCall(key, [BoundID(ctx)])]
      ensures err == old(store.fault) && store.fault == old(store.fault)
      ensures err.Some? ==> store.rows == old(store.rows)
      ensures err.None? ==> forall s :: s in store.rows <==>
        s in old(store.rows) && (s.userKey != key || s.id == BoundID(ctx))
    {
      err := store.DeleteByUserKey(key, [BoundID(ctx)]);
    }

    /** `RevokeAll`: delete every session of `key`, then delete the cookie. */
    method RevokeAll(ctx: Context, w: Response, key: string, now: Time) returns (err: Option<Error>)
      modifies store, w
      ensures store.calls == old(store.calls) + [DeleteByUserKeyCall(key, [])]
      ensures err == old(store.fault) && store.fault == old(store.fault)
      ensures err.Some? ==> store.rows == old(store.rows)
      ensures err.None? ==> forall s :: s in store.rows <==> s in old(store.rows) && s.userKey != key
      ensures w.cookies == old(w.cookies) + (if err.None? then Written(DeletionCookie(cookie, now)) else [])
    {
      err := store.DeleteByUserKey(key, []);
      if err.Some? {
        return;
      }
      DeleteCookie(w, now);
    }

    /** `FetchAll`: every session of `key`, the one bound to `ctx` marked
        current; nil with the error if the store fails, nil and no error if
        it has none. */
    method FetchAll(ctx: Context, key: string) returns (ss: Option<seq<Session>>, err: Option<Error>)
      ensures err == store.fault
      ensures err.Some? ==> ss.None?
      ensures store.FetchByUserKey(key).0.None? ==> ss.None?
      ensures store.FetchByUserKey(key).0.Some? && err.None? ==>
        ss.Some? && |ss.value| == |store.FetchByUserKey(key).0.value| &&
        ss.value == if FromContext(ctx).Some?
          then MarkCurrent(store.FetchByUserKey(key).0.value, FromContext(ctx).value.id)
          else store.FetchByUserKey(key).0.value
    {
      var fetched, e := store.FetchByUserKey(key).0, store.FetchByUserKey(key).1;
      if e.Some? {
        return None, e;
      }
      if fetched.None? {
        return None, None;
      }
      var bound := FromContext(ctx);
      if bound.None? {
        return fetched, None;
      }
      var list := fetched.value;
      for i := 0 to |list|
        invariant list == fetched.value
        invariant forall j :: 0 <= j < i ==> list[j].id != bound.value.id
      {
        if list[i].id == bound.value.id {
          list := list[i := list[i].(current := true)];
          assert FirstIndex(fetched.value, bound.value.id) == Some(i);
          break;
        }
      }
      return Some(list), None;
    }
  }
}
