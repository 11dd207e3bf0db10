# sessionup session manager, in Dafny

A model of the session lifecycle engine of the Go library `sessionup`
(`manager.go`): the `Manager` configuration and its option setters,
`NewManager`, `Defaults` and `Clone`; `Init`, which issues a session and
its cookie; the `Auth` middleware, which turns a request's cookie into a
session bound to the request context or into a rejection; `Revoke`,
`RevokeOther`, `RevokeAll` and `FetchAll`; and the cookie construction in
`setCookie` and `deleteCookie`.

Modules:

- `Wrappers`: `Option`, standing for Go's `(value, ok)`, nil slices and nil errors.
- `Sessions`: the session record, the request context (the session bound to it, if any),
  requests as their list of cookies plus a context, errors, and time as integer nanoseconds
  with 0 as Go's zero `time.Time`.
- `Cookies`: the configured cookie attributes, the cookie record, and `Response`, a class
  holding the Set-Cookie headers written so far.
- `Stores`: `Store`, a reference in-memory store meeting the store interface's contract. Its
  `fault` field is the error oracle: while set, every call returns that error and changes
  nothing. A ghost `calls` log records every changing call the manager makes.
- `Options`: the configuration as a value (`Settings`), the setters as a datatype (`Setter`),
  and what running them does.
- `Managers`: the `Manager` class, whose methods change its fields, the store and the response
  in place. `Auth` is a pure function returning a trace: the IDs looked up and the handlers served.
- `Scenarios`: properties spanning several operations.

Behaviour of the code worth noting (the model follows the code):

- `RevokeOther` with no session bound passes the zero-value ID `""` as the exclusion rather
  than no exclusion (its doc comment, manager.go:256-257, speaks only of the current session).
  A stored session whose ID is `""` therefore survives it.
- `FetchAll` never clears `Current` on other entries. The doc comment at manager.go:274-276 says
  the session with the context's ID is marked. That is exactly one entry only when the store returns
  unannotated sessions (`CurrentIsFirstMatch`), and only the first entry with the bound ID is marked.
- `Defaults` ("all configuration options", manager.go:155-156) does not reset the domain or the
  expiry duration. They are zero only on a new manager.
- `Init` stores a session only when `ExpiresAt` is after the zero time. A session without expiry
  is issued a cookie that `Auth` then rejects (`EphemeralRoundTrip`).
- `http.SetCookie` drops a cookie whose name is not a non-empty token, and `Request.Cookie` finds
  none under such a name. With such a cookie name `Init`, `Revoke` and `RevokeAll` write no
  cookie, and `Auth` rejects every request as missing its cookie. The default name `sessionup` is a token.

## Model

| member | source | states |
|---|---|---|
| `Options.Applied` | manager.go:44-140 | a setter writes its own field with its value and leaves every other field unchanged |
| `Options.LastSetterWins` | manager.go:144-153 | options run in order: each field holds the value of the last setter that writes it, else its earlier value |
| `Options.WithDefaults` | manager.go:157-167 | `Defaults` writes name "sessionup", path "/", secure, httpOnly, strict SameSite, withIP, withAgent and the default ID generator and rejecter, and keeps domain and expiry duration |
| `Options.NewManagerSettings` | manager.go:144-167 | a new manager has each field from its last setter or else the defaults, with empty domain and zero expiry; the default name is a valid cookie name |
| `Managers.Manager.constructor` | manager.go:145 | a manager on store `s` with every other field at Go's zero value |
| `Managers.Manager.Apply` | manager.go:40-140 | running one setter changes the configuration as `Applied` says and keeps the store |
| `Managers.Manager.Defaults` | manager.go:157-167 | the new configuration is `WithDefaults` of the old; the store is kept |
| `Managers.Manager.NewManager` | manager.go:144-153 | a fresh manager on the given store whose configuration is the defaults with the options applied in order |
| `Managers.Manager.Clone` | manager.go:190-198 | a fresh manager on the same store whose configuration is the original's with the options applied; the original is not modified |
| `Cookies.SessionCookie` | manager.go:304-314 | the cookie carries the configured name, path, domain, secure, httpOnly and SameSite verbatim, with the given value and expiry |
| `Cookies.DeletionCookie` | manager.go:321-323 | the deletion cookie has the configured attributes, an empty value, and an expiry 30 days before `now`, strictly earlier than `now` |
| `Cookies.DeletionReplacesSessionCookie` | manager.go:319-323 | the deletion cookie has the same name, domain and path as any session cookie the policy issues, so it replaces that cookie, whatever its expiry |
| `Managers.Manager.SetCookie` | manager.go:304-317 | the session cookie for the token and expiry is appended to the response, unless its name is not a token |
| `Cookies.Written` | manager.go:316 | `http.SetCookie` writes the cookie itself, exactly when its name is a token, and nothing else |
| `Managers.Manager.DeleteCookie` | manager.go:321-323 | the deletion cookie for `now` is appended to the response, unless its name is not a token |
| `Sessions.CookieValue` | manager.go:218 | a found value belongs to a cookie of that name in the request; nothing is found exactly when the name is not a token or no cookie has it |
| `Sessions.NewContext` | manager.go:236 | the session bound by `newContext` is what `FromContext` returns |
| `Sessions.BoundID` | manager.go:259 | the bound session's ID, or the zero-value ID `""` when none is bound |
| `Managers.Manager.Init` | manager.go:202-212 | `Create` is called, with the session, exactly when its expiry is after the zero time; a failed create returns its error and writes no cookie; otherwise the cookie with the session's ID and expiry is written (dropped if its name is not a token) |
| `Managers.Manager.Auth` | manager.go:216-238 | exactly one handler is served; no cookie: rejected with the missing-cookie error and the store is not consulted; store error: rejected with that error; no such session: rejected as unauthorized; otherwise `next` is served with the stored session bound and is served exactly when the store holds the cookie's session |
| `Managers.Manager.Revoke` | manager.go:242-254 | no bound session: no error, store and response untouched; otherwise `DeleteByID` with the bound ID, its error returned, and the deletion cookie written only after a successful delete |
| `Managers.Manager.RevokeOther` | manager.go:258-261 | `DeleteByUserKey` with exactly the bound ID (or `""`) as exclusion; afterwards only that ID survives among the key's sessions; no cookie is written |
| `Managers.Manager.RevokeAll` | manager.go:265-272 | `DeleteByUserKey` with no exclusion; afterwards the key has no sessions; the deletion cookie is written only after a successful delete |
| `Managers.Manager.FetchAll` | manager.go:277-300 | store error: nil list and that error; nil result: nil and nil; otherwise the store's list, unchanged with no session bound and with the first entry whose ID is the bound one marked current otherwise |
| `Stores.FirstIndex` | manager.go:292-298 | the index the loop stops at: an entry with the bound ID and no earlier one; none when no entry has it |
| `Managers.MarkCurrentChangesOnlyFirstMatch` | manager.go:292-298 | the listing keeps its length and order, and only the first entry with the bound ID changes, gaining `Current = true` |
| `Managers.CurrentIsFirstMatch` | manager.go:274-298 | with unannotated store results, an entry is current exactly when it is the first with the bound ID |
| `Stores.Lookup` | manager.go:225 | the session found, the row at `FirstIndex`, has the requested ID and is stored; none is found exactly when no stored session has that ID |
| `Stores.Filter` | manager.go:248 | the sessions a delete keeps are exactly the stored ones that satisfy the keep condition |
| `Stores.LookupAppended` | manager.go:205 | a session created under a new ID is the one later found by that ID |
| `Stores.Store.FetchByID` | manager.go:225 | the store's error is passed on; a session is found exactly when there is no error and one with that ID is stored |
| `Stores.Store.FetchByUserKey` | manager.go:278 | the store's error is passed on; a listing is non-empty and holds exactly the key's sessions; nil means the key has none |
| `Stores.Store.Create` | manager.go:205 | the call is logged and the session is stored unless the store fails |
| `Stores.Store.DeleteByID` | manager.go:248 | the call is logged and every session with that ID is removed unless the store fails |
| `Stores.Store.DeleteByUserKey` | manager.go:260 | the call is logged with its exclusions, and every session of the key whose ID is not excluded is removed unless the store fails |
| `Scenarios.PersistentRoundTrip` | manager.go:202-238 | after `Init` with an expiry, the issued cookie passes `Auth`: forwarded once with the stored session (same ID and user key) bound; with a non-token cookie name nothing was issued and the request is rejected as missing its cookie |
| `Scenarios.EphemeralRoundTrip` | manager.go:202-238 | after `Init` without an expiry, the issued cookie is rejected by `Auth` as unauthorized, since nothing was stored (as missing, with a non-token cookie name) |
| `Scenarios.RevokedIsRejected` | manager.go:216-254 | with a working store at `Auth` time: after a successful `Revoke` the session's cookie is rejected as unauthorized, and after a failed one it is still forwarded if the session was stored; a store failing at `Auth` time rejects with its error |

## Left out

- `DefaultGenID` (random 30-character IDs) and `newSession`: they rely on randomness and on code
  outside `manager.go`. `Init` takes the session `newSession` built as a parameter, and the ID
  generator is recorded as a tag.
- `DefaultReject` and any custom rejecter: producing the 401 JSON response goes through `net/http`
  and `encoding/json`. `Auth` records which rejecter is served and with which error.
- Managers.Manager.Auth: a nil rejecter (`Reject(nil)`, or Go's zero value) or a nil `next` makes Go
  panic on the call at manager.go:220, 227, 232 or 236. The model records the dispatch as served instead.
  Likewise a nil ID generator (`GenID(nil)`) would panic inside `newSession`, which is not part of this model.
- Cookie wire formatting in `http.SetCookie` and Cookie-header parsing in `Request.Cookie`.
  The cookie is a record. The request is its list of name/value pairs, and the first pair with the
  configured name is the one read. Cookie-name validity is modelled. Not modelled: `http.SetCookie`
  omits an `Expires` attribute before the year 1601, and it strips invalid bytes from cookie values.
  Request parsing also skips pairs whose value is malformed.
- Real store backends, context cancellation and timeouts. The store is a reference in-memory model
  with a single error oracle, and its failure behaviour is "fail without change".
- `time.Now` and durations are integer nanoseconds passed in as parameters.
- Aliasing between the slice `FetchAll` returns and the store's own slice is not modelled.
  The listing is a value.
