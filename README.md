# API section request gate

A model of the API section of an HTTP API server (`Api/apiSection.go`): the
authentication stage `GetUserInfo`, which resolves a request's API key into
a logged-in or anonymous identity, and the chain bookkeeping (`use`,
`setupRoute`) that builds the middleware chain and registers one handler
per route.

- `middleware.dfy` (module `Middleware`) holds what the API section assumes
  of the Middleware package's chain: `Push` appends a stage, `Pop` removes
  the last one, and `MakeHandler` compiles a snapshot of the current stages.
  The Middleware package itself is not part of this model.
- `api_section.dfy` (module `Api`) holds the data shapes (`Login`,
  `UserInfo`, `ErrRes`), the per-request context, the authentication stage
  as a pure function from a lookup outcome and the current time to an
  effect record, `respondNotLoggedIn` as a constant effect record, and the
  `ApiSection` and `Router` classes whose methods do the route setup.

The login query is replaced by its outcome (`LookupOutcome`: a query error,
not found, or a found `Login`), and the clock by a parameter `now`. The
effect record (`Effects`) lists the `context.Set` calls in order, whether
`Break` is signalled and the `setRes` calls in order. `ApplyWrites` turns the
writes into the request's context, a map. `Resolve` gives the identity a lookup
outcome stands for: anonymous, authenticated as a user, or a failed
resolution. `GetUserInfoContext` ties the context the stage leaves behind to
that identity. Both `Login.Expires` and `time.Now().Unix()` are Go `int64`s,
modelled by the `Int64` newtype; the expiry test compares them without
arithmetic, so nothing can overflow.

`setupRoute`'s two panics are modelled as a returned `SetupOutcome.Panic`
carrying the panic message, with the router and the chain left unchanged.

## Model

| member | source | states |
|---|---|---|
| `Api.GetUserInfo` | Api/apiSection.go:51-74 | At most one response. Break is signalled exactly when the query fails. A failed query writes nothing and sets exactly one response: 500 with a nil payload. Every other outcome sets no response and writes `loggedIn`, true exactly for a record with `now <= Expires`. `user` is written exactly for such a record, holding its UID. Only `loggedIn` and `user` are written, each at most once |
| `Api.ExpiredIsNotFound` | Api/apiSection.go:63-70 | A record with `Expires < now` has exactly the effects of a missing record and resolves to anonymous |
| `Api.ExpiryIsStrict` | Api/apiSection.go:67-73 | A record with `Expires >= now` writes `loggedIn = true` and then `user` with its UID, and resolves to that user |
| `Api.GetUserInfoContext` | Api/apiSection.go:54-74 | The context after the stage, in terms of the resolved identity: unchanged on a failed resolution; otherwise `loggedIn` says whether the request is authenticated, `user` holds the authenticated user's id (and is untouched when anonymous), and every other key is untouched |
| `Api.ApplyWritesLookup` | Api/apiSection.go:64-73 | After a run of `context.Set` calls a key holds its last written value; a key never written keeps its earlier value or stays absent |
| `Api.RespondNotLoggedIn` | Api/apiSection.go:83-86 | Sets exactly one response, 401 with `ErrRes{Reason: "not logged in"}`, writes nothing and does not signal break |
| `Api.UseSpec` | Api/apiSection.go:76-81 | After `use(f)` the chain is one stage longer; the earlier stages are kept unchanged and `f` is last; with no chain before, the chain is `[f]` |
| `Api.UseAllAppends` | Api/apiSection.go:76-81 | Successive `use` calls append their stages in call order; starting from no chain, the chain is exactly the stages used |
| `Api.RegisteredHandler` | Api/apiSection.go:37-43 | With no chain the handler is `f` itself. With a chain it is a compiled chain. Either way its stages are the chain's stages followed by `f` |
| `Api.ApiSection.Use` | Api/apiSection.go:76-81 | Creates a fresh chain (with flag `true`) when there is none, otherwise keeps the same chain object; the chain's stages become `UseSpec` of the old ones |
| `Api.ApiSection.SetupRoute` | Api/apiSection.go:29-44 | Panics with the router message when the router is unset, else with the logger message when the logger is unset, changing nothing; otherwise adds exactly one route (method, endpoint, `RegisteredHandler(old chain, f)`) at the end of the router's table; the chain's stages are as before in every case |
| `Api.ApiSection.constructor` | Api/apiSection.go:21-27 | A section with the given router and logger state and no chain |
| `Api.Router.HandleFunc` | Api/apiSection.go:43 | Appends one route for (method, endpoint, handler) |
| `Middleware.Chain.constructor` | Api/apiSection.go:78 | `NewChain(flag)` gives a chain with no stages |
| `Middleware.Chain.Push` | Api/apiSection.go:39 | Appends the stage at the end of the chain |
| `Middleware.Chain.MakeHandler` | Api/apiSection.go:40 | Returns a compiled handler whose stages are the chain's current stages |
| `Middleware.Chain.Pop` | Api/apiSection.go:41 | On a non-empty chain removes the last stage and reports success; on an empty chain reports failure and changes nothing |

## Left out

- The MongoDB query `Logins.Find(...).One`: a foreign driver call, replaced by the `LookupOutcome` parameter. `mgo.ErrNotFound` becomes `NotFound`; every other error becomes `QueryError`.
- `time.Now()`: the current time is the parameter `now`.
- Reading the `X-API-KEY` header: the key only feeds the lookup, whose outcome is the input.
- Logging (`Debugf`, `Warnf`): output with no effect on behaviour. The logger is modelled only by whether it is set (`logReady`).
- Middleware package internals: what `NewChain`'s flag means, how a compiled chain dispatches its stages, and how `Break` stops them. That package is not part of this model, so dispatch and the break protocol are not modelled. `Effects.brk` records only that `Break` was called. `MakeHandler` is assumed to take a snapshot of the stages rather than keep a reference to the chain.
- The order of the `Break` call relative to the `setRes` call on the query-error branch: the effect record keeps the two apart.
- A nil chain at the time `GetUserInfo` calls `as.c.Break`: the stage is only reachable through a chain, so this case is not modelled.
- gorilla/mux route matching and `.Methods()`: an external routing library. Registration is modelled as appending a `Route` entry.
- gorilla/context's process-wide map and concurrent requests: one request's context is a local map.
- The serialisation tags, `Location`, `ContentRevision` and the `XMLName` fields: serialisation shapes and floats that no logic touches.
- `ErrRes` serialisation and the response-format header: the response setter is an external boundary, recorded only as (status, payload) calls.
