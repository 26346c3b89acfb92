# YARC backend: request authentication and startup, in Dafny

This project models two pieces of the YARC backend (a Go web server for a
Reddit-like site):

- **The request middleware** (module `Middleware`, `middleware.dfy`):
  - `Authorize` takes the bearer token out of the `Authorization` header and checks it with `decodeJWT`. It then either answers 401 or calls the wrapped handler, with the username stored in the request context.
  - `decodeJWT` makes the accept/reject decision: an HMAC algorithm, a token the library reports valid, an `iat` claim no more than seven days old, and a string `username` claim.
  - `LogRequest` passes the request on.
  - `RecoverPanic` turns a downstream panic into status 500 with `connection: close`.
  - Handlers are a datatype, and `Serve` is the function that says what serving a request does. The methods `ServeHTTP`, `Authorize`, `LogRequest` and `RecoverPanic` update a `ResponseWriter` object in place, and each is proved to leave exactly the state `Serve` describes.
- **Application startup** (module `App`, `app.dfy`):
  - The PostgreSQL retry loop runs in discrete time: a 3 s ticker races a 30 s one-shot timer.
  - After the database comes a single Redis ping, then the `Handler` is built around one shared database handle.
  - `setRouters` registers the global middlewares (in order) and the 32 routes on a `Router` object.
  - Lemmas prove the route protection rule: which routes are wrapped in `auth`. Other lemmas prove what a request sees once it passes through the global middlewares and the route's handler.

`wrappers.dfy` holds the `Option` and `Result` datatypes.

The JWT library is represented by a parser value, `(tokenStr, secretKey) -> ParsedToken`. Each request runs under an `Env` that carries the clock (`now`, whole seconds), the secret key and that parser. The database loop takes three parameters:

- `attempt(k)`: how the attempt at the k-th tick ends;
- `tickWinsTie`: which channel `select` takes when the 30 s timer and the tenth tick are ready together;
- `redisPingOk`: whether the Redis ping succeeds.

**A malformed `Authorization` header is not answered 401.** The code indexes `[1]` of the space split with no guard (`middleware.go:57`), so a first header value without a space panics. `RecoverPanic` then answers 500 with `connection: close`. The model keeps this behaviour as written, rather than the 401 one might expect: see `HeaderWithoutSpacePanics` and `HeaderWithoutSpaceIs500`.

## Model

| member | source | states |
|---|---|---|
| Middleware.Split | backend/app/handlers/middleware.go:57 | `strings.Split` on one character: at least one field; exactly one iff the separator is absent; no field contains the separator |
| Middleware.JoinSplit | backend/app/handlers/middleware.go:57 | Joining the fields of a split gives back the original string, so splitting loses nothing |
| Middleware.SplitJoin | backend/app/handlers/middleware.go:57 | Splitting a join of separator-free fields gives back those fields |
| Middleware.SplitAfterField | backend/app/handlers/middleware.go:57 | A separator after a separator-free prefix ends the first field there |
| Middleware.ExtractToken | backend/app/handlers/middleware.go:50-57 | Token extraction panics (None) iff there is no value or the first value has no space; a token never contains a space |
| Middleware.TokenAfterScheme | backend/app/handlers/middleware.go:56-57 | Whatever the scheme word, the token is the text between the first and second space; the scheme is never checked |
| Middleware.DoubleSpaceGivesEmptyToken | backend/app/handlers/middleware.go:57 | `"<scheme>  ..."` yields the empty token |
| Middleware.IsHmac | backend/app/handlers/middleware.go:74 | The `*jwt.SigningMethodHMAC` assertion: only five-character `HS...` algorithms pass, and `none` never does |
| Middleware.ParseFails | backend/app/handlers/middleware.go:72-80 | `jwt.Parse` with the key function errs whenever the algorithm is not HMAC, the token does not decode, the signature fails or a library claim check fails |
| Middleware.Message | backend/app/handlers/middleware.go:81-101 | The four error strings of lines 81, 89, 98 and 101 (spelling `retreiving` kept); every message is non-empty |
| Middleware.MessagesDistinct | backend/app/handlers/middleware.go:81-101 | Different errors give different messages, so a client can tell which check failed |
| Middleware.Expired | backend/app/handlers/middleware.go:87-88 | `expTime.Sub(now) < 0` holds exactly when `now > iat + 7*24*3600` |
| Middleware.DecodeJWT | backend/app/handlers/middleware.go:71-102 | Success implies an HMAC algorithm, a parsed and valid token, `iat` present and not expired, and the returned name equals the `username` claim; the parse error is returned iff the library parse fails |
| Middleware.AuthorizeStep | backend/app/handlers/middleware.go:50-65 | The decision of `Authorize` before `next`: `NoHeader` (the 401 path) iff there is no `Authorization` key; `HeaderPanic` iff the header exists but token extraction fails; `Reject(e)` iff a token was extracted and `decodeJWT` fails, and then with exactly its error `e`; a forwarded request keeps the headers, changes only the username context key, and that username is what `decodeJWT` accepted for the extracted token |
| Middleware.DecodeAcceptsIff | backend/app/handlers/middleware.go:80-95 | A token is accepted iff every check passes, and then the result is the username claim |
| Middleware.NonHmacRejected | backend/app/handlers/middleware.go:72-82 | A non-HMAC algorithm (`none` included) gives "failed to parse or validate the token" whatever the claims |
| Middleware.ExpiredExactlyAfterLifetime | backend/app/handlers/middleware.go:86-90 | A parsed, valid token with `iat` is reported expired iff `now > iat + 7*24*3600`, before `username` is looked at |
| Middleware.LastSecondAccepted | backend/app/handlers/middleware.go:87-88 | At `now == iat + 7 days` the token is accepted; one second later it is expired |
| Middleware.MissingClaimsReported | backend/app/handlers/middleware.go:86-98 | A missing `iat`, or a missing `username` on an unexpired token, reports "error retreiving the claims of the token" |
| Middleware.InvalidAfterParse | backend/app/handlers/middleware.go:85-101 | A token that parses but is not valid reports "the authorization token is invalid" |
| Middleware.MissingHeaderIs401 | backend/app/handlers/middleware.go:50-54 | Without an `Authorization` header: status 401, nothing else written, `next` not called |
| Middleware.HeaderWithoutSpacePanics | backend/app/handlers/middleware.go:57 | A header whose first value has no space (or has no value) panics before writing anything or calling `next` |
| Middleware.NonHmacIs401 | backend/app/handlers/middleware.go:58-62 | A non-HMAC token is answered 401 with the parse-error message, and `next` is not called |
| Middleware.RejectedIs401 | backend/app/handlers/middleware.go:58-62 | Whatever error `decodeJWT` returns (parse failure, expired, missing claims, invalid), the answer is 401 with that error's message and `next` is not called |
| Middleware.RejectedNeverCallsNext | backend/app/handlers/middleware.go:48-68 | `next` is called only when the token was accepted |
| Middleware.AcceptedCallsNextOnce | backend/app/handlers/middleware.go:64-66 | On an accepted token `next` runs exactly once, with the same headers and the context extended by `username`; the response is the endpoint's |
| Middleware.RecoverPassesThrough | backend/app/handlers/middleware.go:32-44 | If `next` returns normally, the response and calls are exactly those of `next` |
| Middleware.RecoverCatchesPanic | backend/app/handlers/middleware.go:34-40 | If `next` panics: `connection: close` is set, the status is 500 unless one was already written, the body is kept, and the panic does not propagate |
| Middleware.RecoverKeepsWrittenStatus | backend/app/handlers/middleware.go:34-40 | An endpoint that writes status and body and then panics keeps its status and body behind `RecoverPanic`; the recovery's `WriteHeader(500)` has no effect and only `connection: close` is added to the writer's header map (net/http does not send it once a status has gone out) |
| Middleware.RecoveredNeverPanics | backend/app/handlers/middleware.go:32-44 | No panic ever leaves `RecoverPanic` |
| Middleware.HeaderWithoutSpaceIs500 | backend/app/handlers/middleware.go:32-68 | Behind `RecoverPanic` and `LogRequest`, a header value without a space gives 500 with `connection: close` and an empty body, not 401; the endpoint never runs |
| Middleware.ForwardedIsAdmitted | backend/app/handlers/middleware.go:64-66 | The request `Authorize` forwards carries the username, and `Authorize` would forward it unchanged |
| Middleware.GuardedCallsAreAdmitted | backend/app/handlers/middleware.go:48-68 | In a chain where every endpoint sits behind `Authorize`, each request reaching an endpoint carries a username taken from an accepted token of that same request |
| Middleware.Perform | backend/app/handlers/middleware.go:66 | The abstract endpoint that `Authorize` (and an unprotected route) calls; what it does when called: it is called exactly once with the request; it panics iff its action panics; headers are untouched; a status already written stands, otherwise the endpoint's own status (if it wrote one) is sent |
| Middleware.Serve | backend/app/handlers/middleware.go:24-68 | The reference definition that `ServeHTTP`, `Authorize`, `LogRequest` and `RecoverPanic` are proved equal to. Its own contract: a request reaches at most one endpoint, a status already written is never replaced, and the body is only appended to |
| Middleware.RespondWithError | backend/app/handlers/middleware.go:60 | Writes the error status (if none was written yet) and the error message |
| Middleware.ServeHTTP | backend/app/handlers/middleware.go:42 | Serving through any handler chain leaves exactly the response, outcome and endpoint calls that `Serve` specifies |
| Middleware.Authorize | backend/app/handlers/middleware.go:48-68 | `Authorize(next)` updates the writer in place exactly as `Serve(Authorized(next))` specifies |
| Middleware.LogRequest | backend/app/handlers/middleware.go:24-29 | `LogRequest(next)` passes the request on unchanged |
| Middleware.RecoverPanic | backend/app/handlers/middleware.go:32-44 | `RecoverPanic(next)` updates the writer exactly as `Serve(Recovered(next))` specifies, and always returns normally |
| App.TicksBeforeDeadline | backend/app/app.go:47-50 | The number of ticks the loop can serve: every tick up to it beats (or ties and wins against) the 30 s timer, and the next one does not |
| App.TickServed | backend/app/app.go:54-71 | The `select` between `dbTicker.C` and `dbTimeout.C`: the k-th tick is taken iff k < 10, or k = 10 and the tick wins its tie with the timer |
| App.AtMostTenAttempts | backend/app/app.go:23-24 | With a 3 s interval and a 30 s timeout there are 10 attempts if the tenth tick wins its tie with the timer, 9 otherwise |
| App.ConnectDatabase | backend/app/app.go:47-75 | Attempt i happens at 3*i s and no earlier; every attempt but the last failed; the loop ends with the handle of the first success, or with a timeout after the maximum number of failed attempts |
| App.HomeFollowPolicy | backend/app/app.go:134-135 | The Home and ping routes follow the protection rule |
| App.AuthenticationFollowPolicy | backend/app/app.go:138-139 | The login and register routes follow the protection rule |
| App.ArticleFollowPolicy | backend/app/app.go:142-146 | The Article routes follow the protection rule |
| App.CommentFollowPolicy | backend/app/app.go:149-153 | The Comment routes follow the protection rule |
| App.AccountFollowPolicy | backend/app/app.go:156-163 | The Account routes follow the protection rule |
| App.SubredditFollowPolicy | backend/app/app.go:166-169 | The Subreddit routes follow the protection rule |
| App.KarmaFollowPolicy | backend/app/app.go:172-175 | The Karma routes follow the protection rule |
| App.SearchFollowPolicy | backend/app/app.go:178 | The Search route follows the protection rule |
| App.OptionsFollowPolicy | backend/app/app.go:181 | The OPTIONS route follows the protection rule |
| App.ProtectionPolicy | backend/app/app.go:131-181 | Every registered route follows the protection rule |
| App.StateChangingRoutesProtected | backend/app/app.go:131-175 | Every POST/PUT/DELETE route except `POST /login` and `POST /register` is wrapped in `auth` |
| App.MeRoutesProtected | backend/app/app.go:157-173 | Every `/me/...` route is wrapped in `auth` |
| App.OtherGetRoutesPublic | backend/app/app.go:134-178 | Every other GET route is public |
| App.OptionsCatchAll | backend/app/app.go:181 | The only OPTIONS route is the `/` prefix with the empty handler, and it is registered |
| App.RouteTable | backend/app/app.go:134-181 | The 32 registrations of `setRouters` in source order, the catch-all OPTIONS route last |
| App.Wrap | backend/app/app.go:128 | Each global middleware hands the wrapped handler's endpoint exactly the requests it would get unwrapped; `RecoverPanic` wraps with the panic boundary |
| App.Chain | backend/app/app.go:128 | The middlewares passed to `Use`, the first listed outermost: a chain starting with `RecoverPanic` is the panic boundary, and the chain never changes which requests reach the endpoint |
| App.RouteHandler | backend/app/app.go:131-181 | A route wrapped in `auth` is served as `Authorized(endpoint)` (so it is guarded); a public route is exactly its endpoint; the OPTIONS route is the empty function: it writes nothing and returns |
| App.PipelineNeverPanics | backend/app/app.go:128 | Because `RecoverPanic` is registered first, no panic leaves the middleware chain, whatever the handler |
| App.ProtectedRouteWithoutHeaderIs401 | backend/app/app.go:128-131 | Through the global middlewares, a protected route without `Authorization` answers exactly 401 with an empty body and never runs its endpoint |
| App.ProtectedEndpointsSeeOnlyAdmitted | backend/app/app.go:128-131 | Through the global middlewares, the endpoint of a protected route sees only requests authenticated by their own token |
| App.PublicRouteCallsEndpoint | backend/app/app.go:128-135 | Through the global middlewares, a public route hands its endpoint the request exactly as received |
| App.Router.constructor | backend/app/app.go:108 | `mux.NewRouter()` has no middlewares and no routes |
| App.Router.Use | backend/app/app.go:128 | Appends the middlewares in the order given and leaves the routes alone |
| App.Router.Handle | backend/app/app.go:186 | Appends one route and leaves the middlewares alone |
| App.App.Get | backend/app/app.go:185-187 | Registers one GET route |
| App.App.Post | backend/app/app.go:190-192 | Registers one POST route |
| App.App.Put | backend/app/app.go:195-197 | Registers one PUT route |
| App.App.Delete | backend/app/app.go:200-202 | Registers one DELETE route |
| App.App.RegisterHomeRoutes | backend/app/app.go:134-135 | Appends the Home and ping routes |
| App.App.RegisterAuthenticationRoutes | backend/app/app.go:138-139 | Appends the login and register routes |
| App.App.RegisterArticleRoutes | backend/app/app.go:142-146 | Appends the Article routes |
| App.App.RegisterCommentRoutes | backend/app/app.go:149-153 | Appends the Comment routes |
| App.App.RegisterAccountRoutes | backend/app/app.go:156-163 | Appends the Account routes |
| App.App.RegisterSubredditRoutes | backend/app/app.go:166-169 | Appends the Subreddit routes |
| App.App.RegisterKarmaRoutes | backend/app/app.go:172-175 | Appends the Karma routes |
| App.App.RegisterSearchRoutes | backend/app/app.go:178 | Appends the Search route |
| App.App.RegisterOptionsRoutes | backend/app/app.go:181 | Appends the catch-all OPTIONS route |
| App.App.RegisterContentRoutes | backend/app/app.go:133-153 | Appends the Home, Authentication, Article and Comment routes, in order |
| App.App.RegisterUserRoutes | backend/app/app.go:155-181 | Appends the Account, Subreddit, Karma, Search and OPTIONS routes, in order |
| App.App.SetRouters | backend/app/app.go:126-182 | Registers `RecoverPanic, LogRequest, AddCORSHeader` in that order, then exactly the routes of `RouteTable`, in order |
| App.App.InitializeAndRun | backend/app/app.go:35-109 | Exit 1 on database timeout, with no Redis ping. Redis is pinged once, and only after a database success; a failed ping exits 1. Otherwise the handler keeps the secret key, every model shares the connected handle (only subreddits holds Redis), and a fresh router holds the middlewares and the route table. Before any exit, the application fields are left unchanged |

The protection rule (`App.FollowsPolicy`) has three parts:

- The OPTIONS route is the `/` catch-all with the empty handler.
- Every other route is wrapped in `auth` exactly when it is POST, PUT or DELETE and is neither `POST /login` nor `POST /register`, or when its path starts with `/me/`.
- All remaining routes are public.

`SetRouters` is split into one registration method per source section, plus two halves. The split keeps each proof small; the registrations and their order are those of `setRouters`.

## Left out

- The JWT library (`jwt.Parse`): base64 and JSON decoding, HMAC signature checks, and the library's own `exp`/`iat`/`nbf` checks behind `token.Valid`. These are foreign code; the model takes their verdicts as the fields of `ParsedToken`, produced by the parser value in `Env`.
- Middleware.DecodeJWT: `iat` is an integer number of seconds. The JSON float64 and its `int64` truncation are floating point and are not modelled; nor is a numeric `iat` that is not a float64.
- Middleware.DecodeJWT: the clock is whole seconds. The sub-second precision of `time.Now()` and `time.Duration` (and its saturation on huge values) is not modelled.
- Middleware.RespondWithError: `respondWithError` is not part of this model. It is taken to write the status and then the error's message; its exact body format is not captured.
- Middleware.Perform: an endpoint is reduced to one of four actions: reply once, do nothing, panic before writing, or reply and then panic. Endpoints that set headers or write several times are not modelled; the endpoint handlers themselves are not part of this model.
- The `ResponseWriter` follows `net/http` in two respects: the first status written wins, and writing a body implies 200. Header canonicalisation, and headers set after the status has been sent, are not modelled.
- `AddCORSHeader` is not part of this model. It is treated as a pass-through in `App.Wrap`.
- Logging: the `LogRequest` line, the stack trace printed by `RecoverPanic`, and every `log.Print*` call are output only.
- gorilla/mux path matching and dispatch are left out. The model records registrations in order and assumes the first middleware given to `Use` is the outermost. Handlers are recorded by name (`Public`, `Auth`, `Empty`), not as function values.
- Concurrency between requests (one goroutine per request) is left out.
- App.ConnectDatabase: time is discrete and attempts take no time. A slow attempt that makes the ticker drop ticks is not modelled, so attempt i always happens at 3*i s. The connection string, the config and the `sql.Open` driver are replaced by the `attempt` parameter. Handles of failed attempts are not closed in the source; the model does not track them.
- App.App.InitializeAndRun: the handler it builds stores `jwtSecretKey`, but nothing ties that key to the `Env.secretKey` under which routes are served (`auth := a.handler.Authorize` uses `h.JWTSecretKey`); the serving lemmas take the key as part of `Env`, so the model does not state that protected routes check tokens against the key given at startup.
- App.App.InitializeAndRun: `os.Exit(1)` and `log.Fatal` become an exit code in the result. The Redis client options are not modelled. `redisTicker` and `redisTimer` are created but never read, so they are left out. The deferred `Close` calls are left out. The model stops before the HTTP server is built and `ListenAndServe` runs: that is network I/O.
- `frontend/src/routes.js` is static client-side configuration with no logic; it is not part of this model.
