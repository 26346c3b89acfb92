/** The `app` package: the startup sequence of `InitializeAndRun` (the
    PostgreSQL retry loop, the single Redis ping, building the handler) and
    the router set up by `setRouters`.

    Time is discrete, in whole seconds from the moment the ticker and the
    timer are created. Whether a database attempt succeeds, whether the Redis
    ping succeeds, and which of two channels `select` takes when both are
    ready, are parameters. */
module App {
  import opened Wrappers
  import Middleware

  // ---------------------------------------------------------------------------
  // The PostgreSQL retry loop
  // ---------------------------------------------------------------------------

  /** `reconnectionInterval`, in seconds: the period of the ticker. */
  const ReconnectionInterval: nat := 3
  /** `reconnectionTimeout`, in seconds: when the one-shot timer fires. */
  const ReconnectionTimeout: nat := 30

  /** How one attempt (`sql.Open`, then `db.Ping`) ends. */
  datatype AttemptResult = OpenFailed | PingFailed | Connected

  /** An attempt made at a tick: when, and how it ended. */
  datatype Try = Try(time: nat, result: AttemptResult)

  /** The `*sql.DB` opened by the given attempt. */
  datatype DbHandle = DbHandle(attempt: nat)

  /** How the loop ends: `break Loop` with the open handle, or the timer fired
      and the process called `os.Exit(1)`. */
  datatype DbOutcome = DbReady(db: DbHandle) | DbTimedOut

  /** The `k`-th tick, at `k * reconnectionInterval`, is taken by the `select`:
      it comes before the timer, or comes with it and wins the tie. */
  predicate TickServed(k: nat, tickWinsTie: bool)
    ensures TickServed(k, tickWinsTie) <==> k < 10 || (k == 10 && tickWinsTie)
  {
    ReconnectionInterval * k < ReconnectionTimeout ||
    (ReconnectionInterval * k == ReconnectionTimeout && tickWinsTie)
  }

  /** The number of ticks the loop can take before the timer wins. */
  function TicksBeforeDeadline(tickWinsTie: bool): (n: nat)
    ensures forall k :: 1 <= k <= n ==> TickServed(k, tickWinsTie)
    ensures !TickServed(n + 1, tickWinsTie)
  {
    if tickWinsTie then ReconnectionTimeout / ReconnectionInterval
    else (ReconnectionTimeout - 1) / ReconnectionInterval
  }

  /** With a 3 s ticker and a 30 s timer at most ten attempts are made, and
      the tenth only when its tick wins the race with the timer. */
  lemma AtMostTenAttempts(tickWinsTie: bool)
    ensures TicksBeforeDeadline(tickWinsTie) == if tickWinsTie then 10 else 9
  {
  }

  /** The `for`/`select` loop of `InitializeAndRun`. `attempt(k)` is how the
      attempt at the `k`-th tick ends; `tickWinsTie` resolves the `select`
      when the last tick and the timer are ready together. */
  method ConnectDatabase(attempt: nat -> AttemptResult, tickWinsTie: bool)
    returns (outcome: DbOutcome, tries: seq<Try>)
    ensures |tries| <= TicksBeforeDeadline(tickWinsTie)
    ensures forall i :: 0 <= i < |tries| ==>
      tries[i] == Try(ReconnectionInterval * (i + 1), attempt(i + 1))
    ensures forall i :: 0 <= i < |tries| - 1 ==> tries[i].result != Connected
    ensures outcome.DbReady? <==> |tries| > 0 && tries[|tries| - 1].result == Connected
    ensures outcome.DbReady? ==> outcome.db == DbHandle(|tries|)
    ensures outcome.DbTimedOut? ==> |tries| == TicksBeforeDeadline(tickWinsTie)
  {
    tries := [];
    while true
      invariant |tries| <= TicksBeforeDeadline(tickWinsTie)
      invariant forall i :: 0 <= i < |tries| ==>
        tries[i] == Try(ReconnectionInterval * (i + 1), attempt(i + 1))
      invariant forall i :: 0 <= i < |tries| ==> tries[i].result != Connected
      decreases TicksBeforeDeadline(tickWinsTie) - |tries|
    {
      var k := |tries| + 1;
      if TickServed(k, tickWinsTie) {
        // case <-dbTicker.C: open and ping; a failure is only logged
        var result := attempt(k);
        tries := tries + [Try(ReconnectionInterval * k, result)];
        if result == Connected {
          return DbReady(DbHandle(k)), tries;
        }
      } else {
        // case <-dbTimeout.C
        return DbTimedOut, tries;
      }
    }
  }

  // ---------------------------------------------------------------------------
  // The route table
  // ---------------------------------------------------------------------------

  datatype Method = GET | POST | PUT | DELETE | OPTIONS

  /** What a route is bound to: a handler method of `handlers.Handler`, the
      same wrapped in `auth`, or the empty function of the OPTIONS route. */
  datatype Target = Public(name: string) | Auth(name: string) | Empty

  /** One registration: `HandleFunc(path, f).Methods(m)`, or with `prefix` the
      `PathPrefix(path)` registration. */
  datatype Route = Route(verb: Method, path: string, target: Target, prefix: bool)

  /** The middlewares `setRouters` passes to `Use`. */
  datatype GlobalMiddleware = RecoverPanic | LogRequest | AddCORSHeader

  const GlobalMiddlewares: seq<GlobalMiddleware> := [RecoverPanic, LogRequest, AddCORSHeader]

  // The registrations of `setRouters`, section by section as the source groups them.

  /** Home and ping. */
  function HomeRoutes(): seq<Route> {
    [ Route(GET, "/", Public("Home"), false),
      Route(GET, "/ping", Public("Ping"), false) ]
  }

  /** Authentication. */
  function AuthenticationRoutes(): seq<Route> {
    [ Route(POST, "/login", Public("Login"), false),
      Route(POST, "/register", Public("Register"), false) ]
  }

  /** Article. */
  function ArticleRoutes(): seq<Route> {
    [ Route(GET, "/article", Public("ListArticle"), false),
      Route(GET, "/article/{id}", Public("Article"), false),
      Route(POST, "/article", Auth("NewArticle"), false),
      Route(PUT, "/article/{id}", Auth("ModifyArticle"), false),
      Route(DELETE, "/article/{id}", Auth("DeleteArticle"), false) ]
  }

  /** Comment. */
  function CommentRoutes(): seq<Route> {
    [ Route(GET, "/comment", Public("ListComment"), false),
      Route(GET, "/comment/{id}", Public("Comment"), false),
      Route(POST, "/comment", Auth("NewComment"), false),
      Route(PUT, "/comment/{id}", Auth("ModifyComment"), false),
      Route(DELETE, "/comment/{id}", Auth("DeleteComment"), false) ]
  }

  /** Account. */
  function AccountRoutes(): seq<Route> {
    [ Route(GET, "/user/{username}", Public("User"), false),
      Route(PUT, "/me/bio", Auth("ModifyBio"), false),
      Route(GET, "/me/save/{articleID}", Auth("SaveState"), false),
      Route(POST, "/me/save/{articleID}", Auth("SaveArticle"), false),
      Route(DELETE, "/me/save/{articleID}", Auth("UnsaveArticle"), false),
      Route(GET, "/me/join/{subreddit}", Auth("JoinState"), false),
      Route(POST, "/me/join/{subreddit}", Auth("JoinSubreddit"), false),
      Route(DELETE, "/me/join/{subreddit}", Auth("LeaveSubreddit"), false) ]
  }

  /** Subreddit. */
  function SubredditRoutes(): seq<Route> {
    [ Route(GET, "/subreddit", Public("ListSubreddit"), false),
      Route(GET, "/subreddit/{name}", Public("Subreddit"), false),
      Route(POST, "/subreddit", Auth("NewSubreddit"), false),
      Route(GET, "/trending", Public("TrendingSubreddit"), false) ]
  }

  /** Karma. */
  function KarmaRoutes(): seq<Route> {
    [ Route(GET, "/me/karma/article/{id}", Auth("GetArticleVote"), false),
      Route(GET, "/me/karma/comment/{id}", Auth("GetCommentVote"), false),
      Route(POST, "/karma/article/{id}", Auth("VoteArticle"), false),
      Route(POST, "/karma/comment/{id}", Auth("VoteComment"), false) ]
  }

  /** Search. */
  function SearchRoutes(): seq<Route> {
    [ Route(GET, "/search", Public("Search"), false) ]
  }

  /** Options. */
  function OptionsRoutes(): seq<Route> {
    [ Route(OPTIONS, "/", Empty, true) ]
  }

  /** The routes `setRouters` registers, in order. */
  function RouteTable(): (t: seq<Route>)
    ensures |t| == 32
    ensures t[|t| - 1] == Route(OPTIONS, "/", Empty, true)
  {
    HomeRoutes() + AuthenticationRoutes() + ArticleRoutes() + CommentRoutes() +
    AccountRoutes() + SubredditRoutes() + KarmaRoutes() + SearchRoutes() + OptionsRoutes()
  }

  /** `path` starts with `/me/`. */
  predicate UnderMe(path: string) {
    |path| >= 4 && path[0] == '/' && path[1] == 'm' && path[2] == 'e' && path[3] == '/'
  }

  predicate ChangesState(m: Method) {
    m == POST || m == PUT || m == DELETE
  }

  /** The two routes that hand out tokens. */
  predicate IsLoginOrRegister(r: Route) {
    r.verb == POST && (r.path == "/login" || r.path == "/register")
  }

  /** The protection rule of the table: the OPTIONS route is the catch-all
      with the empty handler; any other route is wrapped in `auth` exactly
      when it changes state and is not login or register, or lies under
      `/me/`, and is public otherwise. */
  predicate FollowsPolicy(r: Route) {
    if r.verb == OPTIONS then r == Route(OPTIONS, "/", Empty, true)
    else
      !r.target.Empty? &&
      (r.target.Auth? <==> (ChangesState(r.verb) && !IsLoginOrRegister(r)) || UnderMe(r.path))
  }

  lemma HomeFollowPolicy()
    ensures forall r :: r in HomeRoutes() ==> FollowsPolicy(r)
  {
  }

  lemma AuthenticationFollowPolicy()
    ensures forall r :: r in AuthenticationRoutes() ==> FollowsPolicy(r)
  {
  }

  lemma ArticleFollowPolicy()
    ensures forall r :: r in ArticleRoutes() ==> FollowsPolicy(r)
  {
  }

  lemma CommentFollowPolicy()
    ensures forall r :: r in CommentRoutes() ==> FollowsPolicy(r)
  {
  }

  /** Proof glue: the first four Account routes follow the rule. */
  lemma AccountFrontFollowPolicy()
    ensures forall i :: 0 <= i < 4 ==> FollowsPolicy(AccountRoutes()[i])
  {
  }

  /** Proof glue: the last four Account routes follow the rule. */
  lemma AccountBackFollowPolicy()
    ensures forall i :: 4 <= i < 8 ==> FollowsPolicy(AccountRoutes()[i])
  {
  }

  lemma AccountFollowPolicy()
    ensures forall r :: r in AccountRoutes() ==> FollowsPolicy(r)
  {
    AccountFrontFollowPolicy();
    AccountBackFollowPolicy();
  }

  lemma SubredditFollowPolicy()
    ensures forall r :: r in SubredditRoutes() ==> FollowsPolicy(r)
  {
  }

  lemma KarmaFollowPolicy()
    ensures forall r :: r in KarmaRoutes() ==> FollowsPolicy(r)
  {
  }

  lemma SearchFollowPolicy()
    ensures forall r :: r in SearchRoutes() ==> FollowsPolicy(r)
  {
  }

  lemma OptionsFollowPolicy()
    ensures forall r :: r in OptionsRoutes() ==> FollowsPolicy(r)
  {
  }

  /** Every registered route follows the protection rule. */
  lemma ProtectionPolicy()
    ensures forall r :: r in RouteTable() ==> FollowsPolicy(r)
  {
    HomeFollowPolicy();
    AuthenticationFollowPolicy();
    ArticleFollowPolicy();
    CommentFollowPolicy();
    AccountFollowPolicy();
    SubredditFollowPolicy();
    KarmaFollowPolicy();
    SearchFollowPolicy();
    OptionsFollowPolicy();
  }

  /** Every POST, PUT and DELETE route except login and register is wrapped
      in `auth`. */
  lemma StateChangingRoutesProtected()
    ensures forall r :: r in RouteTable() && ChangesState(r.verb) && !IsLoginOrRegister(r) ==>
      r.target.Auth?
  {
    ProtectionPolicy();
  }

  /** Every `/me/...` route is wrapped in `auth`. */
  lemma MeRoutesProtected()
    ensures forall r :: r in RouteTable() && UnderMe(r.path) ==> r.target.Auth?
  {
    ProtectionPolicy();
  }

  /** Every other GET route is public. */
  lemma OtherGetRoutesPublic()
    ensures forall r :: r in RouteTable() && r.verb == GET && !UnderMe(r.path) ==> r.target.Public?
  {
    ProtectionPolicy();
  }

  /** OPTIONS has exactly one route: every path, the empty handler. */
  lemma OptionsCatchAll()
    ensures forall r :: r in RouteTable() && r.verb == OPTIONS ==> r == Route(OPTIONS, "/", Empty, true)
    ensures Route(OPTIONS, "/", Empty, true) in RouteTable()
  {
    ProtectionPolicy();
    assert RouteTable()[|RouteTable()| - 1] == Route(OPTIONS, "/", Empty, true);
  }

  // ---------------------------------------------------------------------------
  // Serving a route through the middlewares
  // ---------------------------------------------------------------------------

  /** One middleware around a handler. `AddCORSHeader` is not modelled and
      passes the request on. */
  function Wrap(m: GlobalMiddleware, h: Middleware.HttpHandler): (w: Middleware.HttpHandler)
    ensures forall s, r, env :: Middleware.Serve(w, s, r, env).calls == Middleware.Serve(h, s, r, env).calls
    ensures m == RecoverPanic ==> w.Recovered?
  {
    match m
    case RecoverPanic => Middleware.Recovered(h)
    case LogRequest => Middleware.Logged(h)
    case AddCORSHeader => h
  }

  /** The middlewares around a handler, the first registered outermost. */
  function Chain(ms: seq<GlobalMiddleware>, h: Middleware.HttpHandler): (c: Middleware.HttpHandler)
    ensures forall s, r, env :: Middleware.Serve(c, s, r, env).calls == Middleware.Serve(h, s, r, env).calls
    ensures |ms| > 0 && ms[0] == RecoverPanic ==> c.Recovered?
    decreases |ms|
  {
    if |ms| == 0 then h else Wrap(ms[0], Chain(ms[1..], h))
  }

  /** The handler a route is registered with, given its endpoint. */
  function RouteHandler(r: Route, endpoint: Middleware.Request -> Middleware.Action): (h: Middleware.HttpHandler)
    ensures r.target.Auth? ==> h == Middleware.Authorized(Middleware.Func(endpoint)) && Middleware.Guarded(h)
    ensures r.target.Public? ==>
      forall s, req, env :: Middleware.Serve(h, s, req, env) == Middleware.Perform(endpoint(req), s, req)
    ensures r.target.Empty? ==>
      forall s, req, env :: Middleware.Serve(h, s, req, env) == Middleware.Served(s, Middleware.Returned, [req])
  {
    match r.target
    case Public(_) => Middleware.Func(endpoint)
    case Auth(_) => Middleware.Authorized(Middleware.Func(endpoint))
    case Empty => Middleware.Func(_ => Middleware.Silent)
  }

  /** With `RecoverPanic` registered first, no request's panic leaves the
      pipeline, whatever the route. */
  lemma PipelineNeverPanics(h: Middleware.HttpHandler, s: Middleware.Resp,
                            r: Middleware.Request, env: Middleware.Env)
    ensures Middleware.Serve(Chain(GlobalMiddlewares, h), s, r, env).outcome == Middleware.Returned
  {
    assert Chain(GlobalMiddlewares, h) == Middleware.Recovered(Chain(GlobalMiddlewares[1..], h));
  }

  /** A request without `Authorization` to a protected route is answered 401
      and its endpoint never runs. */
  lemma ProtectedRouteWithoutHeaderIs401(route: Route, endpoint: Middleware.Request -> Middleware.Action,
                                         r: Middleware.Request, env: Middleware.Env)
    requires route.target.Auth?
    requires Middleware.AuthorizationHeader !in r.header
    ensures Middleware.Serve(Chain(GlobalMiddlewares, RouteHandler(route, endpoint)), Middleware.EmptyResp, r, env)
      == Middleware.Served(Middleware.Resp(Some(Middleware.StatusUnauthorized), map[], ""), Middleware.Returned, [])
  {
    var inner := RouteHandler(route, endpoint);
    assert Chain(GlobalMiddlewares, inner) == Middleware.Recovered(Middleware.Logged(inner));
    Middleware.MissingHeaderIs401(Middleware.Func(endpoint), Middleware.EmptyResp, r, env);
  }

  /** The endpoint of a protected route only ever sees requests whose
      username came from an accepted token of that same request. */
  lemma ProtectedEndpointsSeeOnlyAdmitted(route: Route, endpoint: Middleware.Request -> Middleware.Action,
                                          s: Middleware.Resp, r: Middleware.Request, env: Middleware.Env)
    requires route.target.Auth?
    ensures forall c :: c in Middleware.Serve(Chain(GlobalMiddlewares, RouteHandler(route, endpoint)), s, r, env).calls ==>
      Middleware.Admitted(c, env) && Middleware.UsernameCtxKey in c.context
  {
    var h := Chain(GlobalMiddlewares, RouteHandler(route, endpoint));
    assert h == Middleware.Recovered(Middleware.Logged(Middleware.Authorized(Middleware.Func(endpoint))));
    assert Middleware.Guarded(Middleware.Logged(Middleware.Authorized(Middleware.Func(endpoint))));
    Middleware.GuardedCallsAreAdmitted(h, s, r, env);
  }

  /** A public route hands its endpoint the request exactly as received. */
  lemma PublicRouteCallsEndpoint(route: Route, endpoint: Middleware.Request -> Middleware.Action,
                                 s: Middleware.Resp, r: Middleware.Request, env: Middleware.Env)
    requires route.target.Public?
    ensures Middleware.Serve(Chain(GlobalMiddlewares, RouteHandler(route, endpoint)), s, r, env).calls == [r]
  {
    assert Chain(GlobalMiddlewares, RouteHandler(route, endpoint)) ==
      Middleware.Recovered(Middleware.Logged(Middleware.Func(endpoint)));
    assert Middleware.Serve(Middleware.Logged(Middleware.Func(endpoint)), s, r, env).calls == [r];
  }

  /** Proof glue: the table as the two halves `SetRouters` registers. */
  lemma RouteTableHalves()
    ensures RouteTable() ==
      (HomeRoutes() + AuthenticationRoutes() + ArticleRoutes() + CommentRoutes()) +
      (AccountRoutes() + SubredditRoutes() + KarmaRoutes() + SearchRoutes() + OptionsRoutes())
  {
  }

  /** Proof glue: sequence concatenation is associative. */
  lemma AppendAssoc(a: seq<Route>, b: seq<Route>, c: seq<Route>)
    ensures (a + b) + c == a + (b + c)
  {
  }

  // ---------------------------------------------------------------------------
  // The router and the application object
  // ---------------------------------------------------------------------------

  /** The `mux.Router`, as far as registration goes: the middlewares passed to
      `Use` and the routes, in the order they were registered. */
  class Router {
    var middlewares: seq<GlobalMiddleware>
    var routes: seq<Route>

    /** `mux.NewRouter()`. */
    constructor ()
      ensures middlewares == [] && routes == []
    {
      middlewares, routes := [], [];
    }

    method Use(ms: seq<GlobalMiddleware>)
      modifies this
      ensures middlewares == old(middlewares) + ms && routes == old(routes)
    {
      middlewares := middlewares + ms;
    }

    /** `HandleFunc(path, f).Methods(m)`, or `PathPrefix(path)...` when `prefix`. */
    method Handle(m: Method, path: string, target: Target, prefix: bool)
      modifies this
      ensures routes == old(routes) + [Route(m, path, target, prefix)]
      ensures middlewares == old(middlewares)
    {
      routes := routes + [Route(m, path, target, prefix)];
    }
  }

  /** A redis client handle. */
  datatype RedisHandle = RedisClient

  /** A model object of `handlers.Handler` and the stores it was given. */
  datatype Model = Model(db: DbHandle, rdb: Option<RedisHandle>)

  /** `handlers.Handler`. */
  datatype Handler = Handler(accounts: Model, comments: Model, subreddits: Model,
                             articles: Model, searches: Model, jwtSecretKey: string)

  /** Every model holds the same database handle; only subreddits holds Redis. */
  predicate SharesStores(h: Handler, db: DbHandle) {
    h.accounts == Model(db, None) && h.comments == Model(db, None) &&
    h.subreddits == Model(db, Some(RedisClient)) &&
    h.articles == Model(db, None) && h.searches == Model(db, None)
  }

  /** How startup ended: the database attempts, whether Redis was pinged, and
      the exit status when the process exited. */
  datatype Startup = Startup(tries: seq<Try>, redisPinged: bool, exitCode: Option<int>)

  class App {
    var router: Router?
    var handler: Option<Handler>

    constructor ()
      ensures router == null && handler == None
    {
      router, handler := null, None;
    }

    method Get(path: string, target: Target)
      requires router != null
      modifies router
      ensures router.routes == old(router.routes) + [Route(GET, path, target, false)]
      ensures router.middlewares == old(router.middlewares)
    {
      router.Handle(GET, path, target, false);
    }

    method Post(path: string, target: Target)
      requires router != null
      modifies router
      ensures router.routes == old(router.routes) + [Route(POST, path, target, false)]
      ensures router.middlewares == old(router.middlewares)
    {
      router.Handle(POST, path, target, false);
    }

    method Put(path: string, target: Target)
      requires router != null
      modifies router
      ensures router.routes == old(router.routes) + [Route(PUT, path, target, false)]
      ensures router.middlewares == old(router.middlewares)
    {
      router.Handle(PUT, path, target, false);
    }

    method Delete(path: string, target: Target)
      requires router != null
      modifies router
      ensures router.routes == old(router.routes) + [Route(DELETE, path, target, false)]
      ensures router.middlewares == old(router.middlewares)
    {
      router.Handle(DELETE, path, target, false);
    }

    /** The Home and ping registrations of `setRouters`. */
    method RegisterHomeRoutes()
      requires router != null
      modifies router
      ensures router.routes == old(router.routes) + HomeRoutes()
      ensures router.middlewares == old(router.middlewares)
    {
      Get("/", Public("Home"));
      Get("/ping", Public("Ping"));
    }

    /** The Authentication registrations of `setRouters`. */
    method RegisterAuthenticationRoutes()
      requires router != null
      modifies router
      ensures router.routes == old(router.routes) + AuthenticationRoutes()
      ensures router.middlewares == old(router.middlewares)
    {
      Post("/login", Public("Login"));
      Post("/register", Public("Register"));
    }

    /** The Article registrations of `setRouters`. */
    method RegisterArticleRoutes()
      requires router != null
      modifies router
      ensures router.routes == old(router.routes) + ArticleRoutes()
      ensures router.middlewares == old(router.middlewares)
    {
      Get("/article", Public("ListArticle"));
      Get("/article/{id}", Public("Article"));
      Post("/article", Auth("NewArticle"));
      Put("/article/{id}", Auth("ModifyArticle"));
      Delete("/article/{id}", Auth("DeleteArticle"));
    }

    /** The Comment registrations of `setRouters`. */
    method RegisterCommentRoutes()
      requires router != null
      modifies router
      ensures router.routes == old(router.routes) + CommentRoutes()
      ensures router.middlewares == old(router.middlewares)
    {
      Get("/comment", Public("ListComment"));
      Get("/comment/{id}", Public("Comment"));
      Post("/comment", Auth("NewComment"));
      Put("/comment/{id}", Auth("ModifyComment"));
      Delete("/comment/{id}", Auth("DeleteComment"));
    }

    /** The Account registrations of `setRouters`. */
    method RegisterAccountRoutes()
      requires router != null
      modifies router
      ensures router.routes == old(router.routes) + AccountRoutes()
      ensures router.middlewares == old(router.middlewares)
    {
      Get("/user/{username}", Public("User"));
      Put("/me/bio", Auth("ModifyBio"));
      Get("/me/save/{articleID}", Auth("SaveState"));
      Post("/me/save/{articleID}", Auth("SaveArticle"));
      Delete("/me/save/{articleID}", Auth("UnsaveArticle"));
      Get("/me/join/{subreddit}", Auth("JoinState"));
      Post("/me/join/{subreddit}", Auth("JoinSubreddit"));
      Delete("/me/join/{subreddit}", Auth("LeaveSubreddit"));
    }

    /** The Subreddit registrations of `setRouters`. */
    method RegisterSubredditRoutes()
      requires router != null
      modifies router
      ensures router.routes == old(router.routes) + SubredditRoutes()
      ensures router.middlewares == old(router.middlewares)
    {
      Get("/subreddit", Public("ListSubreddit"));
      Get("/subreddit/{name}", Public("Subreddit"));
      Post("/subreddit", Auth("NewSubreddit"));
      Get("/trending", Public("TrendingSubreddit"));
    }

    /** The Karma registrations of `setRouters`. */
    method RegisterKarmaRoutes()
      requires router != null
      modifies router
      ensures router.routes == old(router.routes) + KarmaRoutes()
      ensures router.middlewares == old(router.middlewares)
    {
      Get("/me/karma/article/{id}", Auth("GetArticleVote"));
      Get("/me/karma/comment/{id}", Auth("GetCommentVote"));
      Post("/karma/article/{id}", Auth("VoteArticle"));
      Post("/karma/comment/{id}", Auth("VoteComment"));
    }

    /** The Search registrations of `setRouters`. */
    method RegisterSearchRoutes()
      requires router != null
      modifies router
      ensures router.routes == old(router.routes) + SearchRoutes()
      ensures router.middlewares == old(router.middlewares)
    {
      Get("/search", Public("Search"));
    }

    /** The Options registrations of `setRouters`. */
    method RegisterOptionsRoutes()
      requires router != null
      modifies router
      ensures router.routes == old(router.routes) + OptionsRoutes()
      ensures router.middlewares == old(router.middlewares)
    {
      router.Handle(OPTIONS, "/", Empty, true);
    }

    /** The first half of `setRouters`: Home, Authentication, Article and
        Comment registrations. */
    method RegisterContentRoutes()
      requires router != null
      modifies router
      ensures router.routes ==
        old(router.routes) + (HomeRoutes() + AuthenticationRoutes() + ArticleRoutes() + CommentRoutes())
      ensures router.middlewares == old(router.middlewares)
    {
      ghost var before := router.routes;
      ghost var done: seq<Route> := [];
      RegisterHomeRoutes();
      AppendAssoc(before, done, HomeRoutes());
      done := done + HomeRoutes();
      RegisterAuthenticationRoutes();
      AppendAssoc(before, done, AuthenticationRoutes());
      done := done + AuthenticationRoutes();
      RegisterArticleRoutes();
      AppendAssoc(before, done, ArticleRoutes());
      done := done + ArticleRoutes();
      RegisterCommentRoutes();
      AppendAssoc(before, done, CommentRoutes());
      done := done + CommentRoutes();
    }

    /** The second half of `setRouters`: Account, Subreddit, Karma, Search
        and the catch-all OPTIONS registrations. */
    method RegisterUserRoutes()
      requires router != null
      modifies router
      ensures router.routes == old(router.routes) +
        (AccountRoutes() + SubredditRoutes() + KarmaRoutes() + SearchRoutes() + OptionsRoutes())
      ensures router.middlewares == old(router.middlewares)
    {
      ghost var before := router.routes;
      ghost var done: seq<Route> := [];
      RegisterAccountRoutes();
      AppendAssoc(before, done, AccountRoutes());
      done := done + AccountRoutes();
      RegisterSubredditRoutes();
      AppendAssoc(before, done, SubredditRoutes());
      done := done + SubredditRoutes();
      RegisterKarmaRoutes();
      AppendAssoc(before, done, KarmaRoutes());
      done := done + KarmaRoutes();
      RegisterSearchRoutes();
      AppendAssoc(before, done, SearchRoutes());
      done := done + SearchRoutes();
      RegisterOptionsRoutes();
      AppendAssoc(before, done, OptionsRoutes());
      done := done + OptionsRoutes();
    }

    /** `setRouters`: the three global middlewares, then every route of
        `RouteTable`, in order. */
    method SetRouters()
      requires router != null
      modifies router
      ensures router.routes == old(router.routes) + RouteTable()
      ensures router.middlewares == old(router.middlewares) + GlobalMiddlewares
    {
      router.Use(GlobalMiddlewares);
      ghost var before := router.routes;
      RegisterContentRoutes();
      RegisterUserRoutes();
      AppendAssoc(before, HomeRoutes() + AuthenticationRoutes() + ArticleRoutes() + CommentRoutes(),
                  AccountRoutes() + SubredditRoutes() + KarmaRoutes() + SearchRoutes() + OptionsRoutes());
      RouteTableHalves();
    }

    /** `InitializeAndRun` up to the point where the server starts listening.
        `attempt` and `tickWinsTie` drive the database loop, `redisPingOk` is
        the result of the one Redis ping. */
    method InitializeAndRun(jwtSecretKey: string, attempt: nat -> AttemptResult,
                            tickWinsTie: bool, redisPingOk: bool)
      returns (s: Startup)
      modifies this
      ensures |s.tries| <= TicksBeforeDeadline(tickWinsTie)
      ensures forall i :: 0 <= i < |s.tries| ==>
        s.tries[i] == Try(ReconnectionInterval * (i + 1), attempt(i + 1))
      ensures forall i :: 0 <= i < |s.tries| - 1 ==> s.tries[i].result != Connected
      ensures s.redisPinged <==> |s.tries| > 0 && s.tries[|s.tries| - 1].result == Connected
      ensures !s.redisPinged ==> |s.tries| == TicksBeforeDeadline(tickWinsTie)
      ensures s.exitCode == (if s.redisPinged && redisPingOk then None else Some(1))
      ensures s.exitCode.Some? ==> router == old(router) && handler == old(handler)
      ensures s.exitCode.None? ==>
        handler.Some? && handler.value.jwtSecretKey == jwtSecretKey &&
        SharesStores(handler.value, DbHandle(|s.tries|)) &&
        router != null && fresh(router) &&
        router.routes == RouteTable() && router.middlewares == GlobalMiddlewares
    {
      var db, tries := ConnectDatabase(attempt, tickWinsTie);
      if db.DbTimedOut? {
        // os.Exit(1)
        return Startup(tries, false, Some(1));
      }
      if !redisPingOk {
        // log.Fatal
        return Startup(tries, true, Some(1));
      }
      var m := Model(db.db, None);
      handler := Some(Handler(m, m, Model(db.db, Some(RedisClient)), m, m, jwtSecretKey));
      router := new Router();
      SetRouters();
      s := Startup(tries, true, None);
    }
  }
}
