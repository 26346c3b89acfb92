/** The request-side core of the backend's `handlers` package: the bearer-token
    gate `Authorize` with its token check `decodeJWT`, the request logger and
    the panic boundary `RecoverPanic`.

    The JWT library is not modelled. What `jwt.Parse` reports about a token is
    a `ParsedToken` record, produced by a parser value that the environment
    carries; everything the middleware decides from that record is modelled. */
module Middleware {
  import opened Wrappers

  // ---------------------------------------------------------------------------
  // Constants
  // ---------------------------------------------------------------------------

  /** `jwtTokenLifetimeInDays`. */
  const JwtTokenLifetimeInDays: int := 7
  const SecondsPerDay: int := 24 * 3600
  /** The lifetime in seconds: `time.Hour * 24 * jwtTokenLifetimeInDays`. */
  const TokenLifetime: int := JwtTokenLifetimeInDays * SecondsPerDay

  /** The key `usernameCtxKey` under which the principal is put in the context.
      In Go it has its own type `contextKey`, so a lookup with the plain string
      "username" would not find it; the model's context holds only this key's values. */
  const UsernameCtxKey: string := "username"
  const AuthorizationHeader: string := "Authorization"
  const ConnectionHeader: string := "connection"

  const StatusOK: int := 200
  const StatusUnauthorized: int := 401
  const StatusInternalServerError: int := 500

  // ---------------------------------------------------------------------------
  // strings.Split with a one-character separator
  // ---------------------------------------------------------------------------

  /** The fields of `s` between occurrences of `sep`, as `strings.Split` gives
      them: there is always at least one field, and exactly one when `sep`
      does not occur. */
  function Split(s: string, sep: char): (fields: seq<string>)
    ensures |fields| >= 1
    ensures |fields| == 1 <==> sep !in s
    ensures forall i :: 0 <= i < |fields| ==> sep !in fields[i]
    decreases |s|
  {
    if |s| == 0 then [""]
    else
      var rest := Split(s[1..], sep);
      assert s == [s[0]] + s[1..];
      if s[0] == sep then [""] + rest
      else [[s[0]] + rest[0]] + rest[1..]
  }

  /** `strings.Join`: the fields with one `sep` between neighbours. */
  function Join(fields: seq<string>, sep: char): string
    decreases |fields|
  {
    if |fields| == 0 then ""
    else if |fields| == 1 then fields[0]
    else fields[0] + [sep] + Join(fields[1..], sep)
  }

  /** Prepending a character to a string prepends it to its first field. */
  lemma JoinExtendFirst(c: char, fields: seq<string>, sep: char)
    requires |fields| >= 1
    ensures Join([[c] + fields[0]] + fields[1..], sep) == [c] + Join(fields, sep)
  {
    var g := [[c] + fields[0]] + fields[1..];
    assert g[0] == [c] + fields[0] && g[1..] == fields[1..];
    if |fields| > 1 {
      assert Join(g, sep) == ([c] + fields[0]) + [sep] + Join(fields[1..], sep);
    }
  }

  /** Splitting loses nothing: joining the fields back gives the string. */
  lemma {:induction false} JoinSplit(s: string, sep: char)
    ensures Join(Split(s, sep), sep) == s
    decreases |s|
  {
    if |s| > 0 {
      var rest := Split(s[1..], sep);
      JoinSplit(s[1..], sep);
      assert s == [s[0]] + s[1..];
      if s[0] == sep {
        var fields := [""] + rest;
        assert Split(s, sep) == fields;
        assert fields[1..] == rest;
        assert Join(fields, sep) == "" + [sep] + Join(rest, sep);
      } else {
        assert Split(s, sep) == [[s[0]] + rest[0]] + rest[1..];
        JoinExtendFirst(s[0], rest, sep);
      }
    }
  }

  /** A string without the separator is its own single field. */
  lemma SplitWithoutSep(a: string, sep: char)
    requires sep !in a
    ensures Split(a, sep) == [a]
  {
    JoinSplit(a, sep);
  }

  /** A separator after a separator-free prefix ends the first field there. */
  lemma {:induction false} SplitAfterField(a: string, b: string, sep: char)
    requires sep !in a
    ensures Split(a + [sep] + b, sep) == [a] + Split(b, sep)
    decreases |a|
  {
    var s := a + [sep] + b;
    if |a| == 0 {
      assert s[0] == sep && s[1..] == b;
    } else {
      assert s[0] == a[0] && s[1..] == a[1..] + [sep] + b;
      SplitAfterField(a[1..], b, sep);
      assert [a[0]] + a[1..] == a;
    }
  }

  /** Splitting inverts joining when no field holds the separator. */
  lemma {:induction false} SplitJoin(fields: seq<string>, sep: char)
    requires |fields| >= 1
    requires forall i :: 0 <= i < |fields| ==> sep !in fields[i]
    ensures Split(Join(fields, sep), sep) == fields
    decreases |fields|
  {
    if |fields| == 1 {
      SplitWithoutSep(fields[0], sep);
    } else {
      SplitJoin(fields[1..], sep);
      SplitAfterField(fields[0], Join(fields[1..], sep), sep);
      assert [fields[0]] + fields[1..] == fields;
    }
  }

  // ---------------------------------------------------------------------------
  // Token extraction (middleware.go line 57)
  // ---------------------------------------------------------------------------

  /** `strings.Split(authHeader[0], " ")[1]`: the second space-separated field
      of the first header value. `None` stands for the index-out-of-range
      panic, which happens when there is no value at all or the first value
      holds no space. The scheme word before the space is never looked at. */
  function ExtractToken(values: seq<string>): (token: Option<string>)
    ensures token.None? <==> |values| == 0 || ' ' !in values[0]
    ensures token.Some? ==> ' ' !in token.value
  {
    if |values| == 0 then None
    else
      var fields := Split(values[0], ' ');
      if |fields| < 2 then None else Some(fields[1])
  }

  /** Whatever the scheme word, the token is the text between the first and
      the second space (or the end of the value). */
  lemma TokenAfterScheme(scheme: string, token: string, tail: string, more: seq<string>)
    requires ' ' !in scheme && ' ' !in token
    requires tail == "" || tail[0] == ' '
    ensures ExtractToken([scheme + " " + token + tail] + more) == Some(token)
  {
    var v := scheme + " " + token + tail;
    assert v == scheme + [' '] + (token + tail);
    SplitAfterField(scheme, token + tail, ' ');
    if tail == "" {
      assert token + tail == token;
      SplitWithoutSep(token, ' ');
    } else {
      assert token + tail == token + [' '] + tail[1..];
      SplitAfterField(token, tail[1..], ' ');
    }
  }

  /** Two spaces after the scheme give the empty token. */
  lemma DoubleSpaceGivesEmptyToken(scheme: string, tail: string)
    requires ' ' !in scheme
    ensures ExtractToken([scheme + "  " + tail]) == Some("")
  {
    var v := scheme + "  " + tail;
    assert v == scheme + [' '] + ([' '] + tail);
    SplitAfterField(scheme, [' '] + tail, ' ');
    assert ([' '] + tail)[1..] == tail;
  }

  // ---------------------------------------------------------------------------
  // decodeJWT
  // ---------------------------------------------------------------------------

  /** What `jwt.Parse` reports about a token string. */
  datatype ParsedToken = ParsedToken(
    /** the three segments split and decode */
    wellFormed: bool,
    /** the `alg` header */
    alg: string,
    /** the signature verifies under the key the key function hands back */
    signatureOk: bool,
    /** the library's own `exp`/`iat`/`nbf` claim checks pass */
    claimsOk: bool,
    /** the claims are a `jwt.MapClaims` and `token.Valid` is set */
    valid: bool,
    /** the `iat` claim when it is a JSON number, in whole seconds */
    iat: Option<int>,
    /** the `username` claim when it is a JSON string */
    username: Option<string>)

  /** `jwt.Parse` applied to a token string and the secret key. */
  type JwtParser = (string, string) -> ParsedToken

  /** The algorithms of `jwt.SigningMethodHMAC`. */
  predicate IsHmac(alg: string)
    ensures IsHmac(alg) ==> |alg| == 5 && alg[0] == 'H' && alg[1] == 'S'
    ensures alg == "none" ==> !IsHmac(alg)
  {
    alg == "HS256" || alg == "HS384" || alg == "HS512"
  }

  /** `jwt.Parse` returns an error: the token does not decode, the key function
      refuses a non-HMAC algorithm, the signature fails or a library claim
      check fails. */
  predicate ParseFails(t: ParsedToken)
    ensures !IsHmac(t.alg) ==> ParseFails(t)
    ensures !t.wellFormed || !t.signatureOk || !t.claimsOk ==> ParseFails(t)
  {
    !t.wellFormed || !IsHmac(t.alg) || !t.signatureOk || !t.claimsOk
  }

  /** The four errors `decodeJWT` returns. */
  datatype AuthError = ParseFailed | TokenExpired | ClaimsUnavailable | TokenInvalid

  /** The message of each error. */
  function Message(e: AuthError): (m: string)
    ensures |m| > 0
  {
    match e
    case ParseFailed => "failed to parse or validate the token"
    case TokenExpired => "the token is expired, please login again"
    case ClaimsUnavailable => "error retreiving the claims of the token"
    case TokenInvalid => "the authorization token is invalid"
  }

  /** A client can tell the four errors apart by their messages. */
  lemma MessagesDistinct(e1: AuthError, e2: AuthError)
    ensures Message(e1) == Message(e2) ==> e1 == e2
  {
  }

  /** `expTime.Sub(time.Now()) < 0` with `expTime = iat + lifetime`. */
  predicate Expired(iat: int, now: int)
    ensures Expired(iat, now) <==> now > iat + JwtTokenLifetimeInDays * 24 * 3600
  {
    (iat + TokenLifetime) - now < 0
  }

  /** `decodeJWT`: the username of an accepted token, or the error. */
  function DecodeJWT(t: ParsedToken, now: int): (r: Result<string, AuthError>)
    ensures r.Success? ==>
      IsHmac(t.alg) && t.wellFormed && t.signatureOk && t.claimsOk && t.valid &&
      t.iat.Some? && now <= t.iat.value + TokenLifetime && t.username == Some(r.value)
    ensures r == Failure(ParseFailed) <==> ParseFails(t)
  {
    if ParseFails(t) then Failure(ParseFailed)
    else if !t.valid then Failure(TokenInvalid)
    else match t.iat
      case None => Failure(ClaimsUnavailable)
      case Some(iat) =>
        if Expired(iat, now) then Failure(TokenExpired)
        else match t.username
          case None => Failure(ClaimsUnavailable)
          case Some(u) => Success(u)
  }

  /** A token is accepted exactly when every check passes. */
  lemma DecodeAcceptsIff(t: ParsedToken, now: int)
    ensures DecodeJWT(t, now).Success? <==>
      !ParseFails(t) && t.valid && t.iat.Some? && now <= t.iat.value + TokenLifetime &&
      t.username.Some?
    ensures DecodeJWT(t, now).Success? ==> DecodeJWT(t, now).value == t.username.value
  {
  }

  /** A token signed with anything but HMAC (`none` included) is refused
      whatever its claims say. */
  lemma NonHmacRejected(t: ParsedToken, now: int)
    requires !IsHmac(t.alg)
    ensures DecodeJWT(t, now) == Failure(ParseFailed)
  {
  }

  /** The expiry boundary: with a parsed, valid token carrying `iat`, it is
      reported expired exactly when `now > iat + 7 days`, and the
      expiry check comes before the `username` check. */
  lemma ExpiredExactlyAfterLifetime(t: ParsedToken, now: int)
    requires !ParseFails(t) && t.valid && t.iat.Some?
    ensures DecodeJWT(t, now) == Failure(TokenExpired) <==> now > t.iat.value + TokenLifetime
  {
  }

  /** `now == iat + 7 days` is still accepted. */
  lemma LastSecondAccepted(t: ParsedToken, u: string)
    requires !ParseFails(t) && t.valid && t.iat.Some? && t.username == Some(u)
    ensures DecodeJWT(t, t.iat.value + TokenLifetime) == Success(u)
    ensures DecodeJWT(t, t.iat.value + TokenLifetime + 1) == Failure(TokenExpired)
  {
  }

  /** A missing `iat`, or a `username` missing in a token that has not
      expired, reports that the claims cannot be read. */
  lemma MissingClaimsReported(t: ParsedToken, now: int)
    requires !ParseFails(t) && t.valid
    requires t.iat.None? || (!Expired(t.iat.value, now) && t.username.None?)
    ensures DecodeJWT(t, now) == Failure(ClaimsUnavailable)
  {
  }

  /** A token that parses but that the library does not mark valid. */
  lemma InvalidAfterParse(t: ParsedToken, now: int)
    requires !ParseFails(t) && !t.valid
    ensures DecodeJWT(t, now) == Failure(TokenInvalid)
  {
  }

  // ---------------------------------------------------------------------------
  // Requests, responses and handlers
  // ---------------------------------------------------------------------------

  /** A request: its header map (`r.Header`) and its context values. */
  datatype Request = Request(header: map<string, seq<string>>, context: map<string, string>)

  /** What the process supplies to every request: the clock, the secret key
      and the JWT library. */
  datatype Env = Env(now: int, secretKey: string, parse: JwtParser)

  /** A response as the handlers leave it. */
  datatype Resp = Resp(status: Option<int>, header: map<string, string>, body: string)
  {
    /** `WriteHeader`: only the first status written counts. */
    function WriteHeader(code: int): Resp {
      if status.Some? then this else this.(status := Some(code))
    }

    /** `Header().Set(key, value)`. */
    function SetHeader(key: string, value: string): Resp {
      this.(header := header[key := value])
    }

    /** `Write`: a body write sends status 200 unless a status was written. */
    function Write(data: string): Resp {
      this.WriteHeader(StatusOK).(body := body + data)
    }

    /** `respondWithError(w, code, err)`: the status and the error message. */
    function RespondWithError(code: int, e: AuthError): Resp {
      this.WriteHeader(code).Write(Message(e))
    }
  }

  /** A response nothing has been written to. */
  const EmptyResp: Resp := Resp(None, map[], "")

  /** What an endpoint does with the request it is given. */
  datatype Action =
    | Reply(code: int, data: string)          // writes a status and a body
    | Silent                                  // writes nothing
    | Fault                                   // panics before writing anything
    | ReplyThenFault(code: int, data: string) // writes a status and a body, then panics

  /** Whether a handler returned normally or is unwinding a panic. */
  datatype Outcome = Returned | Panicked

  /** A handler in the chain; `Func` is an endpoint, the others are the
      wrappers this package defines. */
  datatype HttpHandler =
    | Func(run: Request -> Action)
    | Authorized(next: HttpHandler)
    | Logged(inner: HttpHandler)
    | Recovered(inner: HttpHandler)

  /** The response, the outcome, and the requests handed to endpoints, in order. */
  datatype Served = Served(resp: Resp, outcome: Outcome, calls: seq<Request>)

  /** The decision `Authorize` takes before it calls `next`. */
  datatype AuthDecision =
    | NoHeader                // no `Authorization` key in the header map
    | HeaderPanic             // `authHeader[0]` or `[1]` out of range
    | Reject(err: AuthError)  // `decodeJWT` returned an error
    | Forward(req: Request)   // call `next` with this request

  function AuthorizeStep(r: Request, env: Env): (d: AuthDecision)
    ensures d == NoHeader <==> AuthorizationHeader !in r.header
    ensures d == HeaderPanic <==>
      AuthorizationHeader in r.header && ExtractToken(r.header[AuthorizationHeader]).None?
    ensures d.Forward? ==>
      d.req.header == r.header && UsernameCtxKey in d.req.context &&
      d.req.context == r.context[UsernameCtxKey := d.req.context[UsernameCtxKey]] &&
      DecodeJWT(env.parse(ExtractToken(r.header[AuthorizationHeader]).value, env.secretKey), env.now)
        == Success(d.req.context[UsernameCtxKey])
    ensures d.Reject? <==>
      AuthorizationHeader in r.header && ExtractToken(r.header[AuthorizationHeader]).Some? &&
      DecodeJWT(env.parse(ExtractToken(r.header[AuthorizationHeader]).value, env.secretKey), env.now).Failure?
    ensures d.Reject? ==>
      DecodeJWT(env.parse(ExtractToken(r.header[AuthorizationHeader]).value, env.secretKey), env.now)
        == Failure(d.err)
  {
    if AuthorizationHeader !in r.header then NoHeader
    else match ExtractToken(r.header[AuthorizationHeader])
      case None => HeaderPanic
      case Some(tokenStr) =>
        match DecodeJWT(env.parse(tokenStr, env.secretKey), env.now)
        case Failure(e) => Reject(e)
        case Success(username) =>
          Forward(r.(context := r.context[UsernameCtxKey := username]))
  }

  /** What an endpoint's action leaves in the response. */
  function Perform(a: Action, s: Resp, r: Request): (x: Served)
    ensures x.calls == [r]
    ensures x.outcome == Panicked <==> a.Fault? || a.ReplyThenFault?
    ensures x.resp.header == s.header
    ensures x.resp.status == (if s.status.Some? || a.Silent? || a.Fault? then s.status else Some(a.code))
  {
    match a
    case Reply(code, data) => Served(s.WriteHeader(code).Write(data), Returned, [r])
    case Silent => Served(s, Returned, [r])
    case Fault => Served(s, Panicked, [r])
    case ReplyThenFault(code, data) => Served(s.WriteHeader(code).Write(data), Panicked, [r])
  }

  /** Serving a request with a handler, from response state `s`. */
  function Serve(h: HttpHandler, s: Resp, r: Request, env: Env): (x: Served)
    ensures |x.calls| <= 1
    ensures s.status.Some? ==> x.resp.status == s.status
    ensures s.body <= x.resp.body
    decreases h
  {
    match h
    case Func(run) => Perform(run(r), s, r)
    case Authorized(next) =>
      (match AuthorizeStep(r, env)
       case NoHeader => Served(s.WriteHeader(StatusUnauthorized), Returned, [])
       case HeaderPanic => Served(s, Panicked, [])
       case Reject(e) => Served(s.RespondWithError(StatusUnauthorized, e), Returned, [])
       case Forward(r') => Serve(next, s, r', env))
    case Logged(inner) => Serve(inner, s, r, env)
    case Recovered(inner) =>
      var x := Serve(inner, s, r, env);
      if x.outcome == Panicked then
        Served(x.resp.SetHeader(ConnectionHeader, "close").WriteHeader(StatusInternalServerError),
               Returned, x.calls)
      else x
  }

  // ---------------------------------------------------------------------------
  // Properties of Authorize and RecoverPanic
  // ---------------------------------------------------------------------------

  /** No `Authorization` header: 401 and `next` never runs. */
  lemma MissingHeaderIs401(next: HttpHandler, s: Resp, r: Request, env: Env)
    requires AuthorizationHeader !in r.header
    ensures Serve(Authorized(next), s, r, env) ==
      Served(s.WriteHeader(StatusUnauthorized), Returned, [])
  {
  }

  /** A first header value without a space makes `Authorize` panic, before
      anything is written and before `next` runs. */
  lemma HeaderWithoutSpacePanics(next: HttpHandler, s: Resp, r: Request, env: Env)
    requires AuthorizationHeader in r.header
    requires |r.header[AuthorizationHeader]| == 0 || ' ' !in r.header[AuthorizationHeader][0]
    ensures Serve(Authorized(next), s, r, env) == Served(s, Panicked, [])
  {
  }

  /** A token whose algorithm is not HMAC is answered 401 with the parse
      error, and `next` never runs. */
  lemma NonHmacIs401(next: HttpHandler, s: Resp, r: Request, env: Env, tokenStr: string)
    requires AuthorizationHeader in r.header
    requires ExtractToken(r.header[AuthorizationHeader]) == Some(tokenStr)
    requires !IsHmac(env.parse(tokenStr, env.secretKey).alg)
    ensures Serve(Authorized(next), s, r, env) ==
      Served(s.RespondWithError(StatusUnauthorized, ParseFailed), Returned, [])
  {
  }

  /** Every error of `decodeJWT` is answered 401 with that error's message,
      and `next` never runs. */
  lemma RejectedIs401(next: HttpHandler, s: Resp, r: Request, env: Env, tokenStr: string, e: AuthError)
    requires AuthorizationHeader in r.header
    requires ExtractToken(r.header[AuthorizationHeader]) == Some(tokenStr)
    requires DecodeJWT(env.parse(tokenStr, env.secretKey), env.now) == Failure(e)
    ensures Serve(Authorized(next), s, r, env) ==
      Served(s.RespondWithError(StatusUnauthorized, e), Returned, [])
  {
  }

  /** `next` runs only when the token was accepted. */
  lemma RejectedNeverCallsNext(next: HttpHandler, s: Resp, r: Request, env: Env)
    requires !AuthorizeStep(r, env).Forward?
    ensures Serve(Authorized(next), s, r, env).calls == []
  {
  }

  /** On an accepted token the endpoint is called exactly once, with the same
      headers and with the username under `usernameCtxKey`; the response is
      the endpoint's. */
  lemma AcceptedCallsNextOnce(run: Request -> Action, s: Resp, r: Request, env: Env,
                              tokenStr: string, username: string)
    requires AuthorizationHeader in r.header
    requires ExtractToken(r.header[AuthorizationHeader]) == Some(tokenStr)
    requires DecodeJWT(env.parse(tokenStr, env.secretKey), env.now) == Success(username)
    ensures var x := Serve(Authorized(Func(run)), s, r, env);
      |x.calls| == 1 &&
      x.calls[0].header == r.header &&
      x.calls[0].context == r.context[UsernameCtxKey := username] &&
      x == Perform(run(x.calls[0]), s, x.calls[0])
  {
  }

  /** A normal return passes through `RecoverPanic` untouched. */
  lemma RecoverPassesThrough(inner: HttpHandler, s: Resp, r: Request, env: Env)
    requires Serve(inner, s, r, env).outcome == Returned
    ensures Serve(Recovered(inner), s, r, env) == Serve(inner, s, r, env)
  {
  }

  /** A panic is turned into `connection: close` and status 500 (when no
      status was written before it), and does not propagate. */
  lemma RecoverCatchesPanic(inner: HttpHandler, s: Resp, r: Request, env: Env)
    requires Serve(inner, s, r, env).outcome == Panicked
    ensures var x := Serve(inner, s, r, env);
      var y := Serve(Recovered(inner), s, r, env);
      y.outcome == Returned && y.calls == x.calls &&
      y.resp.header == x.resp.header[ConnectionHeader := "close"] &&
      y.resp.body == x.resp.body &&
      y.resp.status == (if x.resp.status.None? then Some(StatusInternalServerError) else x.resp.status)
  {
  }

  /** An endpoint that writes its status and body and then panics keeps that
      status: the `WriteHeader(500)` of the recovery has no effect, and only
      `connection: close` is added to the writer's header map. Once a status
      has gone out net/http no longer sends header changes, so the client does
      not receive it. */
  lemma RecoverKeepsWrittenStatus(run: Request -> Action, r: Request, env: Env, code: int, data: string)
    requires run(r) == ReplyThenFault(code, data)
    ensures Serve(Recovered(Func(run)), EmptyResp, r, env) ==
      Served(Resp(Some(code), map[ConnectionHeader := "close"], data), Returned, [r])
  {
    assert map[][ConnectionHeader := "close"] == map[ConnectionHeader := "close"];
  }

  /** Nothing propagates a panic past `RecoverPanic`. */
  lemma RecoveredNeverPanics(inner: HttpHandler, s: Resp, r: Request, env: Env)
    ensures Serve(Recovered(inner), s, r, env).outcome == Returned
  {
  }

  /** The header quirk end to end: behind the panic boundary, a request
      whose `Authorization` value has no space gets 500 with
      `connection: close`, not 401, and the endpoint never runs. */
  lemma HeaderWithoutSpaceIs500(next: HttpHandler, r: Request, env: Env, value: string)
    requires AuthorizationHeader in r.header
    requires |r.header[AuthorizationHeader]| > 0 && r.header[AuthorizationHeader][0] == value
    requires ' ' !in value
    ensures Serve(Recovered(Logged(Authorized(next))), EmptyResp, r, env) ==
      Served(Resp(Some(StatusInternalServerError), map[ConnectionHeader := "close"], ""), Returned, [])
  {
    assert ExtractToken(r.header[AuthorizationHeader]).None?;
    assert AuthorizeStep(r, env) == HeaderPanic;
    assert Serve(Logged(Authorized(next)), EmptyResp, r, env) == Served(EmptyResp, Panicked, []);
    assert map[][ConnectionHeader := "close"] == map[ConnectionHeader := "close"];
  }

  // ---------------------------------------------------------------------------
  // Only authenticated requests reach endpoints behind Authorize
  // ---------------------------------------------------------------------------

  /** A request that `Authorize` would forward unchanged: its header carries
      a token that is accepted for the username already in its context. */
  predicate Admitted(r: Request, env: Env) {
    AuthorizeStep(r, env) == Forward(r)
  }

  /** Every endpoint in `h` sits behind an `Authorize`. */
  predicate Guarded(h: HttpHandler) {
    match h
    case Func(_) => false
    case Authorized(_) => true
    case Logged(inner) => Guarded(inner)
    case Recovered(inner) => Guarded(inner)
  }

  /** The request `Authorize` forwards is itself admitted. */
  lemma ForwardedIsAdmitted(r: Request, env: Env)
    requires AuthorizeStep(r, env).Forward?
    ensures Admitted(AuthorizeStep(r, env).req, env)
    ensures UsernameCtxKey in AuthorizeStep(r, env).req.context
  {
    var r' := AuthorizeStep(r, env).req;
    assert r'.header == r.header;
    assert r'.context[UsernameCtxKey := r'.context[UsernameCtxKey]] == r'.context;
  }

  /** No endpoint behind `Authorize` sees a request whose username was not
      taken from an accepted token of that same request. */
  lemma {:induction false} GuardedCallsAreAdmitted(h: HttpHandler, s: Resp, r: Request, env: Env)
    requires Guarded(h) || Admitted(r, env)
    ensures forall c :: c in Serve(h, s, r, env).calls ==>
      Admitted(c, env) && UsernameCtxKey in c.context
    decreases h
  {
    match h
    case Func(run) =>
      if Admitted(r, env) {
        ForwardedIsAdmitted(r, env);
      }
    case Authorized(next) =>
      if AuthorizeStep(r, env).Forward? {
        var r' := AuthorizeStep(r, env).req;
        ForwardedIsAdmitted(r, env);
        GuardedCallsAreAdmitted(next, s, r', env);
      }
    case Logged(inner) =>
      GuardedCallsAreAdmitted(inner, s, r, env);
    case Recovered(inner) =>
      GuardedCallsAreAdmitted(inner, s, r, env);
  }

  // ---------------------------------------------------------------------------
  // The response writer and the handlers as methods
  // ---------------------------------------------------------------------------

  /** `http.ResponseWriter`, updated in place by the handlers. */
  class ResponseWriter {
    var status: Option<int>
    var header: map<string, string>
    var body: string

    function State(): Resp
      reads this
    {
      Resp(status, header, body)
    }

    constructor ()
      ensures State() == EmptyResp
    {
      status, header, body := None, map[], "";
    }

    method WriteHeader(code: int)
      modifies this
      ensures State() == old(State()).WriteHeader(code)
    {
      if status.None? {
        status := Some(code);
      }
    }

    method SetHeader(key: string, value: string)
      modifies this
      ensures State() == old(State()).SetHeader(key, value)
    {
      header := header[key := value];
    }

    method Write(data: string)
      modifies this
      ensures State() == old(State()).Write(data)
    {
      WriteHeader(StatusOK);
      body := body + data;
    }
  }

  /** `respondWithError`. */
  method RespondWithError(w: ResponseWriter, code: int, e: AuthError)
    modifies w
    ensures w.State() == old(w.State()).RespondWithError(code, e)
  {
    w.WriteHeader(code);
    w.Write(Message(e));
  }

  /** Serves `r` with `h`, writing into `w`; returns whether a panic is
      unwinding and the requests that reached endpoints. */
  method ServeHTTP(h: HttpHandler, w: ResponseWriter, r: Request, env: Env)
    returns (outcome: Outcome, calls: seq<Request>)
    modifies w
    ensures Served(w.State(), outcome, calls) == Serve(h, old(w.State()), r, env)
    decreases h, 0
  {
    match h
    case Func(run) =>
      outcome, calls := Returned, [r];
      match run(r) {
        case Reply(code, data) =>
          w.WriteHeader(code);
          w.Write(data);
        case Silent =>
        case Fault =>
          outcome := Panicked;
        case ReplyThenFault(code, data) =>
          w.WriteHeader(code);
          w.Write(data);
          outcome := Panicked;
      }
    case Authorized(next) =>
      outcome, calls := Authorize(next, w, r, env);
    case Logged(inner) =>
      outcome, calls := LogRequest(inner, w, r, env);
    case Recovered(inner) =>
      outcome, calls := RecoverPanic(inner, w, r, env);
  }

  /** `Authorize(next)` serving `r`. */
  method Authorize(next: HttpHandler, w: ResponseWriter, r: Request, env: Env)
    returns (outcome: Outcome, calls: seq<Request>)
    modifies w
    ensures Served(w.State(), outcome, calls) == Serve(Authorized(next), old(w.State()), r, env)
    decreases next, 1
  {
    if AuthorizationHeader !in r.header {
      w.WriteHeader(StatusUnauthorized);
      return Returned, [];
    }
    var authHeader := r.header[AuthorizationHeader];
    var tokenStr := ExtractToken(authHeader);
    if tokenStr.None? {
      // index out of range: the panic unwinds out of Authorize
      return Panicked, [];
    }
    var username := DecodeJWT(env.parse(tokenStr.value, env.secretKey), env.now);
    if username.Failure? {
      RespondWithError(w, StatusUnauthorized, username.error);
      return Returned, [];
    }
    var ctx := r.context[UsernameCtxKey := username.value];
    outcome, calls := ServeHTTP(next, w, r.(context := ctx), env);
  }

  /** `LogRequest(next)` serving `r`; the log line itself is not modelled. */
  method LogRequest(next: HttpHandler, w: ResponseWriter, r: Request, env: Env)
    returns (outcome: Outcome, calls: seq<Request>)
    modifies w
    ensures Served(w.State(), outcome, calls) == Serve(Logged(next), old(w.State()), r, env)
    decreases next, 1
  {
    outcome, calls := ServeHTTP(next, w, r, env);
  }

  /** `RecoverPanic(next)` serving `r`: the deferred `recover` turns a panic
      into `connection: close` and status 500. */
  method RecoverPanic(next: HttpHandler, w: ResponseWriter, r: Request, env: Env)
    returns (outcome: Outcome, calls: seq<Request>)
    modifies w
    ensures Served(w.State(), outcome, calls) == Serve(Recovered(next), old(w.State()), r, env)
    ensures outcome == Returned
    decreases next, 1
  {
    outcome, calls := ServeHTTP(next, w, r, env);
    if outcome == Panicked {
      w.SetHeader(ConnectionHeader, "close");
      w.WriteHeader(StatusInternalServerError);
      outcome := Returned;
    }
  }
}
