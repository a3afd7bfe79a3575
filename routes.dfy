/** The route layer: the `/api` handlers as operations over the session claim,
    the request body, the user store and the CSRF secret store, and the
    pipeline that runs the general limiter and the CSRF guard before them. */
module Routes {
  import opened Common
  import opened Storage
  import opened Auth
  import opened Csrf

  /** The JSON bodies the handlers send. `Throttled` stands for a rate
      limiter's refusal, whose text and headers the limiter library writes. */
  datatype Body =
    | ErrorBody(error: string)
    | TokenBody(csrfToken: string)
    | UserBody(user: PublicUser)
    | MeBody(id: UserId, email: string, name: string, hasPaid: bool)
    | PaymentBody(success: bool, hasPaid: bool)
    | Throttled

  datatype Response = Response(status: int, body: Body)

  /** The string fields of a JSON request body; `None` when absent. */
  datatype Fields = Fields(name: Option<string>, email: Option<string>, password: Option<string>)

  const Ok := 200
  const BadRequest := 400
  const NotFound := 404
  const TooManyRequests := 429

  const MissingFields := "Missing required fields"
  const MissingCredentials := "Missing email or password"
  const UserNotFound := "User not found"

  /** POST /api/csrf-token: issues a token keyed by the session's user id;
      `secret` is what the token library's secretSync gives. */
  method HandleCsrfToken(guard: CsrfTokens, session: Option<Session>, secret: string)
    returns (resp: Response)
    modifies guard
    ensures !SignedIn(session) ==>
              resp == Response(Unauthorized, ErrorBody(NotAuthenticated)) && guard.secrets == old(guard.secrets)
    ensures SignedIn(session) ==>
              && guard.secrets == old(guard.secrets)[session.value.userId := secret]
              && resp == Response(Ok, TokenBody(guard.tokens.create(secret)))
  {
    if !SignedIn(session) {
      return Response(Unauthorized, ErrorBody(NotAuthenticated));
    }
    var token := guard.GenerateCsrfToken(session.value.userId, secret);
    resp := Response(Ok, TokenBody(token));
  }

  /** POST /api/auth/signup. `id` and `now` are what randomUUID and the clock
      give if a user is created. */
  method HandleSignup(storage: MemStorage, codec: PasswordCodec, body: Fields, id: UserId, now: int)
    returns (resp: Response)
    requires storage.Valid()
    requires id !in storage.users
    modifies storage
    ensures storage.Valid()
    ensures !(Truthy(body.name) && Truthy(body.email) && Truthy(body.password)) ==>
              && resp == Response(BadRequest, ErrorBody(MissingFields))
              && storage.users == old(storage.users) && storage.order == old(storage.order)
    ensures Truthy(body.name) && Truthy(body.email) && Truthy(body.password) ==>
              var (r, after) := Register(old(storage.Values()), codec, body.name.value, body.email.value,
                                         body.password.value, id, now);
              && storage.Values() == after
              && (r.Rejected? ==> resp == Response(BadRequest, ErrorBody(r.error))
                                  && storage.users == old(storage.users) && storage.order == old(storage.order))
              && (r.Authenticated? ==> resp == Response(Ok, UserBody(r.user)))
  {
    if !(Truthy(body.name) && Truthy(body.email) && Truthy(body.password)) {
      return Response(BadRequest, ErrorBody(MissingFields));
    }
    var result := RegisterUser(storage, codec, body.name.value, body.email.value, body.password.value, id, now);
    if result.Rejected? {
      return Response(BadRequest, ErrorBody(result.error));
    }
    resp := Response(Ok, UserBody(result.user));
  }

  /** POST /api/auth/login: reads the store only; on success the session
      claim of the request becomes the user's id. */
  method HandleLogin(storage: MemStorage, codec: PasswordCodec, body: Fields, session: Option<Session>)
    returns (resp: Response, session': Option<Session>)
    requires storage.Valid()
    ensures !(Truthy(body.email) && Truthy(body.password)) ==>
              resp == Response(BadRequest, ErrorBody(MissingCredentials)) && session' == session
    ensures Truthy(body.email) && Truthy(body.password) ==>
              var r := Login(storage.Values(), codec, body.email.value, body.password.value);
              && (r.Rejected? ==> resp == Response(Unauthorized, ErrorBody(InvalidCredentials)) && session' == session)
              && (r.Authenticated? ==> resp == Response(Ok, UserBody(r.user)) && session' == Some(Session(r.user.id)))
  {
    session' := session;
    if !(Truthy(body.email) && Truthy(body.password)) {
      return Response(BadRequest, ErrorBody(MissingCredentials)), session';
    }
    var result := LoginUser(storage, codec, body.email.value, body.password.value);
    if result.Rejected? {
      return Response(Unauthorized, ErrorBody(result.error)), session';
    }
    session' := Some(Session(result.user.id));
    resp := Response(Ok, UserBody(result.user));
  }

  /** GET /api/auth/me: the signed-in user's public fields and payment flag. */
  method HandleMe(storage: MemStorage, session: Option<Session>) returns (resp: Response)
    requires storage.Valid()
    ensures !SignedIn(session) ==> resp == Response(Unauthorized, ErrorBody(NotAuthenticated))
    ensures SignedIn(session) && session.value.userId !in storage.users ==>
              resp == Response(NotFound, ErrorBody(UserNotFound))
    ensures SignedIn(session) && session.value.userId in storage.users ==>
              var u := storage.users[session.value.userId];
              resp == Response(Ok, MeBody(session.value.userId, u.email, u.name, u.hasPaid))
  {
    if !SignedIn(session) {
      return Response(Unauthorized, ErrorBody(NotAuthenticated));
    }
    var user := storage.GetUser(session.value.userId);
    if user.None? {
      return Response(NotFound, ErrorBody(UserNotFound));
    }
    var u := user.value;
    resp := Response(Ok, MeBody(u.id, u.email, u.name, u.hasPaid));
  }

  /** POST /api/payment/complete: marks the signed-in user as paid. */
  method HandlePaymentComplete(storage: MemStorage, session: Option<Session>) returns (resp: Response)
    requires storage.Valid()
    modifies storage
    ensures storage.Valid() && storage.order == old(storage.order)
    ensures !SignedIn(session) ==>
              resp == Response(Unauthorized, ErrorBody(NotAuthenticated)) && storage.users == old(storage.users)
    ensures SignedIn(session) && session.value.userId !in old(storage.users) ==>
              resp == Response(NotFound, ErrorBody(UserNotFound)) && storage.users == old(storage.users)
    ensures SignedIn(session) && session.value.userId in old(storage.users) ==>
              && resp == Response(Ok, PaymentBody(true, true))
              && storage.users == WithPayment(old(storage.users), session.value.userId, true)
  {
    if !SignedIn(session) {
      return Response(Unauthorized, ErrorBody(NotAuthenticated));
    }
    var user := storage.UpdateUserPaymentStatus(session.value.userId, true);
    if user.None? {
      return Response(NotFound, ErrorBody(UserNotFound));
    }
    resp := Response(Ok, PaymentBody(true, user.value.hasPaid));
  }

  /** The sign-up, login, "me" and payment flow against a fresh store: the
      payment flag reads false before payment and true after it. */
  method SignupLoginPayScenario(codec: PasswordCodec, id: UserId, now: int)
    returns (me1: Response, paid: Response, me2: Response)
    requires id != ""
    requires codec.validate("Abc123!@").valid
    requires codec.compare("Abc123!@", codec.hash("Abc123!@"))
    ensures me1 == Response(Ok, MeBody(id, "jane@x.com", "Jane", false))
    ensures paid == Response(Ok, PaymentBody(true, true))
    ensures me2 == Response(Ok, MeBody(id, "jane@x.com", "Jane", true))
  {
    var storage := new MemStorage();
    var signup := HandleSignup(storage, codec, Fields(Some("Jane"), Some("jane@x.com"), Some("Abc123!@")), id, now);
    RegisterThenLogin([], codec, "Jane", "jane@x.com", "Abc123!@", id, now);
    var login, session := HandleLogin(storage, codec, Fields(None, Some("jane@x.com"), Some("Abc123!@")), None);
    assert session == Some(Session(id));
    assert storage.users[id] == User(id, "Jane", "jane@x.com", codec.hash("Abc123!@"), false, now);
    me1 := HandleMe(storage, session);
    paid := HandlePaymentComplete(storage, session);
    me2 := HandleMe(storage, session);
  }

  // ---- Mounting under "/api" --------------------------------------------

  const ApiMount := "/api"

  /** Paths that `app.use("/api", ...)` hands to its middleware. */
  predicate UnderApi(url: string)
  {
    url == ApiMount || (|url| > |ApiMount| && url[..|ApiMount| + 1] == ApiMount + "/")
  }

  /** `req.path` inside a middleware mounted at "/api": the mount prefix is
      removed, and "/" stands for the mount point itself. */
  function MountRelativePath(url: string): (p: string)
    requires UnderApi(url)
    ensures |p| > 0 && p[0] == '/'
    ensures url == ApiMount + p || (url == ApiMount && p == "/")
  {
    if url == ApiMount then "/" else url[|ApiMount|..]
  }

  /** The CSRF guard as registered by `app.use("/api", csrfMiddleware)`: it
      compares the mount-relative path against the exempt list. */
  function CsrfAsMounted(req: Request, secrets: map<string, string>, tokens: TokenScheme): (v: Verdict)
    requires UnderApi(req.path)
    ensures req.httpMethod in SafeMethods ==> v == Next
    ensures RouteOf(req.httpMethod, req.path).Some? ==>
              (v == Next <==>
                 || req.httpMethod in SafeMethods
                 || (SignedIn(req.session) && Truthy(req.csrfHeader)
                     && VerifyCsrfToken(secrets, tokens, req.session.value.userId, req.csrfHeader.value)))
  {
    CsrfMiddleware(req.(path := MountRelativePath(req.path)), secrets, tokens)
  }

  /** As registered, a bootstrap request without a session (POST to the login,
      sign-up or token endpoint) is refused with 401 before reaching its handler. */
  lemma BootstrapBlockedAsMounted(req: Request, secrets: map<string, string>, tokens: TokenScheme)
    requires req.path in ExemptPaths
    requires req.httpMethod !in SafeMethods
    requires !SignedIn(req.session)
    ensures UnderApi(req.path)
    ensures CsrfAsMounted(req, secrets, tokens) == Deny(Unauthorized, NotAuthenticated)
  {
    var p := req.path;
    assert p[..5] == "/api/";
    var rel := MountRelativePath(p);
    assert rel == p[4..];
    assert |rel| == |p| - 4;
    assert rel !in ExemptPaths;
  }

  /** The guard as evidently intended: the exempt list is compared against the
      full request path, `req.baseUrl + req.path`. */
  function CsrfFullPath(req: Request, secrets: map<string, string>, tokens: TokenScheme): (v: Verdict)
    requires UnderApi(req.path)
    ensures req.path in ExemptPaths ==> v == Next
    ensures req.path != ApiMount ==> v == CsrfMiddleware(req, secrets, tokens)
  {
    var full := if req.path == ApiMount then ApiMount + "/" else ApiMount + MountRelativePath(req.path);
    assert req.path != ApiMount ==> full == req.path;
    CsrfMiddleware(req.(path := full), secrets, tokens)
  }

  // ---- The /api pipeline -------------------------------------------------

  /** The handlers this model covers. */
  datatype Route = CsrfTokenPath | SignupPath | LoginPath | MePath | PaymentPath

  /** The handler registered for a method and full path; a handler
      registered with `app.get` also answers HEAD. */
  function RouteOf(httpMethod: string, path: string): (r: Option<Route>)
    ensures r.Some? ==> UnderApi(path) && MountRelativePath(path) !in ExemptPaths
    ensures r == Some(MePath) ==> httpMethod in SafeMethods
    ensures r.Some? && r != Some(MePath) ==> httpMethod == "POST" && httpMethod !in SafeMethods
  {
    if httpMethod == "POST" && path == "/api/csrf-token" then Some(CsrfTokenPath)
    else if httpMethod == "POST" && path == "/api/auth/signup" then Some(SignupPath)
    else if httpMethod == "POST" && path == "/api/auth/login" then Some(LoginPath)
    else if (httpMethod == "GET" || httpMethod == "HEAD") && path == "/api/auth/me" then Some(MePath)
    else if httpMethod == "POST" && path == "/api/payment/complete" then Some(PaymentPath)
    else None
  }

  /** The routes that carry their own limiter (signupLimiter, authLimiter,
      paymentLimiter). */
  predicate RouteLimited(r: Route)
  {
    r == SignupPath || r == LoginPath || r == PaymentPath
  }

  datatype ApiRequest = ApiRequest(httpMethod: string, path: string, session: Option<Session>,
                                   csrfHeader: Option<string>, body: Fields)

  /** What the environment decides for one request: the two limiters'
      verdicts, and the values randomUUID, the clock and secretSync give. */
  datatype Env = Env(generalAllows: bool, routeAllows: bool, newUserId: UserId, now: int, secret: string)

  /** The request as the CSRF guard sees it. */
  function GuardView(req: ApiRequest): Request
  {
    Request(req.httpMethod, req.path, req.session, req.csrfHeader)
  }

  /** One request under "/api", in the order the server registers its
      stages: the general limiter, then the CSRF guard as mounted on "/api",
      then the route's own limiter and handler. `handled` names the handler
      that ran, if any; `resp` is `None` when no covered handler matches. */
  method HandleApi(storage: MemStorage, guard: CsrfTokens, codec: PasswordCodec, req: ApiRequest, env: Env)
    returns (resp: Option<Response>, session': Option<Session>, handled: Option<Route>)
    requires UnderApi(req.path)
    requires storage.Valid()
    requires env.newUserId !in storage.users
    modifies storage, guard
    ensures storage.Valid()
    ensures handled.None? ==> unchanged(storage, guard) && session' == req.session
    ensures handled.Some? ==>
              && resp.Some?
              && env.generalAllows
              && CsrfAsMounted(GuardView(req), old(guard.secrets), guard.tokens) == Next
              && RouteOf(req.httpMethod, req.path) == handled
              && (RouteLimited(handled.value) ==> env.routeAllows)
    ensures !env.generalAllows ==> resp == Some(Response(TooManyRequests, Throttled))
    ensures env.generalAllows && CsrfAsMounted(GuardView(req), old(guard.secrets), guard.tokens).Deny? ==>
              var v := CsrfAsMounted(GuardView(req), old(guard.secrets), guard.tokens);
              resp == Some(Response(v.status, ErrorBody(v.error)))
    ensures env.generalAllows && CsrfAsMounted(GuardView(req), old(guard.secrets), guard.tokens) == Next ==>
              var route := RouteOf(req.httpMethod, req.path);
              && (route.None? ==> resp.None? && handled.None?)
              && (route.Some? && RouteLimited(route.value) && !env.routeAllows ==>
                    resp == Some(Response(TooManyRequests, Throttled)) && handled.None?)
              && (route.Some? && (RouteLimited(route.value) ==> env.routeAllows) ==> handled == route)
    ensures handled == Some(MePath) || handled == Some(LoginPath) ==> unchanged(storage, guard)
    ensures handled == Some(CsrfTokenPath) ==> unchanged(storage)
    ensures handled == Some(SignupPath) || handled == Some(PaymentPath) ==> unchanged(guard)
    ensures handled != Some(LoginPath) ==> session' == req.session
    // Every handled state-changing request carried a session and a token
    // that verifies under that session's secret.
    ensures handled.Some? && req.httpMethod !in SafeMethods ==>
              && SignedIn(req.session) && Truthy(req.csrfHeader)
              && VerifyCsrfToken(old(guard.secrets), guard.tokens, req.session.value.userId, req.csrfHeader.value)
    // What the handler that ran returns and changes.
    ensures handled == Some(CsrfTokenPath) ==>
              && SignedIn(req.session)
              && guard.secrets == old(guard.secrets)[req.session.value.userId := env.secret]
              && resp == Some(Response(Ok, TokenBody(guard.tokens.create(env.secret))))
    ensures handled == Some(SignupPath) ==>
              && SignedIn(req.session)
              && (!(Truthy(req.body.name) && Truthy(req.body.email) && Truthy(req.body.password)) ==>
                    && resp == Some(Response(BadRequest, ErrorBody(MissingFields)))
                    && storage.users == old(storage.users) && storage.order == old(storage.order))
              && (Truthy(req.body.name) && Truthy(req.body.email) && Truthy(req.body.password) ==>
                    var (r, after) := Register(old(storage.Values()), codec, req.body.name.value, req.body.email.value,
                                               req.body.password.value, env.newUserId, env.now);
                    && storage.Values() == after
                    && (r.Rejected? ==> resp == Some(Response(BadRequest, ErrorBody(r.error)))
                                        && storage.users == old(storage.users) && storage.order == old(storage.order))
                    && (r.Authenticated? ==> resp == Some(Response(Ok, UserBody(r.user)))))
    ensures handled == Some(LoginPath) ==>
              && SignedIn(req.session)
              && (!(Truthy(req.body.email) && Truthy(req.body.password)) ==>
                    resp == Some(Response(BadRequest, ErrorBody(MissingCredentials))) && session' == req.session)
              && (Truthy(req.body.email) && Truthy(req.body.password) ==>
                    var r := Login(storage.Values(), codec, req.body.email.value, req.body.password.value);
                    && (r.Rejected? ==> resp == Some(Response(Unauthorized, ErrorBody(InvalidCredentials)))
                                        && session' == req.session)
                    && (r.Authenticated? ==> resp == Some(Response(Ok, UserBody(r.user)))
                                             && session' == Some(Session(r.user.id))))
    ensures handled == Some(MePath) ==>
              && (!SignedIn(req.session) ==> resp == Some(Response(Unauthorized, ErrorBody(NotAuthenticated))))
              && (SignedIn(req.session) && req.session.value.userId !in storage.users ==>
                    resp == Some(Response(NotFound, ErrorBody(UserNotFound))))
              && (SignedIn(req.session) && req.session.value.userId in storage.users ==>
                    var u := storage.users[req.session.value.userId];
                    resp == Some(Response(Ok, MeBody(req.session.value.userId, u.email, u.name, u.hasPaid))))
    ensures handled == Some(PaymentPath) ==>
              && SignedIn(req.session)
              && storage.order == old(storage.order)
              && (req.session.value.userId !in old(storage.users) ==>
                    resp == Some(Response(NotFound, ErrorBody(UserNotFound))) && storage.users == old(storage.users))
              && (req.session.value.userId in old(storage.users) ==>
                    && resp == Some(Response(Ok, PaymentBody(true, true)))
                    && storage.users == WithPayment(old(storage.users), req.session.value.userId, true))
  {
    session', handled := req.session, None;
    if !env.generalAllows {
      return Some(Response(TooManyRequests, Throttled)), session', handled;
    }
    var verdict := CsrfAsMounted(GuardView(req), guard.secrets, guard.tokens);
    if verdict.Deny? {
      return Some(Response(verdict.status, ErrorBody(verdict.error))), session', handled;
    }
    var route := RouteOf(req.httpMethod, req.path);
    if route.None? {
      return None, session', handled;
    }
    if RouteLimited(route.value) && !env.routeAllows {
      return Some(Response(TooManyRequests, Throttled)), session', handled;
    }
    handled := route;
    var r: Response;
    match route.value {
      case CsrfTokenPath =>
        r := HandleCsrfToken(guard, req.session, env.secret);
      case SignupPath =>
        r := HandleSignup(storage, codec, req.body, env.newUserId, env.now);
      case LoginPath =>
        r, session' := HandleLogin(storage, codec, req.body, req.session);
      case MePath =>
        r := HandleMe(storage, req.session);
      case PaymentPath =>
        r := HandlePaymentComplete(storage, req.session);
    }
    resp := Some(r);
  }
}
