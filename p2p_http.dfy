/**
 * src/P2PHttp.cpp: which control routes exist, under which paths and flags,
 * and what a request to each of them produces in either build (with or
 * without the middleware layer), gate included.
 */
module P2PHttp {
  import opened Wrappers
  import opened Http
  import opened Options
  import opened Paths
  import AuthHook
  import HeavyTag

  /** Whether the code is built with the middleware layer. */
  datatype BuildMode = Legacy | WithMiddleware

  // ---------------------------------------------------------------------
  // Envelopes written by this file

  /** The rejection envelope of `legacy_auth_or_401`. */
  const LegacyUnauthorized: Envelope := [
    Field("ok", JBool(false)),
    Field("error", JStr("unauthorized")),
    Field("hint", JStr("auth required"))
  ]

  const PingBody: Envelope := [
    Field("ok", JBool(true)),
    Field("pong", JBool(true)),
    Field("module", JStr("p2p_http"))
  ]

  const StatusBody: Envelope := [
    Field("ok", JBool(true)),
    Field("status", JStr("ok")),
    Field("module", JStr("p2p_http"))
  ]

  const NotImplementedBody: Envelope := [
    Field("ok", JBool(false)),
    Field("status", JInt(501)),
    Field("error", JStr("not_implemented")),
    Field("message", JStr("p2p_http: admin endpoint planned"))
  ]

  // ---------------------------------------------------------------------
  // legacy_auth_or_401

  /**
   * Without a legacy hook: status 401 with the rejection envelope, and false.
   * With one: exactly the hook's verdict, and the response exactly as the
   * hook left it; the check itself writes nothing.
   */
  function LegacyAuth(opt: P2PHttpOptions, x: Exchange): (s: Step)
    ensures HandlerRuns(s.x) == HandlerRuns(x)
    ensures opt.authLegacy.None? ==>
      && !s.proceed
      && s.x.res == Response(401, x.res.headers, Some(LegacyUnauthorized))
      && s.x.log == x.log
    ensures opt.authLegacy.Some? ==>
      && s.proceed == opt.authLegacy.value(x.res).ok
      && s.x.res == opt.authLegacy.value(x.res).res
      && s.x.log == x.log + [HookInvoked]
  {
    match opt.authLegacy
    case None => Step(WithJson(WithStatus(x, 401), LegacyUnauthorized), false)
    case Some(h) => Invoke(h, x)
  }

  method LegacyAuthOr401(opt: P2PHttpOptions, ctx: Context) returns (ok: bool)
    modifies ctx
    ensures Step(ctx.View(), ok) == LegacyAuth(opt, old(ctx.View()))
  {
    if opt.authLegacy.None? {
      ctx.SetStatus(401);
      ctx.SetJson(LegacyUnauthorized);
      return false;
    }
    ok := ctx.CallHook(opt.authLegacy.value);
  }

  /**
   * A missing hook produces the same rejection in both builds, so the shape
   * of a 401 does not tell which build answered.
   */
  lemma RejectionsAgree(opt: P2PHttpOptions, x: Exchange)
    requires opt.authLegacy.None?
    ensures LegacyAuth(opt, x) == AuthHook.Gate(None, x)
  {
  }

  // ---------------------------------------------------------------------
  // install_route_middlewares

  /** The two middleware the route-level install can put in front of a handler. */
  datatype Middleware = AuthCtx | HeavyMarker

  /**
   * The chain installed for a route: the auth middleware exactly when the
   * route requires auth, the heavy marker exactly when it is heavy, auth
   * always before heavy, and nothing for a route with neither flag.
   */
  function MiddlewareChain(ro: RouteOptions): (c: seq<Middleware>)
    ensures c == [] <==> !ro.heavy && !ro.requireAuth
    ensures AuthCtx in c <==> ro.requireAuth
    ensures HeavyMarker in c <==> ro.heavy
    ensures |c| <= 2 && (|c| == 2 ==> c[0] == AuthCtx && c[1] == HeavyMarker)
  {
    if !ro.heavy && !ro.requireAuth then []
    else if ro.requireAuth && ro.heavy then [AuthCtx, HeavyMarker]
    else if ro.requireAuth then [AuthCtx]
    else [HeavyMarker]
  }

  /** A chain installed on one exact path. */
  datatype Install = Install(path: string, chain: seq<Middleware>)

  /** What `install_route_middlewares` adds for a route. */
  function InstallFor(path: string, ro: RouteOptions): seq<Install>
  {
    if MiddlewareChain(ro) == [] then [] else [Install(path, MiddlewareChain(ro))]
  }

  // ---------------------------------------------------------------------
  // registerRoutes

  datatype Verb = Get | Post

  /** Which of the three handlers a route runs. */
  datatype Kind = Ping | Status | AdminHook

  datatype Route = Route(verb: Verb, path: string, flags: RouteOptions, kind: Kind)

  const AdminFlags := RouteOptions(heavy := true, requireAuth := true)

  /** The base every route path hangs off: the prefix, or "/p2p" when it is empty. */
  function Base(opt: P2PHttpOptions): string
  {
    if opt.prefix == [] then "/p2p" else opt.prefix
  }

  function SubPath(k: Kind): string
  {
    match k
    case Ping => "/ping"
    case Status => "/status"
    case AdminHook => "/admin/hook"
  }

  /** The route of kind `k` under `base`, its path built by `join_prefix`. */
  function KindRoute(base: string, verb: Verb, flags: RouteOptions, k: Kind): Route
  {
    Route(verb, Join(base, SubPath(k)), flags, k)
  }

  function PingRoute(opt: P2PHttpOptions): Route
  {
    KindRoute(Base(opt), Get, DefaultRouteOptions, Ping)
  }

  function StatusRoute(opt: P2PHttpOptions): Route
  {
    KindRoute(Base(opt), Get, DefaultRouteOptions, Status)
  }

  function AdminRoute(opt: P2PHttpOptions): Route
  {
    KindRoute(Base(opt), Post, AdminFlags, AdminHook)
  }

  /** The ping route, when enabled. */
  function PingRoutes(opt: P2PHttpOptions): seq<Route>
  {
    if opt.enablePing then [PingRoute(opt)] else []
  }

  /** The status route, when enabled. */
  function StatusRoutes(opt: P2PHttpOptions): seq<Route>
  {
    if opt.enableStatus then [StatusRoute(opt)] else []
  }

  /** The routes `registerRoutes` registers, in registration order. */
  function RouteTable(opt: P2PHttpOptions): seq<Route>
  {
    PingRoutes(opt) + StatusRoutes(opt) + [AdminRoute(opt)]
  }

  /** What registering one route installs: its chain, in the middleware build only. */
  function ModeInstalls(mode: BuildMode, r: Route): seq<Install>
  {
    if mode == WithMiddleware then InstallFor(r.path, r.flags) else []
  }

  /** What the ping block installs. */
  function PingInstalls(mode: BuildMode, opt: P2PHttpOptions): seq<Install>
  {
    if opt.enablePing then ModeInstalls(mode, PingRoute(opt)) else []
  }

  /** What the status block installs. */
  function StatusInstalls(mode: BuildMode, opt: P2PHttpOptions): seq<Install>
  {
    if opt.enableStatus then ModeInstalls(mode, StatusRoute(opt)) else []
  }

  /** The middleware `registerRoutes` installs, in order. */
  function Installs(mode: BuildMode, opt: P2PHttpOptions): seq<Install>
  {
    PingInstalls(mode, opt) + StatusInstalls(mode, opt) + ModeInstalls(mode, AdminRoute(opt))
  }

  /** The application's routing table, as far as these routes are concerned. */
  class App {
    var routes: seq<Route>
    var installs: seq<Install>

    constructor ()
      ensures routes == [] && installs == []
    {
      routes, installs := [], [];
    }

    /** `app.get` / `app.post`: the handler is identified by the route's kind. */
    method Register(r: Route)
      modifies this
      ensures routes == old(routes) + [r] && installs == old(installs)
    {
      routes := routes + [r];
    }

    /** `install_exact`: a middleware chain for one exact path. */
    method InstallExact(path: string, chain: seq<Middleware>)
      modifies this
      ensures installs == old(installs) + [Install(path, chain)] && routes == old(routes)
    {
      installs := installs + [Install(path, chain)];
    }
  }

  method InstallRouteMiddlewares(app: App, path: string, ro: RouteOptions)
    modifies app
    ensures app.routes == old(app.routes)
    ensures app.installs == old(app.installs) + InstallFor(path, ro)
  {
    if !ro.heavy && !ro.requireAuth {
      return;
    }
    if ro.requireAuth && ro.heavy {
      app.InstallExact(path, [AuthCtx, HeavyMarker]);
      return;
    }
    if ro.requireAuth {
      app.InstallExact(path, [AuthCtx]);
      return;
    }
    app.InstallExact(path, [HeavyMarker]);
  }

  /** One `app.get`/`app.post` followed, in the middleware build, by its middleware install. */
  method RegisterRoute(app: App, r: Route, mode: BuildMode)
    modifies app
    ensures app.routes == old(app.routes) + [r]
    ensures app.installs == old(app.installs) + ModeInstalls(mode, r)
  {
    app.Register(r);
    if mode == WithMiddleware {
      InstallRouteMiddlewares(app, r.path, r.flags);
    }
  }

  /** Registers the route for sub-path `k` under `base`, its path built by `join_prefix`. */
  method RegisterKind(app: App, base: string, verb: Verb, flags: RouteOptions, k: Kind, mode: BuildMode)
    modifies app
    ensures app.routes == old(app.routes) + [KindRoute(base, verb, flags, k)]
    ensures app.installs == old(app.installs) + ModeInstalls(mode, KindRoute(base, verb, flags, k))
  {
    var path := JoinPrefix(base, SubPath(k));
    RegisterRoute(app, Route(verb, path, flags, k), mode);
  }

  method RegisterRoutes(app: App, opt: P2PHttpOptions, mode: BuildMode)
    modifies app
    ensures app.routes == old(app.routes) + RouteTable(opt)
    ensures app.installs == old(app.installs) + Installs(mode, opt)
  {
    var base := if opt.prefix == [] then "/p2p" else opt.prefix;
    assert base == Base(opt);
    ghost var routes0, installs0 := app.routes, app.installs;

    if opt.enablePing {
      RegisterKind(app, base, Get, DefaultRouteOptions, Ping, mode);
    }
    ghost var routes1, installs1 := app.routes, app.installs;
    assert routes1 == routes0 + PingRoutes(opt);
    assert installs1 == installs0 + PingInstalls(mode, opt);

    if opt.enableStatus {
      RegisterKind(app, base, Get, DefaultRouteOptions, Status, mode);
    }
    ghost var routes2, installs2 := app.routes, app.installs;
    assert routes2 == routes1 + StatusRoutes(opt);
    assert installs2 == installs1 + StatusInstalls(mode, opt);

    RegisterKind(app, base, Post, AdminFlags, AdminHook, mode);
    assert app.routes == routes2 + [AdminRoute(opt)];
    assert app.installs == installs2 + ModeInstalls(mode, AdminRoute(opt));
    AppendThree(routes0, PingRoutes(opt), StatusRoutes(opt), [AdminRoute(opt)]);
    AppendThree(installs0, PingInstalls(mode, opt), StatusInstalls(mode, opt), ModeInstalls(mode, AdminRoute(opt)));
  }

  lemma AppendThree<T>(s: seq<T>, a: seq<T>, b: seq<T>, c: seq<T>)
    ensures s + (a + b + c) == s + a + b + c
  {
  }

  // ---------------------------------------------------------------------
  // Properties of the route table

  /** A registered route is one of the three, each present only when enabled. */
  lemma TableRouteCases(opt: P2PHttpOptions, route: Route)
    requires route in RouteTable(opt)
    ensures || (route == PingRoute(opt) && opt.enablePing)
            || (route == StatusRoute(opt) && opt.enableStatus)
            || route == AdminRoute(opt)
  {
  }

  /** One route per enabled endpoint, plus the admin hook, which is always last. */
  lemma RouteTableShape(opt: P2PHttpOptions)
    ensures |RouteTable(opt)| == 1 + (if opt.enablePing then 1 else 0) + (if opt.enableStatus then 1 else 0)
    ensures RouteTable(opt)[|RouteTable(opt)| - 1] == AdminRoute(opt)
    ensures opt.enablePing ==> RouteTable(opt)[0] == PingRoute(opt)
  {
  }

  /** The ping route exists exactly when enabled, and so does the status route. */
  lemma RoutePresence(opt: P2PHttpOptions)
    ensures (exists r :: r in RouteTable(opt) && r.kind == Ping) <==> opt.enablePing
    ensures (exists r :: r in RouteTable(opt) && r.kind == Status) <==> opt.enableStatus
    ensures exists r :: r in RouteTable(opt) && r.kind == AdminHook
  {
    var t := RouteTable(opt);
    assert AdminRoute(opt) in t;
    if opt.enablePing {
      assert PingRoute(opt) in t;
    }
    if opt.enableStatus {
      assert StatusRoute(opt) in t;
    }
    forall r | r in t
      ensures r.kind == Ping ==> opt.enablePing
      ensures r.kind == Status ==> opt.enableStatus
    {
      TableRouteCases(opt, r);
    }
  }

  /**
   * Every path is the base joined with the route's sub-path, and is a
   * well-formed route path; only the admin hook is a POST, and only it
   * carries flags (heavy and auth).
   */
  lemma RouteShapes(opt: P2PHttpOptions, route: Route)
    requires route in RouteTable(opt)
    ensures route.path == Join(Base(opt), SubPath(route.kind))
    ensures IsRoutePath(route.path)
    ensures route.verb == Post <==> route.kind == AdminHook
    ensures route.flags == (if route.kind == AdminHook then AdminFlags else DefaultRouteOptions)
  {
    TableRouteCases(opt, route);
    JoinIsRoutePath(Base(opt), SubPath(route.kind));
  }

  /** The base is "/p2p" when the prefix is empty, and so are the paths under it. */
  lemma EmptyPrefixPaths(opt: P2PHttpOptions)
    requires opt.prefix == []
    ensures Base(opt) == "/p2p"
    ensures PingRoute(opt).path == "/p2p/ping"
    ensures StatusRoute(opt).path == "/p2p/status"
    ensures AdminRoute(opt).path == "/p2p/admin/hook"
  {
    JoinDefaultPaths();
  }

  lemma KindPathsDiffer(opt: P2PHttpOptions)
    ensures PingRoute(opt).path != StatusRoute(opt).path
    ensures PingRoute(opt).path != AdminRoute(opt).path
    ensures StatusRoute(opt).path != AdminRoute(opt).path
  {
    var base := Base(opt);
    var b := Normalize(base);
    NormalizeShape(base);
    NormalizeFixesRoutePaths("/ping");
    NormalizeFixesRoutePaths("/status");
    NormalizeFixesRoutePaths("/admin/hook");
    JoinNonEmptyBase(base, "/ping");
    JoinNonEmptyBase(base, "/status");
    JoinNonEmptyBase(base, "/admin/hook");
    assert PingRoute(opt).path[|b| + 1] == 'p';
    assert StatusRoute(opt).path[|b| + 1] == 's';
    assert AdminRoute(opt).path[|b| + 1] == 'a';
  }

  /** No two registered routes share a path, whatever the prefix. */
  lemma RoutePathsDistinct(opt: P2PHttpOptions)
    ensures forall i, j :: 0 <= i < j < |RouteTable(opt)| ==> RouteTable(opt)[i].path != RouteTable(opt)[j].path
  {
    KindPathsDiffer(opt);
  }

  /** Only the admin hook is wrapped, by auth then heavy, and only in the middleware build. */
  lemma OnlyAdminIsWrapped(opt: P2PHttpOptions)
    ensures Installs(WithMiddleware, opt) == [Install(AdminRoute(opt).path, [AuthCtx, HeavyMarker])]
    ensures Installs(Legacy, opt) == []
  {
  }

  /** The middleware the installs put in front of `path`, chain after chain, in install order. */
  function InstalledChain(installs: seq<Install>, path: string): seq<Middleware>
    decreases |installs|
  {
    if installs == [] then []
    else (if installs[0].path == path then installs[0].chain else []) + InstalledChain(installs[1..], path)
  }

  /**
   * What `RegisterRoutes` installs in the middleware build is what a request
   * to a registered route runs: the installs on its path make up exactly the
   * chain `Serve` puts in front of its handler.
   */
  lemma InstalledChainIsServed(opt: P2PHttpOptions, r: Route)
    requires r in RouteTable(opt)
    ensures InstalledChain(Installs(WithMiddleware, opt), r.path) == MiddlewareChain(r.flags)
  {
    var ins := Installs(WithMiddleware, opt);
    OnlyAdminIsWrapped(opt);
    KindPathsDiffer(opt);
    TableRouteCases(opt, r);
    assert ins[1..] == [];
  }

  /** The routes and middleware of the default options. */
  lemma DefaultRegistration()
    ensures RouteTable(DefaultOptions) == [
      Route(Get, "/p2p/ping", DefaultRouteOptions, Ping),
      Route(Get, "/p2p/status", DefaultRouteOptions, Status),
      Route(Post, "/p2p/admin/hook", AdminFlags, AdminHook)
    ]
    ensures Installs(WithMiddleware, DefaultOptions) == [Install("/p2p/admin/hook", [AuthCtx, HeavyMarker])]
  {
    JoinDefaultPaths();
  }

  // ---------------------------------------------------------------------
  // Serving a request

  /** The hook the build consults: the context hook with middleware, the legacy hook without. */
  function ActiveHook(mode: BuildMode, opt: P2PHttpOptions): Option<Hook>
  {
    if mode == WithMiddleware then opt.authCtx else opt.authLegacy
  }

  /** The admin handler's own answer: 501 and the not-implemented envelope. */
  function NotImplemented(x: Exchange): Exchange
  {
    WithJson(WithStatus(Handled(x), 501), NotImplementedBody)
  }

  /**
   * The handler registered for a route. In the build without middleware the
   * admin handler first runs the inline auth check and heavy marker itself.
   */
  function Handler(mode: BuildMode, opt: P2PHttpOptions, route: Route, x: Exchange): Exchange
  {
    match route.kind
    case Ping => WithJson(Handled(x), PingBody)
    case Status => WithJson(Handled(x), StatusBody)
    case AdminHook =>
      if mode == WithMiddleware then NotImplemented(x)
      else
        var gate := if route.flags.requireAuth then LegacyAuth(opt, x) else Step(x, true);
        if !gate.proceed then gate.x
        else if route.flags.heavy then NotImplemented(WithHeader(gate.x, HeavyTag.HeavyHeader, "1"))
        else NotImplemented(gate.x)
  }

  method Handle(mode: BuildMode, opt: P2PHttpOptions, route: Route, ctx: Context)
    modifies ctx
    ensures ctx.View() == Handler(mode, opt, route, old(ctx.View()))
  {
    match route.kind {
      case Ping =>
        ctx.MarkHandled();
        ctx.SetJson(PingBody);
      case Status =>
        ctx.MarkHandled();
        ctx.SetJson(StatusBody);
      case AdminHook =>
        if mode == Legacy {
          if route.flags.requireAuth {
            var ok := LegacyAuthOr401(opt, ctx);
            if !ok {
              return;
            }
          }
          if route.flags.heavy {
            ctx.SetHeader(HeavyTag.HeavyHeader, "1");
          }
        }
        ctx.MarkHandled();
        ctx.SetStatus(501);
        ctx.SetJson(NotImplementedBody);
    }
  }

  function RunMiddleware(m: Middleware, opt: P2PHttpOptions, x: Exchange): Step
  {
    match m
    case AuthCtx => AuthHook.Gate(opt.authCtx, x)
    case HeavyMarker => HeavyTag.Mark(x)
  }

  /** A chain in front of the handler: each middleware either hands on or ends the request. */
  function RunChain(chain: seq<Middleware>, mode: BuildMode, opt: P2PHttpOptions, route: Route, x: Exchange): Exchange
    decreases |chain|
  {
    if chain == [] then Handler(mode, opt, route, x)
    else
      var s := RunMiddleware(chain[0], opt, x);
      if s.proceed then RunChain(chain[1..], mode, opt, route, s.x) else s.x
  }

  /** The outcome of a request to a route: its installed chain (middleware build only), then its handler. */
  function Serve(mode: BuildMode, opt: P2PHttpOptions, route: Route, x: Exchange): Exchange
  {
    var chain := if mode == WithMiddleware then MiddlewareChain(route.flags) else [];
    RunChain(chain, mode, opt, route, x)
  }

  method RunMiddlewareOn(m: Middleware, opt: P2PHttpOptions, ctx: Context) returns (next: bool)
    modifies ctx
    ensures Step(ctx.View(), next) == RunMiddleware(m, opt, old(ctx.View()))
  {
    match m {
      case AuthCtx => next := AuthHook.Run(opt.authCtx, ctx);
      case HeavyMarker => next := HeavyTag.Run(ctx);
    }
  }

  method Dispatch(chain: seq<Middleware>, mode: BuildMode, opt: P2PHttpOptions, route: Route, ctx: Context)
    modifies ctx
    ensures ctx.View() == RunChain(chain, mode, opt, route, old(ctx.View()))
    decreases |chain|
  {
    if chain == [] {
      Handle(mode, opt, route, ctx);
      return;
    }
    var next := RunMiddlewareOn(chain[0], opt, ctx);
    if next {
      Dispatch(chain[1..], mode, opt, route, ctx);
    }
  }

  method ServeRequest(mode: BuildMode, opt: P2PHttpOptions, route: Route, ctx: Context)
    modifies ctx
    ensures ctx.View() == Serve(mode, opt, route, old(ctx.View()))
  {
    var chain := if mode == WithMiddleware then MiddlewareChain(route.flags) else [];
    Dispatch(chain, mode, opt, route, ctx);
  }

  // ---------------------------------------------------------------------
  // Properties of the gate

  /** A route without flags gets no middleware: the request goes straight to its handler. */
  lemma UnflaggedRouteIsUnwrapped(mode: BuildMode, opt: P2PHttpOptions, route: Route, x: Exchange)
    requires route.flags == DefaultRouteOptions
    ensures Serve(mode, opt, route, x) == Handler(mode, opt, route, x)
  {
    assert MiddlewareChain(route.flags) == [];
  }

  /**
   * A heavy route that does not require auth never blocks in the middleware
   * build: its handler always runs, on a response that already carries the
   * heavy header.
   */
  lemma HeavyMarkerNeverBlocks(opt: P2PHttpOptions, route: Route, x: Exchange)
    requires route.flags == RouteOptions(heavy := true, requireAuth := false)
    ensures Serve(WithMiddleware, opt, route, x) == Handler(WithMiddleware, opt, route, HeavyTag.Mark(x).x)
    ensures HandlerRuns(Serve(WithMiddleware, opt, route, x)) == HandlerRuns(x) + 1
  {
    var c := MiddlewareChain(route.flags);
    assert c == [HeavyMarker];
    assert c[1..] == [];
    var y := HeavyTag.Mark(x).x;
    assert Serve(WithMiddleware, opt, route, x) == RunChain([], WithMiddleware, opt, route, y);
    assert HandlerRuns(y) == HandlerRuns(x);
    assert Handler(WithMiddleware, opt, route, y).log == y.log + [HandlerRan];
  }

  /** With both flags the auth middleware runs first, and the heavy marker only after it handed on. */
  lemma AuthBeforeHeavy(opt: P2PHttpOptions, route: Route, x: Exchange)
    requires route.flags == AdminFlags
    ensures var g := AuthHook.Gate(opt.authCtx, x);
      Serve(WithMiddleware, opt, route, x)
        == if g.proceed then Handler(WithMiddleware, opt, route, HeavyTag.Mark(g.x).x) else g.x
  {
    var c := MiddlewareChain(route.flags);
    assert c == [AuthCtx, HeavyMarker];
    assert c[1..] == [HeavyMarker];
    assert c[1..][1..] == [];
    var g := AuthHook.Gate(opt.authCtx, x);
    if g.proceed {
      assert Serve(WithMiddleware, opt, route, x) == RunChain([HeavyMarker], WithMiddleware, opt, route, g.x);
      assert RunChain([HeavyMarker], WithMiddleware, opt, route, g.x)
          == RunChain([], WithMiddleware, opt, route, HeavyTag.Mark(g.x).x);
    }
  }

  /**
   * The admin route in either build: the gate of the build (the installed
   * auth middleware, or the inline legacy check), then on a positive
   * verdict the heavy header and the 501 answer.
   */
  lemma AdminOutcome(mode: BuildMode, opt: P2PHttpOptions, x: Exchange)
    ensures var g := if mode == WithMiddleware then AuthHook.Gate(opt.authCtx, x) else LegacyAuth(opt, x);
      Serve(mode, opt, AdminRoute(opt), x)
        == if g.proceed then NotImplemented(WithHeader(g.x, HeavyTag.HeavyHeader, "1")) else g.x
  {
    if mode == WithMiddleware {
      AuthBeforeHeavy(opt, AdminRoute(opt), x);
    } else {
      assert Serve(mode, opt, AdminRoute(opt), x) == Handler(mode, opt, AdminRoute(opt), x);
    }
  }

  /** The hook-call and handler-run counts of the admin handler's answer. */
  lemma NotImplementedCounts(x: Exchange)
    ensures HookCalls(NotImplemented(WithHeader(x, HeavyTag.HeavyHeader, "1"))) == HookCalls(x)
    ensures HandlerRuns(NotImplemented(WithHeader(x, HeavyTag.HeavyHeader, "1"))) == HandlerRuns(x) + 1
  {
    assert NotImplemented(WithHeader(x, HeavyTag.HeavyHeader, "1")).log == x.log + [HandlerRan];
  }

  /**
   * Fail closed: a route that requires auth, with no hook configured for the
   * build, answers 401 with the rejection envelope, calls no hook and never
   * runs its handler.
   */
  lemma FailClosed(mode: BuildMode, opt: P2PHttpOptions, route: Route, x: Exchange)
    requires route in RouteTable(opt) && route.flags.requireAuth
    requires ActiveHook(mode, opt).None?
    ensures Serve(mode, opt, route, x).res == Response(401, x.res.headers, Some(AuthHook.Unauthorized))
    ensures Serve(mode, opt, route, x).log == x.log
  {
    TableRouteCases(opt, route);
    AdminOutcome(mode, opt, x);
  }

  /**
   * A negative verdict ends the request with the response exactly as the
   * hook left it: no heavy header, no 501, no handler.
   */
  lemma DeniedRequestStops(mode: BuildMode, opt: P2PHttpOptions, route: Route, x: Exchange)
    requires route in RouteTable(opt) && route.flags.requireAuth
    requires ActiveHook(mode, opt).Some? && !ActiveHook(mode, opt).value(x.res).ok
    ensures Serve(mode, opt, route, x) == Exchange(ActiveHook(mode, opt).value(x.res).res, x.log + [HookInvoked])
  {
    TableRouteCases(opt, route);
    AdminOutcome(mode, opt, x);
  }

  /**
   * A positive verdict on the admin route: the heavy header is set on the
   * response the hook left, then the handler answers 501 with the
   * not-implemented envelope.
   */
  lemma AllowedAdminRequest(mode: BuildMode, opt: P2PHttpOptions, route: Route, x: Exchange)
    requires route in RouteTable(opt) && route.flags.requireAuth
    requires ActiveHook(mode, opt).Some? && ActiveHook(mode, opt).value(x.res).ok
    ensures var after := ActiveHook(mode, opt).value(x.res).res;
      Serve(mode, opt, route, x) == Exchange(
        Response(501, after.headers[HeavyTag.HeavyHeader := "1"], Some(NotImplementedBody)),
        x.log + [HookInvoked, HandlerRan])
  {
    TableRouteCases(opt, route);
    AdminOutcome(mode, opt, x);
    assert x.log + [HookInvoked] + [HandlerRan] == x.log + [HookInvoked, HandlerRan];
  }

  /** Ping and status are not gated: the handler runs and only sets its body. */
  lemma OpenRoutesAnswer(mode: BuildMode, opt: P2PHttpOptions, route: Route, x: Exchange)
    requires route in RouteTable(opt) && route.kind != AdminHook
    ensures Serve(mode, opt, route, x) == Exchange(
      x.res.(body := Some(if route.kind == Ping then PingBody else StatusBody)),
      x.log + [HandlerRan])
  {
    TableRouteCases(opt, route);
    UnflaggedRouteIsUnwrapped(mode, opt, route, x);
  }

  /**
   * The two builds answer every registered route alike when the legacy hook
   * behaves as the context hook does: the inline checks of the build without
   * middleware and the installed chain are the same gate.
   */
  lemma BuildsAgree(opt: P2PHttpOptions, route: Route, x: Exchange)
    requires route in RouteTable(opt)
    ensures Serve(Legacy, opt.(authLegacy := opt.authCtx), route, x) == Serve(WithMiddleware, opt, route, x)
  {
    var legacy := opt.(authLegacy := opt.authCtx);
    TableRouteCases(opt, route);
    if route.kind == AdminHook {
      assert AdminRoute(legacy) == AdminRoute(opt);
      AdminOutcome(Legacy, legacy, x);
      AdminOutcome(WithMiddleware, opt, x);
      assert LegacyAuth(legacy, x) == AuthHook.Gate(opt.authCtx, x);
    } else {
      UnflaggedRouteIsUnwrapped(Legacy, legacy, route, x);
      UnflaggedRouteIsUnwrapped(WithMiddleware, opt, route, x);
    }
  }

  /** Every registered route calls a hook at most once, and never when none applies; its handler runs at most once. */
  lemma HookCalledAtMostOnce(mode: BuildMode, opt: P2PHttpOptions, route: Route, x: Exchange)
    requires route in RouteTable(opt)
    ensures HookCalls(Serve(mode, opt, route, x)) <= HookCalls(x) + 1
    ensures ActiveHook(mode, opt).None? || !route.flags.requireAuth ==>
      HookCalls(Serve(mode, opt, route, x)) == HookCalls(x)
    ensures HandlerRuns(Serve(mode, opt, route, x)) <= HandlerRuns(x) + 1
  {
    TableRouteCases(opt, route);
    if route.kind == AdminHook {
      AdminOutcome(mode, opt, x);
      var g := if mode == WithMiddleware then AuthHook.Gate(opt.authCtx, x) else LegacyAuth(opt, x);
      NotImplementedCounts(g.x);
    } else {
      OpenRoutesAnswer(mode, opt, route, x);
    }
  }
}
