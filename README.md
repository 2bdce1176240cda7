# p2p_http control endpoints, modelled in Dafny

This project models the core of the `vix::p2p_http` module, which registers the HTTP control endpoints of a P2P runtime on a Vix application. It covers three things:

- **Route path construction.** `join_prefix` normalises a base prefix and a sub-path and joins them. It is modelled as an imperative method with the two `pop_back` loops, proved against the pure function `Paths.Join`.
- **The route table.** `registerRoutes` registers `GET <base>/ping` when ping is enabled, `GET <base>/status` when status is enabled, and always `POST <base>/admin/hook`, which carries the `heavy` and `require_auth` flags. The base is `/p2p` when the prefix is empty. In the middleware build each route is followed by `install_route_middlewares`.
- **The gate.** It has two forms:
  - The build without middleware runs `legacy_auth_or_401` inside the admin handler, then sets the heavy header.
  - The middleware build installs the `auth_hook` middleware before the `heavy_tag` middleware on flagged routes.

  Both fail closed: with no hook configured they answer 401 with `{ok:false, error:"unauthorized", hint:"auth required"}`. With a hook, the hook's verdict alone decides.

Modules:

- `Paths`: `join_prefix` and its normal forms.
- `Http`: what the framework calls do to a response. `Context` is the response object that handlers and middleware write into. An `Exchange` is its value: the response plus a log of hook invocations and handler runs.
- `Options`: `RouteOptions` and `P2PHttpOptions`.
- `AuthHook` and `HeavyTag`: the two middleware.
- `P2PHttp`: the legacy check, chain selection, route registration, handlers, dispatch, and the properties of the whole.

The two build modes are the enum `BuildMode` (`Legacy` is the build without `VIX_P2P_HTTP_WITH_MIDDLEWARE`). Each consults its own hook: `auth_legacy` or `auth_ctx`. A hook is modelled as a total function from the response to a verdict and the response as the hook left it. The request is folded into the function.

Calling `next()` is modelled as the middleware reporting that the request proceeds. The downstream chain runs after the call. Both closures call `next()` as their last statement, so running downstream afterwards is the same as running it inside `next()`.

The event `HandlerRan` marks the start of a route's own answer. In the legacy admin handler that answer is the part after the inline check and the heavy header. So "the handler ran" means the route produced its own body.

A route with base prefix `/` is joined as `//ping`: the strip loop keeps a lone `/`, and `/` is then concatenated with the sub-path. `Paths.JoinRootBaseDoublesSlash` records this behaviour. The model keeps it, since nothing in the code says a prefix of `/` is meant to behave otherwise.

## Model

| member | source | states |
|---|---|---|
| Paths.JoinPrefix | src/P2PHttp.cpp:37-56 | The imperative join (leading `/` added, trailing `/` popped in loops, empty and `/` cases) returns exactly `Join(base, path)`, and that is a well-formed route path. |
| Paths.StripTrailingSlashesIsStrip | src/P2PHttp.cpp:41-42 | The pop-back loop leaves a prefix of its input, followed only by slashes, that is non-empty if the input was, and that ends in `/` only when it is exactly `/`. |
| Paths.StripUnique | src/P2PHttp.cpp:41-42 | Any string with those properties is the result of the loop, so the loop's result is characterised completely. |
| Paths.NormalizeShape | src/P2PHttp.cpp:39-47 | A normalised part is empty exactly when the input was. Otherwise it starts with `/` and ends with `/` only when it is `/`. |
| Paths.NormalizeFixesRoutePaths | src/P2PHttp.cpp:39-47 | Normalisation leaves an already well-formed path, or the empty string, unchanged. |
| Paths.NormalizeIdempotent | src/P2PHttp.cpp:39-47 | Normalising twice is normalising once. |
| Paths.JoinIsRoutePath | src/P2PHttp.cpp:39-55 | The result is never empty, always starts with `/`, and ends with `/` only when it is exactly `/`. |
| Paths.JoinDependsOnNormalForms | src/P2PHttp.cpp:39-55 | The result depends only on the normalised parts: pre-normalising either argument changes nothing. |
| Paths.JoinFixedPoint | src/P2PHttp.cpp:52-53 | A well-formed path joined with `""` or `/` is itself. |
| Paths.JoinResultIsFixedPoint | src/P2PHttp.cpp:49-55 | Every result `r` satisfies `join_prefix(r, "") == r` and `join_prefix(r, "/") == r`. |
| Paths.JoinEmptyBase | src/P2PHttp.cpp:49-50 | With an empty base, the result is the normalised path, or `/` when the path is also empty. |
| Paths.JoinNonEmptyBase | src/P2PHttp.cpp:52-55 | With a non-empty base, the result is the normalised base when the path normalises to `""` or `/`, and otherwise the concatenation of the normalised parts. |
| Paths.StripOneSlash | src/P2PHttp.cpp:41-42 | One extra trailing slash on a well-formed path other than `/` is popped again. |
| Paths.JoinRepairsSlashes | src/P2PHttp.cpp:39-47 | `join_prefix("p2p/", "ping/") == "/p2p/ping"`. |
| Paths.JoinDefaultPaths | src/P2PHttp.cpp:152-201 | The default base joined with `/ping`, `/status` and `/admin/hook` gives `/p2p/ping`, `/p2p/status` and `/p2p/admin/hook`. |
| Paths.JoinDegenerateParts | src/P2PHttp.cpp:41-52 | `join_prefix("/p2p///", "") == "/p2p"` and `join_prefix("", "") == "/"`. |
| Paths.JoinRootBaseDoublesSlash | src/P2PHttp.cpp:41-55 | The base `/` is kept by the strip loop, so `join_prefix("/", "/ping") == "//ping"`. |
| Http.Invoke | include/vix/p2p_http/middleware/AuthHook.hpp:55 | Calling a hook records exactly one more invocation and runs no handler. The verdict and the response are the hook's own. |
| Http.Context.CallHook | include/vix/p2p_http/middleware/AuthHook.hpp:55 | The hook call on the live response object has the effect `Invoke` describes. |
| AuthHook.Gate | include/vix/p2p_http/middleware/AuthHook.hpp:38-61 | Without `auth_ctx`: 401 with the rejection envelope, headers unchanged, no hook call, no `next`. With it: exactly one call, the response exactly as the hook left it, and `next` exactly when the verdict is true. It never runs a handler. |
| AuthHook.Run | include/vix/p2p_http/middleware/AuthHook.hpp:40-60 | The middleware closure, writing into the context, has exactly the effect of `Gate`, and calls `next` exactly when `Gate` proceeds. |
| HeavyTag.Mark | include/vix/p2p_http/middleware/HeavyTag.hpp:32-39 | The request always continues. The header `x-vix-route-heavy` is `"1"`, every other header is kept, no header is added besides it, and status, body and log are unchanged. |
| HeavyTag.Run | include/vix/p2p_http/middleware/HeavyTag.hpp:34-38 | The closure sets the header on the context and then continues, exactly as `Mark` says. |
| P2PHttp.LegacyAuth | src/P2PHttp.cpp:59-78 | Without `auth_legacy`: 401, the rejection envelope, headers unchanged, false, and no hook call. With it: exactly the hook's verdict and the response as the hook left it, one call logged, and nothing written by the check itself. |
| P2PHttp.LegacyAuthOr401 | src/P2PHttp.cpp:59-78 | The check, writing into the response, has exactly the effect of `LegacyAuth`. |
| P2PHttp.RejectionsAgree | src/P2PHttp.cpp:64-75 | With no hook, the legacy check and the `auth_hook` middleware produce the same rejection, so the shape of the 401 is the same in both builds. |
| P2PHttp.MiddlewareChain | src/P2PHttp.cpp:90-136 | The chain is empty exactly for a route with neither flag. It has auth exactly when auth is required and the heavy marker exactly when the route is heavy, and with both flags auth comes first. |
| P2PHttp.InstallRouteMiddlewares | src/P2PHttp.cpp:82-137 | The branches install nothing for an unflagged route and otherwise exactly one chain on the exact path, the one `MiddlewareChain` selects. Routes are untouched. |
| P2PHttp.RegisterRoute | src/P2PHttp.cpp:154-171 | One `app.get`/`app.post` appends the route, then (middleware build only) its install. |
| P2PHttp.RegisterKind | src/P2PHttp.cpp:152-154 | The route registered for a sub-path carries the path `join_prefix` builds from the base. |
| P2PHttp.RegisterRoutes | src/P2PHttp.cpp:141-235 | The routes appended are exactly `RouteTable(opt)` and the installs exactly `Installs(mode, opt)`, in registration order. |
| P2PHttp.TableRouteCases | src/P2PHttp.cpp:150-205 | A registered route is the ping route (only if enabled), the status route (only if enabled), or the admin route. |
| P2PHttp.RouteTableShape | src/P2PHttp.cpp:150-205 | There is one route per enabled endpoint plus the admin hook. The admin hook comes last, and ping comes first when enabled. |
| P2PHttp.RoutePresence | src/P2PHttp.cpp:150-205 | A ping route exists if and only if `enable_ping`, a status route if and only if `enable_status`, and the admin route always. |
| P2PHttp.RouteShapes | src/P2PHttp.cpp:147-205 | Every route's path is the base joined with its sub-path and is well formed. Only the admin hook is a POST. Only it carries flags, and it carries both. |
| P2PHttp.EmptyPrefixPaths | src/P2PHttp.cpp:147 | With an empty prefix the base is `/p2p`, and the three paths are `/p2p/ping`, `/p2p/status` and `/p2p/admin/hook`. |
| P2PHttp.KindPathsDiffer | src/P2PHttp.cpp:152-201 | The ping, status and admin paths differ for every prefix. |
| P2PHttp.RoutePathsDistinct | src/P2PHttp.cpp:150-205 | No two registered routes share a path. |
| P2PHttp.OnlyAdminIsWrapped | src/P2PHttp.cpp:164-233 | In the middleware build the only install is auth-then-heavy on the admin path. The legacy build installs nothing. |
| P2PHttp.InstalledChainIsServed | src/P2PHttp.cpp:164-233 | For every registered route, the chains that the middleware build installs on its path concatenate to exactly `MiddlewareChain` of its flags, the chain a request to it runs. |
| P2PHttp.DefaultRegistration | src/P2PHttp.cpp:141-235 | Under the default options the table is exactly `GET /p2p/ping`, `GET /p2p/status` (both unflagged) and `POST /p2p/admin/hook` (heavy and auth), and the only install is auth-then-heavy on `/p2p/admin/hook`. |
| P2PHttp.Handle | src/P2PHttp.cpp:154-229 | The registered handlers, writing into the response, have exactly the effect of `Handler`: the ping and status envelopes, and the admin handler with its inline check in the legacy build. |
| P2PHttp.RunMiddlewareOn | src/P2PHttp.cpp:94-121 | One installed middleware, run on the context, has the effect of the matching pure middleware. |
| P2PHttp.Dispatch | src/P2PHttp.cpp:123-136 | Running an installed chain and then the handler has exactly the effect of `RunChain`: each middleware either hands on or ends the request. |
| P2PHttp.ServeRequest | src/P2PHttp.cpp:141-235 | A request to a route gives exactly `Serve`: in the middleware build, the chain `MiddlewareChain` selects for the route's flags (which `InstalledChainIsServed` shows is the chain `RegisterRoutes` installed on its path), then its handler. |
| P2PHttp.UnflaggedRouteIsUnwrapped | src/P2PHttp.cpp:90-91 | A route with neither flag goes straight to its handler in both builds. |
| P2PHttp.HeavyMarkerNeverBlocks | include/vix/p2p_http/middleware/HeavyTag.hpp:36-37 | A heavy route without auth always reaches its handler, which sees the heavy header already set. |
| P2PHttp.AuthBeforeHeavy | src/P2PHttp.cpp:123-127 | With both flags, the auth middleware decides first, and the heavy marker and the handler run only when it hands on. |
| P2PHttp.AdminOutcome | src/P2PHttp.cpp:210-232 | In both builds the admin route is the build's gate followed, on a positive verdict only, by the heavy header and the 501 answer. |
| P2PHttp.NotImplementedCounts | src/P2PHttp.cpp:218-229 | The heavy header and the 501 answer add one handler run and no hook call. |
| P2PHttp.FailClosed | src/P2PHttp.cpp:212-217 | A route requiring auth, with no hook for the build, answers 401 with the rejection envelope. Headers are unchanged, no hook is called and no handler runs. |
| P2PHttp.DeniedRequestStops | src/P2PHttp.cpp:213-217 | On a negative verdict, the exchange is exactly the hook's response after one hook call: no heavy header, no 501, no handler. |
| P2PHttp.AllowedAdminRequest | src/P2PHttp.cpp:213-229 | On a positive verdict, the answer is 501 with the not-implemented envelope, and the hook's headers are kept with `x-vix-route-heavy: 1` added. It follows one hook call and one handler run. |
| P2PHttp.OpenRoutesAnswer | src/P2PHttp.cpp:149-197 | Ping and status are never gated in either build. Only the body is set (the ping or status envelope), and the handler runs once. |
| P2PHttp.BuildsAgree | src/P2PHttp.cpp:210-233 | When the legacy hook behaves as the context hook, the two builds give every registered route the same outcome. |
| P2PHttp.HookCalledAtMostOnce | include/vix/p2p_http/middleware/AuthHook.hpp:42-55 | Every request calls a hook at most once, and never when no hook is configured or the route does not require auth. The handler runs at most once. |

## Left out

- The framework calls (`app.get`/`app.post`, `install_exact`, `chain`, `adapt_ctx`, `status`/`header`/`json`) are modelled only by their effect on `App` and `Context`. Routing a request to a route by its path is not modelled: `Serve` takes the route.
- The `Content-Type` header that `json()` may set is not modelled, and `J::obj` serialisation is represented by a list of fields.
- The request is not modelled. Hooks see only the response, and what they base their verdict on is folded into the hook function. The internals of `AuthHookCtx` and `AuthHookLegacy` are left out.
- `P2PRuntime` is accepted and unused by `registerRoutes`, so it is not modelled.
- The fields `enable_logs`, `enable_live_logs`, `stats_every_ms`, `enable_peers` and `log_sink` of `P2PHttpOptions` (include/vix/p2p_http/P2PHttpOptions.hpp:52-61, 70) are not modelled. `registerRoutes` never reads them, so neither the route table nor any response depends on them.
- The peers and logs endpoints that the comment on `registerRoutes` mentions (include/vix/p2p_http/P2PHttp.hpp:34) are never registered by the code, so the route table has no such routes.
- `shutdown_live_logs` and `set_live_log_sink` are only declared (include/vix/p2p_http/P2PHttp.hpp:50, 59). Their definitions are not part of this model.
- The `/status` handler answers the fixed envelope `{ok:true, status:"ok", module:"p2p_http"}`; no runtime counters are reported, because the code reports none.
- Conditional compilation is modelled as the `BuildMode` parameter. The `auth_hook` and `heavy_tag` factories of the middleware headers and the lambdas written out in `src/P2PHttp.cpp` are modelled once, as `AuthHook` and `HeavyTag`.
- Exceptions thrown by a hook or the framework, and concurrent requests, are not modelled.
