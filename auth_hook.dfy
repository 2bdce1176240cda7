/**
 * The `auth_hook` middleware of AuthHook.hpp, which the middleware build of
 * src/P2PHttp.cpp also writes out inline as its `auth_ctx` lambda: it fails
 * closed when no context hook is configured, and otherwise lets the hook
 * decide, calling `next` only on a positive verdict.
 */
module AuthHook {
  import opened Wrappers
  import opened Http

  /** The rejection envelope `{ok:false, error:"unauthorized", hint:"auth required"}`. */
  const Unauthorized: Envelope := [
    Field("ok", JBool(false)),
    Field("error", JStr("unauthorized")),
    Field("hint", JStr("auth required"))
  ]

  /** Status 401 with the rejection envelope; headers and log are untouched. */
  function Reject(x: Exchange): Exchange
  {
    WithJson(WithStatus(x, 401), Unauthorized)
  }

  /**
   * The effect of the middleware on a request. Without a hook: 401, the
   * rejection envelope, no hook call, no `next`. With a hook: exactly one
   * hook call, the response exactly as the hook left it (the middleware
   * writes nothing of its own), and `next` exactly when the verdict is true.
   */
  function Gate(authCtx: Option<Hook>, x: Exchange): (s: Step)
    ensures HookCalls(s.x) <= HookCalls(x) + 1
    ensures HandlerRuns(s.x) == HandlerRuns(x)
    ensures authCtx.None? ==>
      && !s.proceed
      && s.x.res == Response(401, x.res.headers, Some(Unauthorized))
      && s.x.log == x.log
    ensures authCtx.Some? ==>
      && HookCalls(s.x) == HookCalls(x) + 1
      && s.proceed == authCtx.value(x.res).ok
      && s.x.res == authCtx.value(x.res).res
  {
    match authCtx
    case None => Step(Reject(x), false)
    case Some(h) => Invoke(h, x)
  }

  /** The middleware closure; the result is whether it called `next`. */
  method Run(authCtx: Option<Hook>, ctx: Context) returns (next: bool)
    modifies ctx
    ensures Step(ctx.View(), next) == Gate(authCtx, old(ctx.View()))
  {
    if authCtx.None? {
      ctx.SetStatus(401);
      ctx.SetJson(Unauthorized);
      return false;
    }
    var ok := ctx.CallHook(authCtx.value);
    if !ok {
      return false;
    }
    next := true;
  }
}
