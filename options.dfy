/**
 * Configuration records: the per-route flags of RouteOptions.hpp and the
 * options of P2PHttpOptions.hpp that the route table and the gate read.
 */
module Options {
  import opened Wrappers
  import opened Http

  /** Per-route flags; both are off unless a route sets them. */
  datatype RouteOptions = RouteOptions(heavy: bool, requireAuth: bool)

  const DefaultRouteOptions := RouteOptions(heavy := false, requireAuth := false)

  /**
   * The options the endpoints are built from. `authCtx` is the
   * context-style hook the middleware build consults, `authLegacy` the
   * request/response hook the build without middleware consults; absent
   * means not configured.
   */
  datatype P2PHttpOptions = P2PHttpOptions(
    prefix: string,
    enablePing: bool,
    enableStatus: bool,
    authCtx: Option<Hook>,
    authLegacy: Option<Hook>)

  const DefaultOptions := P2PHttpOptions(
    prefix := "/p2p",
    enablePing := true,
    enableStatus := true,
    authCtx := None,
    authLegacy := None)
}
