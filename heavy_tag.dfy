/**
 * The `heavy_tag` middleware of HeavyTag.hpp (written out inline as the
 * `heavy_ctx` lambda in src/P2PHttp.cpp as well): it marks the response of a
 * resource-intensive route with a header and always lets the request go on.
 */
module HeavyTag {
  import opened Http

  const HeavyHeader := "x-vix-route-heavy"

  /**
   * The effect of the marker: the header is "1" in what `next` receives,
   * nothing else of the response or the log changes, and the request always
   * continues.
   */
  function Mark(x: Exchange): (s: Step)
    ensures s.proceed
    ensures HeavyHeader in s.x.res.headers && s.x.res.headers[HeavyHeader] == "1"
    ensures forall name :: name in x.res.headers && name != HeavyHeader ==>
      name in s.x.res.headers && s.x.res.headers[name] == x.res.headers[name]
    ensures s.x.res.headers.Keys == x.res.headers.Keys + {HeavyHeader}
    ensures s.x.res.status == x.res.status && s.x.res.body == x.res.body
    ensures s.x.log == x.log
  {
    Step(WithHeader(x, HeavyHeader, "1"), true)
  }

  /** The middleware closure: set the header, then call `next`. */
  method Run(ctx: Context) returns (next: bool)
    modifies ctx
    ensures Step(ctx.View(), next) == Mark(old(ctx.View()))
  {
    ctx.SetHeader(HeavyHeader, "1");
    next := true;
  }
}
