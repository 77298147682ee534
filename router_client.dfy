/** The router context hooks of the browser runtime (src/framework/client.ts):
    reading the context, the current location, and the navigation state
    derived from it. Locations are kept abstract. */
module RouterClient {
  import opened Js

  /** `RouterContext`: `nextLocation` is optional. */
  datatype RouterContext<L> = RouterContext(location: L, navigating: bool, nextLocation: Option<L>)

  datatype NavigationState = Navigating | Idle

  /** What `useNavigation` returns: `to` is `undefined` (None) when idle. */
  datatype Navigation<L> = Navigation(state: NavigationState, to: Option<L>)

  const NoRouterContext := ErrorObj("No router context found")

  /** `routerContext()`: the context React provides, or a throw when none is
      provided (`null`). */
  function GetRouterContext<L>(ctx: Option<RouterContext<L>>): (r: Result<RouterContext<L>>)
    ensures r.Ok? <==> ctx.Some?
    ensures r.Ok? ==> r.value == ctx.value
    ensures r.Throw? ==> r.thrown == NoRouterContext
  {
    if ctx.None? then Throw(NoRouterContext) else Ok(ctx.value)
  }

  /** `useLocation()`: the context's location, unchanged. */
  function UseLocation<L>(ctx: Option<RouterContext<L>>): (r: Result<L>)
    ensures r.Ok? <==> ctx.Some?
    ensures r.Ok? ==> r.value == ctx.value.location
    ensures r.Throw? ==> r.thrown == NoRouterContext
  {
    var c := GetRouterContext(ctx);
    if c.Throw? then Throw(c.thrown) else Ok(c.value.location)
  }

  /** `useNavigation()`: navigating exactly when the context says so and
      knows where to; then `to` is that next location as it is. */
  function UseNavigation<L>(ctx: Option<RouterContext<L>>): (r: Result<Navigation<L>>)
    ensures r.Ok? <==> ctx.Some?
    ensures r.Throw? ==> r.thrown == NoRouterContext
    ensures r.Ok? ==> (r.value.state == Navigating <==> ctx.value.navigating && ctx.value.nextLocation.Some?)
    ensures r.Ok? && r.value.state == Navigating ==> r.value.to == ctx.value.nextLocation
    ensures r.Ok? && r.value.state == Idle ==> r.value.to == None
  {
    var c := GetRouterContext(ctx);
    if c.Throw? then Throw(c.thrown)
    else if c.value.navigating && c.value.nextLocation.Some? then Ok(Navigation(Navigating, c.value.nextLocation))
    else Ok(Navigation(Idle, None))
  }

  /** A navigation state names a target exactly when it is navigating, so
      the two fields never disagree. */
  lemma NavigationTargetIffNavigating<L>(ctx: Option<RouterContext<L>>)
    requires ctx.Some?
    ensures UseNavigation(ctx).Ok?
    ensures UseNavigation(ctx).value.to.Some? <==> UseNavigation(ctx).value.state == Navigating
  {
  }
}
