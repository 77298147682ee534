/** `ServerRouter` (framework/react-router.tsx): the server component that
    runs the static handler's query for a document request while the
    context is rendering, turns a redirect response into a context
    redirect, and otherwise hands the manifest, the loader data and the
    rendered route components to the client router. */
module ServerRouter {
  import opened Js
  import opened Http
  import opened SingleFetch
  import opened RouteManifest
  import opened ServerAggregator
  import C = ContextState
  import R = RequestContext

  /** The props of `<ClientRouter>`. */
  datatype ClientRouterProps = ClientRouterProps(
    loaderData: map<string, Value>,
    rendered: map<string, Element>,
    routesManifest: seq<ManifestEntry>,
    url: UrlValue)

  /** `context.matches.map((m) => m.route.id)`: a data route always has an
      id, which may still be empty. */
  function ContextIds(ms: seq<ContextMatch>): (ids: seq<Option<string>>)
    ensures |ids| == |ms|
    ensures forall i :: 0 <= i < |ids| ==> ids[i] == Some(ms[i].id)
  {
    seq(|ms|, i requires 0 <= i < |ms| => Some(ms[i].id))
  }

  const InvalidResponse := ErrorObj("Invalid response")

  /** A query response the router accepts as a redirect: a truthy
      `Location` and a redirect status. */
  predicate AcceptedRedirect(status: int, headers: seq<Entry>) {
    TruthyString(HeaderGet(headers, "Location")) && IsRedirectStatusCode(status)
  }

  /** `ServerRouter({ routes })`. `None` is the `undefined` it renders after
      a redirect. `query` is the static handler's query for the context's
      URL, and `promise` the promise its async wrapper returns, which the
      router registers with `waitToFlushUntil` before the query settles. */
  method ServerRouter(store: R.Context?, routes: seq<RouteObject>, query: UrlValue -> QueryResult, promise: nat)
    returns (r: Result<Option<ClientRouterProps>>)
    modifies store
    ensures var s0 := old(R.StateOf(store));
      C.Ctx(s0).Throw? ==> r == Throw(C.Ctx(s0).thrown) && R.StateOf(store) == s0
    ensures var s0 := old(R.StateOf(store));
      C.Ctx(s0).Ok? && query(s0.value.url).QueryResponse? ==>
        var q := query(s0.value.url);
        var waited := s0.value.(waitList := s0.value.waitList + [C.Settled(promise)]);
        if AcceptedRedirect(q.status, q.headers) then
          && r == Ok(None)
          && R.StateOf(store) == Some(waited.(status := q.status, redirect := HeaderGet(q.headers, "Location")))
        else
          && r == Throw(InvalidResponse)
          && R.StateOf(store) == Some(waited)
    ensures var s0 := old(R.StateOf(store));
      C.Ctx(s0).Ok? && query(s0.value.url).QueryContext? ==>
        var context := query(s0.value.url).context;
        var ids := ContextIds(context.matches);
        && R.StateOf(store) == Some(s0.value.(waitList := s0.value.waitList + [C.Settled(promise)]))
        && (r.Ok? <==> Renderable(routes, ids))
        && (r.Ok? ==>
              && r.value.Some?
              && r.value.value.loaderData == context.loaderData
              && r.value.value.url == s0.value.url
              && Mirrors(routes, r.value.value.routesManifest)
              && RendersMatched(routes, ids, r.value.value.rendered))
  {
    var u := C.GetUrl(R.StateOf(store));
    if u.Throw? {
      return Throw(u.thrown);
    }
    var url := u.value;
    var waited := R.WaitToFlushUntil(store, C.ThunkArg(promise));
    var result := query(url);
    if result.QueryResponse? {
      var location := HeaderGet(result.headers, "Location");
      if !TruthyString(location) || !IsRedirectStatusCode(result.status) {
        return Throw(InvalidResponse);
      }
      var _ := R.Redirect(store, location.value, Some(result.status));
      return Ok(None);
    }
    var ids := ContextIds(result.context.matches);
    var rendered := CacheAndRender(routes, ids);
    if rendered.Throw? {
      return Throw(rendered.thrown);
    }
    r := Ok(Some(ClientRouterProps(result.context.loaderData, rendered.value.1, rendered.value.0, url)));
  }

  /** A document request whose query redirects is answered by the RSC
      stream with `Location` set to the target and the handler's own
      status: `ServerRouter` runs while rendering, and `redirect` is
      allowed there with an explicit status. */
  lemma {:induction false} RouterRedirectReachesResponse(
    st: C.State, status: int, headers: seq<Entry>, promise: nat,
    commit: map<string, Value> -> string, destroy: map<string, Value> -> string)
    requires st.stage == C.Render && AcceptedRedirect(status, headers)
    ensures var to := HeaderGet(headers, "Location").value;
      var s1 := C.WaitToFlushUntil(Some(st), C.ThunkArg(promise)).value.0;
      var s2 := C.Redirect(Some(s1), to, Some(status)).value;
      var fin := s2.(stage := C.Sent);
      && s2.redirect == Some(to) && s2.status == status
      && HeaderGet(C.RscHeaders(fin, commit, destroy), "Location") == Some(to)
  {
    var to := HeaderGet(headers, "Location").value;
    var s1 := C.WaitToFlushUntil(Some(st), C.ThunkArg(promise)).value.0;
    var s2 := C.Redirect(Some(s1), to, Some(status)).value;
    var fin := s2.(stage := C.Sent);
    var h0 := HeaderSet(fin.headers, "Content-Type", "text/x-component");
    var h1 := HeaderAppend(h0, "Set-Cookie", C.SessionCookie(fin, commit, destroy));
    assert HeaderSet(h1, "Location", to) == C.RscHeaders(fin, commit, destroy);
  }
}
