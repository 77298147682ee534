/** The server half of the single-fetch protocol (framework/react-router.tsx):
    a `.data` request is mapped back to its application path, routed, run
    through the static handler and answered with one RSC payload, either a
    redirect envelope at status 202 or the per-route results with the
    document headers of the matched chain.

    `matchRoutes` and the static handler's `query` are foreign and are
    parameters; so is `splitCookiesString`. */
module ServerAggregator {
  import opened Js
  import opened Strings
  import opened Http
  import opened SingleFetch
  import opened RouteManifest
  import ClientStrategy

  // ---------------------------------------------------------------------
  // Paths
  // ---------------------------------------------------------------------

  /** `.replace(/\.data$/, "").replace(/^\/_root$/, "/")`. */
  function RewritePath(p: string): string {
    var q := if EndsWith(p, ".data") then p[..|p| - 5] else p;
    if q == "/_root" then "/" else q
  }

  /** The server's rewrite undoes the client's data path exactly for the
      root and for paths that neither end in a slash nor are `/_root`
      itself (which the rewrite cannot tell apart from the root). */
  lemma RewriteInvertsDataPath(p: string)
    ensures RewritePath(ClientStrategy.DataPath(p)) == p
      <==> p == "/" || (!EndsWith(p, "/") && p != "/_root")
  {
    ClientStrategy.DataPathShape(p);
    var d := ClientStrategy.DataPath(p);
    assert EndsWith(d, ".data");
    if p != "/" && !EndsWith(p, "/") {
      assert d[..|d| - 5] == p;
    } else if p != "/" {
      var q := p[..|p| - 1];
      assert d[..|d| - 5] == q;
      assert |q| < |p|;
    }
  }

  // ---------------------------------------------------------------------
  // Redirects
  // ---------------------------------------------------------------------

  /** The redirect status codes (301, 302, 303, 307 and 308, as section 15.4 of RFC 9110 defines them). */
  predicate IsRedirectStatusCode(statusCode: int) {
    statusCode in {301, 302, 303, 307, 308}
  }

  /** Where the path continues after the basename. */
  function BasenameEnd(basename: string): nat {
    if EndsWith(basename, "/") then |basename| - 1 else |basename|
  }

  /** `stripBasename`. */
  function StripBasename(pathname: string, basename: string): (r: Option<string>)
    ensures basename == "/" ==> r == Some(pathname)
    ensures basename != "/" ==> (r.Some? <==>
      StartsWith(Lower(pathname), Lower(basename))
      && (BasenameEnd(basename) == |pathname| || pathname[BasenameEnd(basename)] == '/'))
    ensures basename != "/" && r.Some? ==> r.value != "" && r.value[0] == '/'
  {
    if basename == "/" then Some(pathname)
    else if !StartsWith(Lower(pathname), Lower(basename)) then None
    else
      var startIndex := BasenameEnd(basename);
      if startIndex < |pathname| && pathname[startIndex] != '/' then None
      else if pathname[startIndex..] == "" then Some("/")
      else Some(pathname[startIndex..])
  }

  /** What is stripped is the basename up to case, and what is kept is the
      rest of the path unchanged. */
  lemma StripBasenameSplits(pathname: string, basename: string)
    requires basename != "/" && StripBasename(pathname, basename).Some?
    ensures BasenameEnd(basename) <= |pathname|
    ensures Lower(pathname[..BasenameEnd(basename)]) == Lower(basename)[..BasenameEnd(basename)]
    ensures StripBasename(pathname, basename).value == "/"
      || pathname == pathname[..BasenameEnd(basename)] + StripBasename(pathname, basename).value
  {
    var k := BasenameEnd(basename);
    assert Lower(pathname)[..|basename|] == Lower(basename);
    assert forall i :: 0 <= i < k ==> Lower(pathname[..k])[i] == Lower(pathname)[i];
  }

  /** `getSingleFetchRedirect`. */
  function GetSingleFetchRedirect(status: int, headers: seq<Entry>, basename: Option<string>): (r: Result<RedirectResult>)
    ensures r.Ok? <==> TruthyString(HeaderGet(headers, "Location"))
    ensures r.Throw? ==> r.thrown == ErrorObj("Expected redirect location")
    ensures r.Ok? ==> r.value.status == status
    ensures r.Ok? ==> (r.value.revalidate <==> HeaderHas(headers, "X-Remix-Revalidate") || HeaderHas(headers, "Set-Cookie"))
    ensures r.Ok? ==> (r.value.reload <==> HeaderHas(headers, "X-Remix-Reload-Document"))
    ensures r.Ok? ==> (r.value.replace <==> HeaderHas(headers, "X-Remix-Replace"))
    ensures r.Ok? && !TruthyString(basename) ==> r.value.redirect == HeaderGet(headers, "Location").value
  {
    var location := HeaderGet(headers, "Location");
    if !TruthyString(location) then Throw(ErrorObj("Expected redirect location"))
    else
      var redirect :=
        if TruthyString(basename) then
          var stripped := StripBasename(location.value, basename.value);
          if TruthyString(stripped) then stripped.value else location.value
        else location.value;
      Ok(RedirectResult(
        redirect,
        status,
        HeaderHas(headers, "X-Remix-Revalidate") || HeaderHas(headers, "Set-Cookie"),
        HeaderHas(headers, "X-Remix-Reload-Document"),
        HeaderHas(headers, "X-Remix-Replace")))
  }

  // ---------------------------------------------------------------------
  // The static handler's context
  // ---------------------------------------------------------------------

  /** A `Headers` object held by the handler context, with the identity the
      framework compares by `!==`. */
  datatype HeaderObj = HeaderObj(identity: nat, entries: seq<Entry>)

  /** A match of the static handler, as far as the aggregator reads it. */
  datatype ContextMatch = ContextMatch(id: string, hasLoader: bool)

  /** A `StaticHandlerContext`: `errors` and `actionData` may be `null`. */
  datatype HandlerContext = HandlerContext(
    matches: seq<ContextMatch>,
    statusCode: int,
    loaderData: map<string, Value>,
    errors: Option<map<string, Value>>,
    actionData: Option<map<string, Value>>,
    loaderHeaders: map<string, HeaderObj>,
    actionHeaders: map<string, HeaderObj>)

  /** `errors[id]` is truthy. */
  predicate HasError(id: string, errors: map<string, Value>) {
    id in errors && Truthy(errors[id])
  }

  /** `findIndex((m) => errors[m.route.id])`, with `|ms|` for not found. */
  function FirstError(ms: seq<ContextMatch>, errors: map<string, Value>): (k: nat)
    ensures k <= |ms|
    ensures k < |ms| ==> HasError(ms[k].id, errors)
    ensures forall j :: 0 <= j < k ==> !HasError(ms[j].id, errors)
  {
    if ms == [] then 0
    else if HasError(ms[0].id, errors) then 0
    else 1 + FirstError(ms[1..], errors)
  }

  /** `boundaryIdx`: the first match with an error, or -1. */
  function BoundaryIndex(context: HandlerContext): int {
    if context.errors.None? then -1
    else
      var k := FirstError(context.matches, context.errors.value);
      if k < |context.matches| then k else -1
  }

  /** The matches whose headers make up the document headers. */
  function DocumentMatches(context: HandlerContext): seq<ContextMatch> {
    var b := BoundaryIndex(context);
    if b >= 0 then context.matches[..b + 1] else context.matches
  }

  /** The `.some` scan from the boundary down for headers without data. */
  function ErrorHeadersFrom(ms: seq<ContextMatch>, context: HandlerContext): Option<HeaderObj> {
    if ms == [] then None
    else
      var id := ms[0].id;
      if id in context.actionHeaders && (context.actionData.None? || id !in context.actionData.value) then
        Some(context.actionHeaders[id])
      else if id in context.loaderHeaders && id !in context.loaderData then
        Some(context.loaderHeaders[id])
      else ErrorHeadersFrom(ms[1..], context)
  }

  function ErrorHeaders(context: HandlerContext): Option<HeaderObj> {
    var b := BoundaryIndex(context);
    if b < 0 then None else ErrorHeadersFrom(context.matches[b..], context)
  }

  function Lookup(hs: map<string, HeaderObj>, id: string): Option<HeaderObj> {
    if id in hs then Some(hs[id]) else None
  }

  /** `a === b` for two header objects, where a missing one stands for a
      fresh `new Headers()` and so equals nothing. */
  predicate SameObject(a: Option<HeaderObj>, b: Option<HeaderObj>) {
    a.Some? && b.Some? && a.value.identity == b.value.identity
  }

  function EntriesOf(h: Option<HeaderObj>): seq<Entry> {
    if h.Some? then h.value.entries else []
  }

  /** The cookies `prependCookies` copies out of a header list. */
  function CookiesOf(es: seq<Entry>, split: string -> seq<string>): seq<string> {
    var s := HeaderGet(es, "Set-Cookie");
    if TruthyString(s) then split(s.value) else []
  }

  /** The cookies one level of the chain adds: the error headers' cookies
      at the leaf (unless they are the leaf's own header object), then the
      action's, then the loader's. */
  function LevelCookies(context: HandlerContext, id: string, isLeaf: bool, errorHeaders: Option<HeaderObj>,
                        split: string -> seq<string>): seq<string>
  {
    var loaderHeaders := Lookup(context.loaderHeaders, id);
    var actionHeaders := Lookup(context.actionHeaders, id);
    var includeErrorCookies := errorHeaders.Some? && isLeaf
      && !SameObject(errorHeaders, loaderHeaders) && !SameObject(errorHeaders, actionHeaders);
    (if includeErrorCookies then CookiesOf(errorHeaders.value.entries, split) else [])
      + CookiesOf(EntriesOf(actionHeaders), split)
      + CookiesOf(EntriesOf(loaderHeaders), split)
  }

  /** The cookies of the first `n` levels of the chain `ms`, root first. */
  function CookiesUpTo(context: HandlerContext, ms: seq<ContextMatch>, n: nat, errorHeaders: Option<HeaderObj>,
                       split: string -> seq<string>): seq<string>
    requires n <= |ms|
  {
    if n == 0 then []
    else
      CookiesUpTo(context, ms, n - 1, errorHeaders, split)
      + LevelCookies(context, ms[n - 1].id, n - 1 == |ms| - 1, errorHeaders, split)
  }

  /** The `Set-Cookie` values of the document headers, in order. */
  function DocumentCookies(context: HandlerContext, split: string -> seq<string>): seq<string> {
    var ms := DocumentMatches(context);
    CookiesUpTo(context, ms, |ms|, ErrorHeaders(context), split)
  }

  lemma SetCookieName()
    ensures Lower("Set-Cookie") == "set-cookie"
  {
  }

  /** `prependCookies(parentHeaders, childHeaders)`. */
  method PrependCookies(parentEntries: seq<Entry>, childHeaders: Headers, split: string -> seq<string>)
    modifies childHeaders
    ensures childHeaders.entries == old(childHeaders.entries) + Named("set-cookie", CookiesOf(parentEntries, split))
  {
    var parentSetCookieString := HeaderGet(parentEntries, "Set-Cookie");
    if TruthyString(parentSetCookieString) {
      var cookies := split(parentSetCookieString.value);
      SetCookieName();
      for i := 0 to |cookies|
        invariant childHeaders.entries == old(childHeaders.entries) + Named("set-cookie", cookies[..i])
      {
        assert cookies[..i + 1] == cookies[..i] + [cookies[i]];
        NamedSnoc("set-cookie", cookies[..i], cookies[i]);
        childHeaders.Append("Set-Cookie", cookies[i]);
      }
      assert cookies[..|cookies|] == cookies;
    }
  }

  lemma ConcatAssoc<T>(s: seq<T>, e: seq<T>, a: seq<T>, l: seq<T>)
    ensures s + e + a + l == s + (e + a + l)
  {
  }

  /** One step of the `reduce` in `getDocumentHeaders`: prepend the error
      cookies (at the leaf, unless they are this route's own headers), then
      the action cookies, then the loader cookies. */
  method PrependLevel(context: HandlerContext, id: string, isLeaf: bool, errorHeaders: Option<HeaderObj>,
                      headers: Headers, split: string -> seq<string>)
    modifies headers
    ensures headers.entries
      == old(headers.entries) + Named("set-cookie", LevelCookies(context, id, isLeaf, errorHeaders, split))
  {
    var loaderHeaders := Lookup(context.loaderHeaders, id);
    var actionHeaders := Lookup(context.actionHeaders, id);
    var includeErrorHeaders := errorHeaders.Some? && isLeaf;
    var includeErrorCookies := includeErrorHeaders
      && !SameObject(errorHeaders, loaderHeaders) && !SameObject(errorHeaders, actionHeaders);
    ghost var errorCookies := if includeErrorCookies then CookiesOf(errorHeaders.value.entries, split) else [];
    ghost var actionCookies := CookiesOf(EntriesOf(actionHeaders), split);
    ghost var loaderCookies := CookiesOf(EntriesOf(loaderHeaders), split);
    ghost var start := headers.entries;
    if includeErrorCookies {
      PrependCookies(errorHeaders.value.entries, headers, split);
    } else {
      assert Named("set-cookie", errorCookies) == [];
    }
    ghost var e := Named("set-cookie", errorCookies);
    assert headers.entries == start + e;
    PrependCookies(EntriesOf(actionHeaders), headers, split);
    ghost var a := Named("set-cookie", actionCookies);
    assert headers.entries == start + e + a;
    PrependCookies(EntriesOf(loaderHeaders), headers, split);
    ghost var l := Named("set-cookie", loaderCookies);
    assert headers.entries == start + e + a + l;
    NamedConcat("set-cookie", errorCookies, actionCookies);
    NamedConcat("set-cookie", errorCookies + actionCookies, loaderCookies);
    ConcatAssoc(start, e, a, l);
    assert LevelCookies(context, id, isLeaf, errorHeaders, split) == errorCookies + actionCookies + loaderCookies;
  }

  /** `getDocumentHeaders`: a `reduce` over the matches up to the boundary
      that copies the parent's headers into a fresh object and prepends
      this level's cookies to it. */
  method GetDocumentHeaders(context: HandlerContext, split: string -> seq<string>) returns (headers: Headers)
    ensures fresh(headers)
    ensures headers.entries == Named("set-cookie", DocumentCookies(context, split))
  {
    var matches := DocumentMatches(context);
    var errorHeaders := ErrorHeaders(context);
    headers := new Headers();
    for idx := 0 to |matches|
      invariant fresh(headers)
      invariant headers.entries == Named("set-cookie", CookiesUpTo(context, matches, idx, errorHeaders, split))
    {
      var next := new Headers.Copy(headers);
      PrependLevel(context, matches[idx].id, idx == |matches| - 1, errorHeaders, next, split);
      NamedConcat("set-cookie", CookiesUpTo(context, matches, idx, errorHeaders, split),
        LevelCookies(context, matches[idx].id, idx == |matches| - 1, errorHeaders, split));
      headers := next;
    }
  }

  /** The document headers stop at the first route with an error, and
      include it. */
  lemma DocumentMatchesStopAtBoundary(context: HandlerContext)
    ensures BoundaryIndex(context) < 0 ==> DocumentMatches(context) == context.matches
    ensures BoundaryIndex(context) < 0 && context.errors.Some? ==>
      forall j :: 0 <= j < |context.matches| ==> !HasError(context.matches[j].id, context.errors.value)
    ensures BoundaryIndex(context) >= 0 ==>
      var ms := DocumentMatches(context);
      && |ms| > 0 && ms == context.matches[..|ms|]
      && HasError(ms[|ms| - 1].id, context.errors.value)
      && forall j :: 0 <= j < |ms| - 1 ==> !HasError(ms[j].id, context.errors.value)
  {
  }

  /** When the error headers are the leaf's own loader or action headers,
      the leaf's cookies are not added twice. */
  lemma ErrorCookiesNotDuplicated(context: HandlerContext, id: string, errorHeaders: Option<HeaderObj>, split: string -> seq<string>)
    requires SameObject(errorHeaders, Lookup(context.loaderHeaders, id))
      || SameObject(errorHeaders, Lookup(context.actionHeaders, id))
    ensures LevelCookies(context, id, true, errorHeaders, split)
      == CookiesOf(EntriesOf(Lookup(context.actionHeaders, id)), split)
        + CookiesOf(EntriesOf(Lookup(context.loaderHeaders, id)), split)
  {
  }

  /** A level without error headers, or not the leaf, adds its action
      cookies before its loader cookies and nothing else. */
  lemma LevelCookiesOrder(context: HandlerContext, id: string, isLeaf: bool, errorHeaders: Option<HeaderObj>, split: string -> seq<string>)
    requires !isLeaf || errorHeaders.None?
    ensures LevelCookies(context, id, isLeaf, errorHeaders, split)
      == CookiesOf(EntriesOf(Lookup(context.actionHeaders, id)), split)
        + CookiesOf(EntriesOf(Lookup(context.loaderHeaders, id)), split)
  {
  }

  /** The document headers hold `Set-Cookie` entries only; in particular no
      `Location`. */
  lemma {:induction false} OnlyCookies(cookies: seq<string>, name: string)
    requires Lower(name) != "set-cookie"
    ensures !HeaderHas(Named("set-cookie", cookies), name)
    ensures forall e :: e in Named("set-cookie", cookies) ==> e.name == "set-cookie"
  {
    NamedValues("set-cookie", cookies, Lower(name));
  }

  // ---------------------------------------------------------------------
  // Results
  // ---------------------------------------------------------------------

  /** A match whose result the server reports. */
  predicate Loaded(m: ContextMatch, loadRouteIds: seq<Option<string>>) {
    m.hasLoader && Some(m.id) in loadRouteIds
  }

  predicate InErrors(context: HandlerContext, id: string) {
    context.errors.Some? && id in context.errors.value
  }

  /** `context.matches.filter((m) => m.route.loader && loadRouteIds.includes(m.route.id))`. */
  function LoadedMatches(ms: seq<ContextMatch>, loadRouteIds: seq<Option<string>>): (r: seq<ContextMatch>)
    ensures forall m :: m in r <==> m in ms && Loaded(m, loadRouteIds)
  {
    if ms == [] then []
    else (if Loaded(ms[0], loadRouteIds) then [ms[0]] else []) + LoadedMatches(ms[1..], loadRouteIds)
  }

  /** The ids the data map has: loaded matches with an error or with data. */
  predicate Reported(context: HandlerContext, loadRouteIds: seq<Option<string>>, id: string) {
    && (exists m :: m in context.matches && m.id == id && Loaded(m, loadRouteIds))
    && (InErrors(context, id) || id in context.loaderData)
  }

  /** The slot of a reported id: its error, if any, wins over its data. */
  function Slot(context: HandlerContext, id: string): RouteResult
    requires InErrors(context, id) || id in context.loaderData
  {
    if InErrors(context, id) then ErrorResult(context.errors.value[id])
    else DataResult(context.loaderData[id])
  }

  /** The results loop of `handleReactRouterRequest`. */
  method AggregateResults(context: HandlerContext, loadRouteIds: seq<Option<string>>)
    returns (results: map<string, RouteResult>)
    ensures forall id :: id in results <==> Reported(context, loadRouteIds, id)
    ensures forall id :: id in results ==> Reported(context, loadRouteIds, id) && results[id] == Slot(context, id)
  {
    var loadedMatches := LoadedMatches(context.matches, loadRouteIds);
    results := map[];
    for i := 0 to |loadedMatches|
      invariant forall id :: id in results <==>
        (exists m :: m in loadedMatches[..i] && m.id == id) && (InErrors(context, id) || id in context.loaderData)
      invariant forall id :: id in results ==>
        (InErrors(context, id) || id in context.loaderData) && results[id] == Slot(context, id)
    {
      var id := loadedMatches[i].id;
      assert loadedMatches[..i + 1] == loadedMatches[..i] + [loadedMatches[i]];
      if context.errors.Some? && id in context.errors.value {
        results := results[id := ErrorResult(context.errors.value[id])];
      } else if id in context.loaderData {
        results := results[id := DataResult(context.loaderData[id])];
      }
    }
    assert loadedMatches[..|loadedMatches|] == loadedMatches;
  }

  // ---------------------------------------------------------------------
  // The handler
  // ---------------------------------------------------------------------

  /** What `handler.query` resolves to: a `Response` (a redirect thrown or
      returned by a loader) or a handler context. */
  datatype QueryResult = QueryResponse(status: int, headers: seq<Entry>) | QueryContext(context: HandlerContext)

  /** The payload about to be streamed, with its headers and status. */
  datatype Payload = Payload(result: SingleFetchResults, headers: seq<Entry>, status: int)

  datatype ServerRequest = ServerRequest(httpMethod: string, url: UrlValue)

  /** A response body: plain text, or an RSC stream of a payload. */
  datatype ServerBody = TextBody(text: string) | RscBody(result: SingleFetchResults)

  datatype ServerResponse = ServerResponse(status: int, headers: seq<Entry>, body: ServerBody)

  /** `SINGLE_FETCH_REDIRECT_STATUS`. */
  const SingleFetchRedirectStatus := 202

  /** The redirect envelope for a status and the headers carrying `Location`. */
  function RedirectPayload(status: int, headers: seq<Entry>): (r: Result<Payload>)
    ensures r.Ok? ==> r.value.status == SingleFetchRedirectStatus && r.value.result.RedirectResults?
  {
    match GetSingleFetchRedirect(status, headers, None)
    case Throw(e) => Throw(e)
    case Ok(redirect) => Ok(Payload(RedirectResults(redirect), headers, SingleFetchRedirectStatus))
  }

  /** What the handler answers with once it has a context: the redirect
      envelope when the context is a redirect with a `Location` among the
      document headers, and otherwise the aggregated results with the
      rendered components. */
  method ContextPayload(
    context: HandlerContext, headers: seq<Entry>, routes: seq<RouteObject>, loadRouteIds: seq<Option<string>>)
    returns (r: Result<Payload>)
    ensures IsRedirectStatusCode(context.statusCode) && HeaderHas(headers, "Location")
      ==> r == RedirectPayload(context.statusCode, headers)
    ensures !(IsRedirectStatusCode(context.statusCode) && HeaderHas(headers, "Location")) ==>
      (r.Ok? <==> Renderable(routes, loadRouteIds))
    ensures !(IsRedirectStatusCode(context.statusCode) && HeaderHas(headers, "Location")) && r.Ok? ==>
      && r.value.status == context.statusCode
      && r.value.headers == headers
      && r.value.result.DataResults?
      && (forall id :: id in r.value.result.data <==> Reported(context, loadRouteIds, id))
      && (forall id :: id in r.value.result.data ==> r.value.result.data[id] == Slot(context, id))
      && r.value.result.rendered.Some?
      && RendersMatched(routes, loadRouteIds, r.value.result.rendered.value)
  {
    if IsRedirectStatusCode(context.statusCode) && HeaderHas(headers, "Location") {
      var redirect := GetSingleFetchRedirect(context.statusCode, headers, None);
      if redirect.Throw? {
        return Throw(redirect.thrown);
      }
      return Ok(Payload(RedirectResults(redirect.value), headers, SingleFetchRedirectStatus));
    }
    var results := AggregateResults(context, loadRouteIds);
    var rendered := CacheAndRender(routes, loadRouteIds);
    if rendered.Throw? {
      return Throw(rendered.thrown);
    }
    r := Ok(Payload(DataResults(results, Some(rendered.value.1)), headers, context.statusCode));
  }

  /** The response to a route with no match. */
  const NotFoundResponse := ServerResponse(404, [Entry("content-type", "text/plain;charset=UTF-8")], TextBody("Not found"))

  /** `matches.map((m) => m.route.id)`. */
  function MatchIds(matches: seq<RouteObject>): (ids: seq<Option<string>>)
    ensures |ids| == |matches|
    ensures forall i :: 0 <= i < |matches| ==> ids[i] == matches[i].id
  {
    seq(|matches|, i requires 0 <= i < |matches| => matches[i].id)
  }

  /** The request the handler routes and queries. */
  function HandlerUrl(url: UrlValue): UrlValue {
    UrlValue(RewritePath(url.pathname), url.search)
  }

  function Respond(p: Payload): ServerResponse {
    ServerResponse(p.status, HeaderSet(p.headers, "Content-Type", "text/x-component"), RscBody(p.result))
  }

  function Promote(p: Result<Payload>): Result<ServerResponse> {
    match p
    case Throw(e) => Throw(e)
    case Ok(v) => Ok(Respond(v))
  }

  /** `handleReactRouterRequest`: `None` is the `undefined` it returns for a
      request that is not a data request. */
  method HandleReactRouterRequest(
    request: ServerRequest, routes: seq<RouteObject>,
    matchRoutes: UrlValue -> seq<RouteObject>, query: UrlValue -> QueryResult, split: string -> seq<string>)
    returns (r: Option<Result<ServerResponse>>)
    ensures !ClientStrategy.IsDataRequest(request.url.pathname) <==> r.None?
    ensures ClientStrategy.IsDataRequest(request.url.pathname) && |matchRoutes(HandlerUrl(request.url))| == 0
      ==> r == Some(Ok(NotFoundResponse))
    ensures ClientStrategy.IsDataRequest(request.url.pathname) && |matchRoutes(HandlerUrl(request.url))| > 0
      && request.httpMethod != "GET" && request.httpMethod != "HEAD"
      ==> r == Some(Throw(ErrorObj("Not implemented")))
    ensures ClientStrategy.IsDataRequest(request.url.pathname) && |matchRoutes(HandlerUrl(request.url))| > 0
      && request.httpMethod in {"GET", "HEAD"} && query(HandlerUrl(request.url)).QueryResponse?
      ==> var q := query(HandlerUrl(request.url));
          r == Some(Promote(RedirectPayload(q.status, q.headers)))
    ensures ClientStrategy.IsDataRequest(request.url.pathname) && |matchRoutes(HandlerUrl(request.url))| > 0
      && request.httpMethod in {"GET", "HEAD"} && query(HandlerUrl(request.url)).QueryContext?
      ==> var context := query(HandlerUrl(request.url)).context;
          var ids := MatchIds(matchRoutes(HandlerUrl(request.url)));
          && r.Some?
          && (r.value.Ok? <==> Renderable(routes, ids))
          && (r.value.Ok? ==>
                && r.value.value.status == context.statusCode
                && r.value.value.headers
                   == HeaderSet(Named("set-cookie", DocumentCookies(context, split)), "Content-Type", "text/x-component")
                && r.value.value.body.RscBody?
                && r.value.value.body.result.DataResults?
                && (forall id :: id in r.value.value.body.result.data <==> Reported(context, ids, id))
                && (forall id :: id in r.value.value.body.result.data
                      ==> r.value.value.body.result.data[id] == Slot(context, id))
                && r.value.value.body.result.rendered.Some?
                && RendersMatched(routes, ids, r.value.value.body.result.rendered.value))
  {
    var url := request.url;
    if !EndsWith(url.pathname, ".data") {
      return None;
    }
    var handlerUrl := HandlerUrl(url);
    var matches := matchRoutes(handlerUrl);
    if |matches| == 0 {
      return Some(Ok(NotFoundResponse));
    }
    if request.httpMethod != "GET" && request.httpMethod != "HEAD" {
      return Some(Throw(ErrorObj("Not implemented")));
    }
    var ctx := query(handlerUrl);
    var payload: Result<Payload>;
    if ctx.QueryResponse? {
      payload := RedirectPayload(ctx.status, ctx.headers);
    } else {
      var context := ctx.context;
      var headers := GetDocumentHeaders(context, split);
      OnlyCookies(DocumentCookies(context, split), "Location");
      var loadRouteIds := MatchIds(matches);
      payload := ContextPayload(context, headers.entries, routes, loadRouteIds);
    }
    r := Some(Promote(payload));
  }

  // ---------------------------------------------------------------------
  // Both ends together
  // ---------------------------------------------------------------------

  /** What the client's RSC decoder makes of a server response: a payload
      stream decodes to that payload; a text body is not an RSC stream. */
  function ToClient(res: ServerResponse): ClientStrategy.Response {
    ClientStrategy.Response(res.status, res.headers,
      match res.body
      case TextBody(_) => ClientStrategy.Undecodable
      case RscBody(result) => ClientStrategy.Payload(result))
  }

  /** The server's "no match" answer reaches the client's loaders as a 404
      error response. */
  lemma NotFoundReachesClient()
    ensures ClientStrategy.FetchAndDecode(ToClient(NotFoundResponse)) == Throw(ErrorResponse(404, "Not Found", true))
  {
    assert Lower("X-Remix-Response") == "x-remix-response";
  }

  /** The server never marks its responses with `X-Remix-Response`, so a
      payload streamed with status 404 (a route that threw a 404) is not
      decoded by the client: every route sees a bare 404 error response. */
  lemma NotFoundPayloadDiscarded(cookies: seq<string>, result: SingleFetchResults)
    ensures var res := ServerResponse(404,
              HeaderSet(Named("set-cookie", cookies), "Content-Type", "text/x-component"), RscBody(result));
            ClientStrategy.FetchAndDecode(ToClient(res)) == Throw(ErrorResponse(404, "Not Found", true))
  {
    var h := HeaderSet(Named("set-cookie", cookies), "Content-Type", "text/x-component");
    assert Lower("X-Remix-Response") == "x-remix-response";
    assert Lower("Content-Type") == "content-type";
    NamedValues("set-cookie", cookies, "x-remix-response");
    ValuesOfWithout(Named("set-cookie", cookies), "content-type", "x-remix-response");
    WithoutValues(h, "content-type", "x-remix-response");
  }

  lemma WithoutValues(es: seq<Entry>, name: string, other: string)
    requires other != name
    ensures ValuesOf(es, other) == ValuesOf(Without(es, name), other)
  {
    ValuesOfWithout(es, name, other);
  }

  /** A redirect the handler reports travels to every client loader as a
      thrown redirect to the same place, with the original status, and with
      each flag header set exactly when the handler's headers asked for it. */
  lemma RedirectReachesClient(status: int, headers: seq<Entry>, routeId: string)
    requires RedirectPayload(status, headers).Ok?
    ensures var res := Respond(RedirectPayload(status, headers).value);
      var decoded := ClientStrategy.FetchAndDecode(ToClient(res));
      var thrown := ClientStrategy.LoaderResult(decoded, routeId);
      && thrown.Throw? && thrown.thrown.RedirectResponse?
      && thrown.thrown.location == HeaderGet(headers, "Location").value
      && thrown.thrown.status == status
      && ("X-Remix-Revalidate" in thrown.thrown.headers <==>
            HeaderHas(headers, "X-Remix-Revalidate") || HeaderHas(headers, "Set-Cookie"))
      && ("X-Remix-Reload-Document" in thrown.thrown.headers <==> HeaderHas(headers, "X-Remix-Reload-Document"))
      && ("X-Remix-Replace" in thrown.thrown.headers <==> HeaderHas(headers, "X-Remix-Replace"))
  {
  }

  /** The context redirect branch of the handler is never taken: the
      document headers never carry a `Location`. */
  lemma ContextRedirectUnreachable(context: HandlerContext, split: string -> seq<string>)
    ensures !HeaderHas(Named("set-cookie", DocumentCookies(context, split)), "Location")
  {
    OnlyCookies(DocumentCookies(context, split), "Location");
  }
}
