/** The client half of the single-fetch protocol
    (framework/react-router.client.tsx): how a navigation's matches are turned
    into one shared `.data` request plus isolated per-route requests, how the
    response is checked and decoded, and how each route's slot is unwrapped
    into a value, a thrown error or a thrown redirect.

    The network is a function from the requested URL to the response it
    gets; the RSC stream decoder is folded into the response body, which
    either has no body, fails to decode, or decodes to a payload. */
module ClientStrategy {
  import opened Js
  import opened Strings
  import opened Http
  import opened SingleFetch

  // ---------------------------------------------------------------------
  // Data URLs
  // ---------------------------------------------------------------------

  /** `pathname.replace(/\/$/, "")`: at most one trailing slash goes. */
  function StripTrailingSlash(p: string): string {
    if EndsWith(p, "/") then p[..|p| - 1] else p
  }

  /** The path of the data request for a logical path. */
  function DataPath(p: string): string {
    if p == "/" then "/_root.data" else StripTrailingSlash(p) + ".data"
  }

  /** `isReactRouterDataRequest`. */
  predicate IsDataRequest(pathname: string) {
    EndsWith(pathname, ".data")
  }

  /** `singleFetchUrl`: a fresh URL whose path is rewritten in place. */
  method SingleFetchUrl(reqUrl: UrlValue) returns (url: Url)
    ensures fresh(url)
    ensures url.Value() == UrlValue(DataPath(reqUrl.pathname), reqUrl.search)
  {
    url := new Url(reqUrl);
    if url.pathname == "/" {
      url.pathname := "/_root.data";
    } else {
      url.pathname := StripTrailingSlash(url.pathname) + ".data";
    }
  }

  lemma DataPathRoot()
    ensures DataPath("/") == "/_root.data"
  {
  }

  /** Every other path loses exactly one trailing slash and gains `.data`;
      the result is always recognised as a data request. */
  lemma {:induction false} DataPathShape(p: string)
    ensures p != "/" && !EndsWith(p, "/") ==> DataPath(p) == p + ".data"
    ensures p != "/" && EndsWith(p, "/") ==> DataPath(p) == p[..|p| - 1] + ".data"
    ensures IsDataRequest(DataPath(p))
  {
    var d := DataPath(p);
    assert d[|d| - 5..] == ".data";
  }

  // ---------------------------------------------------------------------
  // The `index` search parameter
  // ---------------------------------------------------------------------

  /** The non-empty strings of `vs`, in order. */
  function NonEmptyValues(vs: seq<string>): (r: seq<string>)
    ensures |r| <= |vs|
    ensures forall i :: 0 <= i < |r| ==> r[i] != ""
  {
    if vs == [] then []
    else (if vs[0] != "" then [vs[0]] else []) + NonEmptyValues(vs[1..])
  }

  lemma {:induction false} NonEmptyValuesConcat(a: seq<string>, b: seq<string>)
    ensures NonEmptyValues(a + b) == NonEmptyValues(a) + NonEmptyValues(b)
  {
    if a == [] {
      assert a + b == b;
    } else {
      assert (a + b)[1..] == a[1..] + b;
      NonEmptyValuesConcat(a[1..], b);
    }
  }

  /** Filtering values that are all non-empty changes nothing. */
  lemma {:induction false} NonEmptyValuesOfNonEmpty(vs: seq<string>)
    requires forall i :: 0 <= i < |vs| ==> vs[i] != ""
    ensures NonEmptyValues(vs) == vs
  {
    if vs != [] {
      NonEmptyValuesOfNonEmpty(vs[1..]);
    }
  }

  /** A non-empty value is kept, an empty one is not. */
  lemma {:induction false} NonEmptyValuesMembers(vs: seq<string>, v: string)
    ensures v in NonEmptyValues(vs) <==> v in vs && v != ""
  {
    if vs != [] {
      NonEmptyValuesMembers(vs[1..], v);
      assert vs == [vs[0]] + vs[1..];
    }
  }

  /** The search list after `stripIndexParam`: the other parameters keep
      their order, and the non-empty `index` values follow them. */
  function IndexStripped(ps: seq<Entry>): seq<Entry> {
    Without(ps, "index") + Named("index", NonEmptyValues(ValuesOf(ps, "index")))
  }

  /** The loop of `stripIndexParam` that keeps the non-empty values. */
  method KeepNonEmpty(indexValues: seq<string>) returns (indexValuesToKeep: seq<string>)
    ensures indexValuesToKeep == NonEmptyValues(indexValues)
  {
    indexValuesToKeep := [];
    for i := 0 to |indexValues|
      invariant indexValuesToKeep == NonEmptyValues(indexValues[..i])
    {
      assert indexValues[..i + 1] == indexValues[..i] + [indexValues[i]];
      NonEmptyValuesConcat(indexValues[..i], [indexValues[i]]);
      if indexValues[i] != "" {
        indexValuesToKeep := indexValuesToKeep + [indexValues[i]];
      }
    }
    assert indexValues[..|indexValues|] == indexValues;
  }

  /** The loop of `stripIndexParam` that re-appends the kept values. */
  method AppendAll(url: Url, name: string, values: seq<string>)
    modifies url
    ensures url.pathname == old(url.pathname)
    ensures url.search == old(url.search) + Named(name, values)
  {
    for i := 0 to |values|
      invariant url.pathname == old(url.pathname)
      invariant url.search == old(url.search) + Named(name, values[..i])
    {
      ghost var appended := Named(name, values[..i]);
      assert values[..i + 1] == values[..i] + [values[i]];
      NamedSnoc(name, values[..i], values[i]);
      url.AppendParam(name, values[i]);
      assert old(url.search) + appended + [Entry(name, values[i])]
          == old(url.search) + (appended + [Entry(name, values[i])]);
    }
    assert values[..|values|] == values;
  }

  /** `stripIndexParam`: read every `index` value, delete them all, then
      re-append the non-empty ones. */
  method StripIndexParam(url: Url)
    modifies url
    ensures url.pathname == old(url.pathname)
    ensures url.search == IndexStripped(old(url.search))
  {
    var indexValues := ValuesOf(url.search, "index");
    url.DeleteParam("index");
    var indexValuesToKeep := KeepNonEmpty(indexValues);
    AppendAll(url, "index", indexValuesToKeep);
  }

  /** The other parameters are left as they were, in their order. */
  lemma StripIndexKeepsOthers(ps: seq<Entry>, name: string)
    requires name != "index"
    ensures Without(IndexStripped(ps), "index") == Without(ps, "index")
    ensures ValuesOf(IndexStripped(ps), name) == ValuesOf(ps, name)
  {
    var vs := NonEmptyValues(ValuesOf(ps, "index"));
    WithoutConcat(Without(ps, "index"), Named("index", vs), "index");
    WithoutIdempotent(ps, "index");
    NamedValues("index", vs, name);
    ValuesOfConcat(Without(ps, "index"), Named("index", vs), name);
    ValuesOfWithout(ps, "index", name);
  }

  /** Exactly the non-empty `index` values survive, in their order. */
  lemma StripIndexValues(ps: seq<Entry>)
    ensures ValuesOf(IndexStripped(ps), "index") == NonEmptyValues(ValuesOf(ps, "index"))
  {
    var vs := NonEmptyValues(ValuesOf(ps, "index"));
    ValuesOfConcat(Without(ps, "index"), Named("index", vs), "index");
    ValuesOfWithout(ps, "index", "index");
    NamedValues("index", vs, "index");
  }

  /** Stripping twice is stripping once. */
  lemma StripIndexIdempotent(ps: seq<Entry>)
    ensures IndexStripped(IndexStripped(ps)) == IndexStripped(ps)
  {
    var vs := NonEmptyValues(ValuesOf(ps, "index"));
    StripIndexKeepsOthers(ps, "");
    StripIndexValues(ps);
    NonEmptyValuesOfNonEmpty(vs);
  }

  // ---------------------------------------------------------------------
  // Request init
  // ---------------------------------------------------------------------

  predicate WordChar(c: char) {
    ('a' <= c <= 'z') || ('A' <= c <= 'Z') || ('0' <= c <= '9') || c == '_'
  }

  /** `/\btok\b/.test(s)` for a token that starts and ends with a word
      character: an occurrence not glued to a word character on either side. */
  predicate HasToken(s: string, tok: string) {
    exists i :: 0 <= i <= |s| - |tok| && TokenAt(s, tok, i)
  }

  /** `tok` occurs at `i`, not glued to a word character on either side. */
  predicate TokenAt(s: string, tok: string, i: int)
    requires 0 <= i <= |s| - |tok|
  {
    && s[i..i + |tok|] == tok
    && (i == 0 || !WordChar(s[i - 1]))
    && (i + |tok| == |s| || !WordChar(s[i + |tok|]))
  }

  datatype BodyKind = NoRequestBody | JsonBody | TextBody | UrlEncodedBody | FormDataBody

  /** A `RequestInit` as far as `createRequestInit` fills it; the abort
      signal it always copies is not modelled. */
  datatype RequestInit = RequestInit(httpMethod: Option<string>, contentType: Option<string>, body: BodyKind)

  /** `createRequestInit`: GET carries nothing; any other method is forwarded
      with its body re-encoded according to the request's content type. */
  function CreateRequestInit(httpMethod: string, contentType: Option<string>): (init: RequestInit)
    ensures httpMethod == "GET" <==> init.httpMethod.None?
    ensures httpMethod == "GET" <==> init.body == NoRequestBody
    ensures init.httpMethod.Some? ==> init.httpMethod.value == httpMethod
    ensures init.contentType.Some? <==> init.body in {JsonBody, TextBody}
    ensures init.contentType.Some? ==> init.contentType == contentType
    ensures httpMethod != "GET" && TruthyString(contentType) && HasToken(contentType.value, "application/json")
      ==> init.body == JsonBody
    ensures httpMethod != "GET" && TruthyString(contentType)
      && !HasToken(contentType.value, "application/json") && HasToken(contentType.value, "text/plain")
      ==> init.body == TextBody
    ensures httpMethod != "GET" && TruthyString(contentType)
      && !HasToken(contentType.value, "application/json") && !HasToken(contentType.value, "text/plain")
      && HasToken(contentType.value, "application/x-www-form-urlencoded")
      ==> init.body == UrlEncodedBody
    ensures httpMethod != "GET" && (!TruthyString(contentType) || (!HasToken(contentType.value, "application/json")
        && !HasToken(contentType.value, "text/plain")
        && !HasToken(contentType.value, "application/x-www-form-urlencoded")))
      <==> init.body == FormDataBody
  {
    if httpMethod == "GET" then RequestInit(None, None, NoRequestBody)
    else if TruthyString(contentType) && HasToken(contentType.value, "application/json") then
      RequestInit(Some(httpMethod), contentType, JsonBody)
    else if TruthyString(contentType) && HasToken(contentType.value, "text/plain") then
      RequestInit(Some(httpMethod), contentType, TextBody)
    else if TruthyString(contentType) && HasToken(contentType.value, "application/x-www-form-urlencoded") then
      RequestInit(Some(httpMethod), None, UrlEncodedBody)
    else
      RequestInit(Some(httpMethod), None, FormDataBody)
  }

  /** The token match needs word boundaries: a parameterised JSON type is
      JSON, but `application/jsonp` is not. */
  lemma ContentTypeBoundaries()
    ensures HasToken("application/json; charset=utf-8", "application/json")
    ensures !HasToken("application/jsonp", "application/json")
  {
    var tok := "application/json";
    var s := "application/json; charset=utf-8";
    assert s[0..16] == tok;
    assert TokenAt(s, tok, 0);
    var t := "application/jsonp";
    assert !TokenAt(t, tok, 0) by {
      assert t[16] == 'p';
    }
    assert !TokenAt(t, tok, 1) by {
      assert t[1..17][0] == t[1] == 'p';
      assert tok[0] == 'a';
    }
  }

  // ---------------------------------------------------------------------
  // Responses
  // ---------------------------------------------------------------------

  /** What reading the body with the RSC decoder gives. */
  datatype Body = NoBody | Undecodable | Payload(results: SingleFetchResults)

  /** What `fetch` resolves to, or the value it rejects with. */
  datatype Response =
    | Response(status: int, headers: seq<Entry>, body: Body)
    | NetworkError(error: Value)

  datatype Decoded = Decoded(status: int, data: SingleFetchResults)

  /** A 404 that did not come from the framework's server. */
  predicate ForeignNotFound(res: Response) {
    res.Response? && res.status == 404 && !HeaderHas(res.headers, "X-Remix-Response")
  }

  /** `fetchAndDecode` after the fetch has settled. */
  function FetchAndDecode(res: Response): (r: Result<Decoded>)
    ensures r.Ok? <==> res.Response? && !ForeignNotFound(res) && res.body.Payload?
    ensures r.Ok? ==> r.value == Decoded(res.status, res.body.results)
    ensures res.NetworkError? ==> r == Throw(ThrownValue(res.error))
    ensures ForeignNotFound(res) ==> r == Throw(ErrorResponse(404, "Not Found", true))
    ensures res.Response? && !ForeignNotFound(res) && res.body.NoBody?
      ==> r == Throw(ErrorObj("No response body to decode"))
    ensures res.Response? && !ForeignNotFound(res) && res.body.Undecodable?
      ==> r == Throw(ErrorObj("Unable to decode RSC response"))
  {
    match res
    case NetworkError(e) => Throw(ThrownValue(e))
    case Response(status, headers, body) =>
      if status == 404 && !HeaderHas(headers, "X-Remix-Response") then
        Throw(ErrorResponse(404, "Not Found", true))
      else
        match body
        case NoBody => Throw(ErrorObj("No response body to decode"))
        case Undecodable => Throw(ErrorObj("Unable to decode RSC response"))
        case Payload(results) => Ok(Decoded(status, results))
  }

  // ---------------------------------------------------------------------
  // Unwrapping results
  // ---------------------------------------------------------------------

  /** The headers `unwrapSingleFetchResult` gives the redirect it throws:
      each flag header is present, with value "yes", exactly when its flag is. */
  function FlagHeaders(r: RedirectResult): (h: map<string, string>)
    ensures "X-Remix-Revalidate" in h <==> r.revalidate
    ensures "X-Remix-Reload-Document" in h <==> r.reload
    ensures "X-Remix-Replace" in h <==> r.replace
    ensures forall k :: k in h ==> k in {"X-Remix-Revalidate", "X-Remix-Reload-Document", "X-Remix-Replace"} && h[k] == "yes"
  {
    var h0: map<string, string> := map[];
    var h1 := if r.revalidate then h0["X-Remix-Revalidate" := "yes"] else h0;
    var h2 := if r.reload then h1["X-Remix-Reload-Document" := "yes"] else h1;
    if r.replace then h2["X-Remix-Replace" := "yes"] else h2
  }

  /** The redirect `unwrapSingleFetchResult` throws for a redirect result. */
  function RedirectThrown(r: RedirectResult): Thrown {
    RedirectResponse(r.redirect, r.status, FlagHeaders(r))
  }

  /** `unwrapSingleFetchResult`. */
  function UnwrapSingleFetchResult(result: RouteResult, routeId: string): (r: Result<Value>)
    ensures result.DataResult? <==> r.Ok?
    ensures result.DataResult? ==> r == Ok(result.data)
    ensures result.ErrorResult? <==> r.Throw? && r.thrown.ThrownValue?
    ensures result.ErrorResult? ==> r == Throw(ThrownValue(result.error))
    ensures result.RedirectRoute? ==> r == Throw(RedirectThrown(result.redirectResult))
    ensures result.Unrecognized? ==> r == Throw(ErrorObj("No response found for routeId \"" + routeId + "\""))
  {
    match result
    case ErrorResult(e) => Throw(ThrownValue(e))
    case RedirectRoute(rr) => Throw(RedirectThrown(rr))
    case DataResult(d) => Ok(d)
    case Unrecognized => Throw(ErrorObj("No response found for routeId \"" + routeId + "\""))
  }

  /** `unwrapSingleFetchResults`: a top-level redirect is thrown for every
      route; a route without a slot gets `null`; otherwise its slot is
      unwrapped. */
  function UnwrapSingleFetchResults(results: SingleFetchResults, routeId: string): (r: Result<Value>)
    ensures results.RedirectResults? ==> r == Throw(RedirectThrown(results.redirect))
    ensures results.DataResults? && routeId !in results.data ==> r == Ok(Null)
    ensures results.DataResults? && routeId in results.data
      ==> r == UnwrapSingleFetchResult(results.data[routeId], routeId)
  {
    match results
    case RedirectResults(rr) => UnwrapSingleFetchResult(RedirectRoute(rr), routeId)
    case DataResults(data, _) =>
      if routeId in data then UnwrapSingleFetchResult(data[routeId], routeId) else Ok(Null)
  }

  /** The value one route's loader call ends with, given how the fetch ended:
      a failed fetch or decode is that route's failure, a decoded payload is
      unwrapped for that route. */
  function LoaderResult(decoded: Result<Decoded>, routeId: string): Result<Value> {
    match decoded
    case Throw(e) => Throw(e)
    case Ok(d) => UnwrapSingleFetchResults(d.data, routeId)
  }

  /** `DataStrategyResult`: `{type: "data", result}` or `{type: "error", result}`. */
  datatype StrategyResult = DataEntry(result: Value) | ErrorEntry(error: Thrown)

  /** How a handler's return or throw is recorded. */
  function Settle(r: Result<Value>): (s: StrategyResult)
    ensures r.Ok? <==> s.DataEntry?
    ensures r.Ok? ==> s.result == r.value
    ensures r.Throw? ==> s.error == r.thrown
  {
    match r
    case Ok(v) => DataEntry(v)
    case Throw(e) => ErrorEntry(e)
  }

  /** The URL with `_routes` set to one route id. */
  function WithRoutes(u: UrlValue, routeIds: string): UrlValue {
    UrlValue(u.pathname, SetEntry(u.search, "_routes", routeIds))
  }

  /** `fetchSingleLoader`: copy the URL, scope it to one route, fetch and
      unwrap that route's result. */
  method FetchSingleLoader(url: Url, routeId: string, network: UrlValue -> Response)
    returns (r: Result<Value>, requested: UrlValue)
    ensures requested == WithRoutes(url.Value(), routeId)
    ensures ValuesOf(requested.search, "_routes") == [routeId]
    ensures r == LoaderResult(FetchAndDecode(network(requested)), routeId)
  {
    var singleLoaderUrl := new Url(url.Value());
    singleLoaderUrl.SetParam("_routes", routeId);
    requested := singleLoaderUrl.Value();
    r := LoaderResult(FetchAndDecode(network(requested)), routeId);
  }

  // ---------------------------------------------------------------------
  // Classification of navigation matches
  // ---------------------------------------------------------------------

  /** The route flags the client manifest publishes. */
  datatype ManifestRoute = ManifestRoute(hasLoader: bool, hasClientLoader: bool)

  /** `DataStrategyMatch` as far as the strategy reads it. */
  datatype StrategyMatch = StrategyMatch(routeId: string, shouldLoad: bool)

  /** `router.state`: whether hydration finished, and which routes have data. */
  datatype RouterState = RouterState(initialized: bool, loaderData: set<string>)

  /** What a match does in a navigational load. */
  datatype Participation = NotLoaded | OptOut | ClientIsolated | Batched

  predicate DistinctIds(ms: seq<StrategyMatch>) {
    forall i, j :: 0 <= i < j < |ms| ==> ms[i].routeId != ms[j].routeId
  }

  predicate HasServerLoader(id: string, manifest: map<string, ManifestRoute>) {
    id in manifest && manifest[id].hasLoader
  }

  /** The decision each `resolve` callback takes before its first await. */
  function Classify(m: StrategyMatch, router: RouterState, manifest: map<string, ManifestRoute>): Participation {
    if !m.shouldLoad && !router.initialized then NotLoaded
    else if !m.shouldLoad && m.routeId in router.loaderData && HasServerLoader(m.routeId, manifest) then OptOut
    else if m.routeId in manifest && manifest[m.routeId].hasClientLoader then ClientIsolated
    else Batched
  }

  /** The match sets `foundOptOutRoute`. */
  predicate TriggersScope(m: StrategyMatch, router: RouterState, manifest: map<string, ManifestRoute>) {
    var c := Classify(m, router, manifest);
    c == OptOut || (c == ClientIsolated && HasServerLoader(m.routeId, manifest))
  }

  /** The match is added to `routesParams`. */
  predicate InScope(m: StrategyMatch, router: RouterState, manifest: map<string, ManifestRoute>) {
    Classify(m, router, manifest) == Batched && HasServerLoader(m.routeId, manifest)
  }

  // The following are defined on the last match, as the loop adds it.

  function OptOutFound(ms: seq<StrategyMatch>, router: RouterState, manifest: map<string, ManifestRoute>): bool {
    if ms == [] then false
    else OptOutFound(ms[..|ms| - 1], router, manifest) || TriggersScope(ms[|ms| - 1], router, manifest)
  }

  /** The ids of `routesParams`. */
  function ScopeSet(ms: seq<StrategyMatch>, router: RouterState, manifest: map<string, ManifestRoute>): set<string> {
    if ms == [] then {}
    else
      ScopeSet(ms[..|ms| - 1], router, manifest)
      + (if InScope(ms[|ms| - 1], router, manifest) then {ms[|ms| - 1].routeId} else {})
  }

  /** The ids of in-scope matches, in match order. */
  function ScopeIds(ms: seq<StrategyMatch>, router: RouterState, manifest: map<string, ManifestRoute>): seq<string> {
    if ms == [] then []
    else
      ScopeIds(ms[..|ms| - 1], router, manifest)
      + (if InScope(ms[|ms| - 1], router, manifest) then [ms[|ms| - 1].routeId] else [])
  }

  /** `matches.filter((m) => ids.has(m.route.id)).map((m) => m.route.id)`. */
  function FilterIds(ms: seq<StrategyMatch>, ids: set<string>): seq<string> {
    if ms == [] then []
    else FilterIds(ms[..|ms| - 1], ids) + (if ms[|ms| - 1].routeId in ids then [ms[|ms| - 1].routeId] else [])
  }

  function IsolatedIds(ms: seq<StrategyMatch>, router: RouterState, manifest: map<string, ManifestRoute>): set<string> {
    if ms == [] then {}
    else
      IsolatedIds(ms[..|ms| - 1], router, manifest)
      + (if Classify(ms[|ms| - 1], router, manifest) == ClientIsolated then {ms[|ms| - 1].routeId} else {})
  }

  function BatchedIds(ms: seq<StrategyMatch>, router: RouterState, manifest: map<string, ManifestRoute>): set<string> {
    if ms == [] then {}
    else
      BatchedIds(ms[..|ms| - 1], router, manifest)
      + (if Classify(ms[|ms| - 1], router, manifest) == Batched then {ms[|ms| - 1].routeId} else {})
  }

  /** The isolated requests, in the order the matches issue them. */
  function IsolatedRequests(base: UrlValue, ms: seq<StrategyMatch>, router: RouterState, manifest: map<string, ManifestRoute>): seq<UrlValue> {
    if ms == [] then []
    else
      IsolatedRequests(base, ms[..|ms| - 1], router, manifest)
      + (if Classify(ms[|ms| - 1], router, manifest) == ClientIsolated then [WithRoutes(base, ms[|ms| - 1].routeId)] else [])
  }

  /** The data URL both strategies start from. */
  function BaseDataUrl(request: UrlValue): UrlValue {
    UrlValue(DataPath(request.pathname), IndexStripped(request.search))
  }

  /** Whether the shared request is scoped with `_routes`. */
  predicate Scoped(ms: seq<StrategyMatch>, router: RouterState, manifest: map<string, ManifestRoute>) {
    OptOutFound(ms, router, manifest) && ScopeSet(ms, router, manifest) != {}
  }

  /** The URL of the shared request, built once every match is classified. */
  function SharedUrl(base: UrlValue, ms: seq<StrategyMatch>, router: RouterState, manifest: map<string, ManifestRoute>): UrlValue {
    if Scoped(ms, router, manifest) then WithRoutes(base, Join(ScopeIds(ms, router, manifest), ","))
    else base
  }

  /** What a navigational load ends with: the results record and the
      requests issued, isolated ones first (they are issued while matches are
      being classified) and the shared one last. */
  ghost predicate NavigationOutcome(
    router: RouterState, request: UrlValue, ms: seq<StrategyMatch>, manifest: map<string, ManifestRoute>,
    network: UrlValue -> Response, results: map<string, StrategyResult>, fetched: seq<UrlValue>)
  {
    var base := BaseDataUrl(request);
    var shared := SharedUrl(base, ms, router, manifest);
    && results.Keys == IsolatedIds(ms, router, manifest) + BatchedIds(ms, router, manifest)
    && fetched == IsolatedRequests(base, ms, router, manifest) + [shared]
    && (forall i :: 0 <= i < |ms| && Classify(ms[i], router, manifest) == ClientIsolated ==>
          ms[i].routeId in results &&
          results[ms[i].routeId]
          == Settle(LoaderResult(FetchAndDecode(network(WithRoutes(base, ms[i].routeId))), ms[i].routeId)))
    && (forall i :: 0 <= i < |ms| && Classify(ms[i], router, manifest) == Batched ==>
          ms[i].routeId in results && results[ms[i].routeId] == Settle(LoaderResult(FetchAndDecode(network(shared)), ms[i].routeId)))
  }

  lemma {:induction false} IdsMembership(ms: seq<StrategyMatch>, router: RouterState, manifest: map<string, ManifestRoute>, id: string)
    ensures id in IsolatedIds(ms, router, manifest)
      <==> exists i :: 0 <= i < |ms| && ms[i].routeId == id && Classify(ms[i], router, manifest) == ClientIsolated
    ensures id in BatchedIds(ms, router, manifest)
      <==> exists i :: 0 <= i < |ms| && ms[i].routeId == id && Classify(ms[i], router, manifest) == Batched
    ensures id in ScopeSet(ms, router, manifest)
      <==> exists i :: 0 <= i < |ms| && ms[i].routeId == id && InScope(ms[i], router, manifest)
  {
    if ms != [] {
      var init := ms[..|ms| - 1];
      IdsMembership(init, router, manifest, id);
      assert forall i :: 0 <= i < |init| ==> init[i] == ms[i];
    }
  }

  lemma {:induction false} OptOutFoundExists(ms: seq<StrategyMatch>, router: RouterState, manifest: map<string, ManifestRoute>)
    ensures OptOutFound(ms, router, manifest) <==> exists i :: 0 <= i < |ms| && TriggersScope(ms[i], router, manifest)
  {
    if ms != [] {
      var init := ms[..|ms| - 1];
      OptOutFoundExists(init, router, manifest);
      assert forall i :: 0 <= i < |init| ==> init[i] == ms[i];
    }
  }

  /** With distinct ids, filtering the matches by the `routesParams` set
      lists the in-scope ids in match order. */
  lemma {:induction false} FilterScopeSet(ms: seq<StrategyMatch>, router: RouterState, manifest: map<string, ManifestRoute>, ids: set<string>)
    requires DistinctIds(ms)
    requires ids == ScopeSet(ms, router, manifest)
    ensures FilterIds(ms, ids) == ScopeIds(ms, router, manifest)
  {
    forall i | 0 <= i < |ms|
      ensures ms[i].routeId in ids <==> InScope(ms[i], router, manifest)
    {
      IdsMembership(ms, router, manifest, ms[i].routeId);
    }
    FilterMatchesScope(ms, router, manifest, ids);
  }

  lemma {:induction false} FilterMatchesScope(ms: seq<StrategyMatch>, router: RouterState, manifest: map<string, ManifestRoute>, ids: set<string>)
    requires forall i :: 0 <= i < |ms| ==> (ms[i].routeId in ids <==> InScope(ms[i], router, manifest))
    ensures FilterIds(ms, ids) == ScopeIds(ms, router, manifest)
  {
    if ms != [] {
      var init := ms[..|ms| - 1];
      assert forall i :: 0 <= i < |init| ==> init[i] == ms[i];
      FilterMatchesScope(init, router, manifest, ids);
    }
  }

  // ---------------------------------------------------------------------
  // Strategies
  // ---------------------------------------------------------------------

  /** The isolated requests issued while the matches are classified, and
      what each records. */
  ghost predicate IsolatedOutcome(
    base: UrlValue, ms: seq<StrategyMatch>, router: RouterState, manifest: map<string, ManifestRoute>,
    network: UrlValue -> Response, results: map<string, StrategyResult>, fetched: seq<UrlValue>)
  {
    && results.Keys == IsolatedIds(ms, router, manifest)
    && fetched == IsolatedRequests(base, ms, router, manifest)
    && (forall i :: 0 <= i < |ms| && Classify(ms[i], router, manifest) == ClientIsolated ==>
          ms[i].routeId in results &&
          results[ms[i].routeId]
          == Settle(LoaderResult(FetchAndDecode(network(WithRoutes(base, ms[i].routeId))), ms[i].routeId)))
  }

  /** A match that is not isolated leaves the isolated outcome as it was. */
  lemma IsolatedSkip(
    base: UrlValue, ms: seq<StrategyMatch>, i: nat, router: RouterState, manifest: map<string, ManifestRoute>,
    network: UrlValue -> Response, results: map<string, StrategyResult>, fetched: seq<UrlValue>)
    requires i < |ms| && Classify(ms[i], router, manifest) != ClientIsolated
    requires IsolatedOutcome(base, ms[..i], router, manifest, network, results, fetched)
    ensures IsolatedOutcome(base, ms[..i + 1], router, manifest, network, results, fetched)
  {
    var post := ms[..i + 1];
    assert post[..i] == ms[..i];
    forall j | 0 <= j < |post| && Classify(post[j], router, manifest) == ClientIsolated
      ensures post[j] == ms[..i][j]
    {
    }
  }

  /** An isolated match adds its own request and its own result. */
  lemma IsolatedAdd(
    base: UrlValue, ms: seq<StrategyMatch>, i: nat, router: RouterState, manifest: map<string, ManifestRoute>,
    network: UrlValue -> Response, results: map<string, StrategyResult>, fetched: seq<UrlValue>)
    requires DistinctIds(ms) && i < |ms| && Classify(ms[i], router, manifest) == ClientIsolated
    requires IsolatedOutcome(base, ms[..i], router, manifest, network, results, fetched)
    ensures
      var id := ms[i].routeId;
      var requested := WithRoutes(base, id);
      IsolatedOutcome(base, ms[..i + 1], router, manifest, network,
        results[id := Settle(LoaderResult(FetchAndDecode(network(requested)), id))], fetched + [requested])
  {
    var post := ms[..i + 1];
    assert post[..i] == ms[..i];
    var id := ms[i].routeId;
    forall j | 0 <= j < i
      ensures post[j] == ms[..i][j] && post[j].routeId != id
    {
    }
  }

  /** The part of every `resolve` callback that runs before the barrier
      opens: classify the match, record whether the shared request must be
      scoped and which routes it is for, and issue the isolated request of
      a route with a client loader straight away. */
  method ResolveMatches(
    url: Url, router: RouterState, matches: seq<StrategyMatch>,
    manifest: map<string, ManifestRoute>, network: UrlValue -> Response)
    returns (foundOptOutRoute: bool, routesParams: set<string>,
             results: map<string, StrategyResult>, fetched: seq<UrlValue>)
    requires DistinctIds(matches)
    ensures foundOptOutRoute == OptOutFound(matches, router, manifest)
    ensures routesParams == ScopeSet(matches, router, manifest)
    ensures IsolatedOutcome(url.Value(), matches, router, manifest, network, results, fetched)
  {
    routesParams := {};
    foundOptOutRoute := false;
    results := map[];
    fetched := [];
    for i := 0 to |matches|
      invariant foundOptOutRoute == OptOutFound(matches[..i], router, manifest)
      invariant routesParams == ScopeSet(matches[..i], router, manifest)
      invariant IsolatedOutcome(url.Value(), matches[..i], router, manifest, network, results, fetched)
    {
      var m := matches[i];
      assert matches[..i + 1][..i] == matches[..i];
      assert matches[..i + 1][i] == m;
      match Classify(m, router, manifest)
      case NotLoaded =>
        IsolatedSkip(url.Value(), matches, i, router, manifest, network, results, fetched);
      case OptOut =>
        IsolatedSkip(url.Value(), matches, i, router, manifest, network, results, fetched);
        foundOptOutRoute := true;
      case ClientIsolated =>
        IsolatedAdd(url.Value(), matches, i, router, manifest, network, results, fetched);
        if manifest[m.routeId].hasLoader {
          foundOptOutRoute := true;
        }
        var r, requested := FetchSingleLoader(url, m.routeId, network);
        fetched := fetched + [requested];
        results := results[m.routeId := Settle(r)];
      case Batched =>
        IsolatedSkip(url.Value(), matches, i, router, manifest, network, results, fetched);
        if m.routeId in manifest && manifest[m.routeId].hasLoader {
          routesParams := routesParams + {m.routeId};
        }
    }
    assert matches[..|matches|] == matches;
  }

  /** What the batched matches before `i` have recorded on top of the
      isolated results. */
  ghost predicate BatchedUpTo(
    shared: Result<Decoded>, router: RouterState, ms: seq<StrategyMatch>, i: nat,
    manifest: map<string, ManifestRoute>, isolated: map<string, StrategyResult>, results: map<string, StrategyResult>)
    requires i <= |ms|
  {
    && results.Keys == IsolatedIds(ms, router, manifest) + BatchedIds(ms[..i], router, manifest)
    && (forall k :: k in isolated ==> k in results && results[k] == isolated[k])
    && (forall j :: 0 <= j < i && Classify(ms[j], router, manifest) == Batched ==>
          ms[j].routeId in results && results[ms[j].routeId] == Settle(LoaderResult(shared, ms[j].routeId)))
  }

  lemma BatchedSkip(
    shared: Result<Decoded>, router: RouterState, ms: seq<StrategyMatch>, i: nat,
    manifest: map<string, ManifestRoute>, isolated: map<string, StrategyResult>, results: map<string, StrategyResult>)
    requires i < |ms| && Classify(ms[i], router, manifest) != Batched
    requires BatchedUpTo(shared, router, ms, i, manifest, isolated, results)
    ensures BatchedUpTo(shared, router, ms, i + 1, manifest, isolated, results)
  {
    assert ms[..i + 1][..i] == ms[..i];
  }

  lemma BatchedAdd(
    shared: Result<Decoded>, router: RouterState, ms: seq<StrategyMatch>, i: nat,
    manifest: map<string, ManifestRoute>, isolated: map<string, StrategyResult>, results: map<string, StrategyResult>)
    requires DistinctIds(ms) && isolated.Keys == IsolatedIds(ms, router, manifest)
    requires i < |ms| && Classify(ms[i], router, manifest) == Batched
    requires BatchedUpTo(shared, router, ms, i, manifest, isolated, results)
    ensures BatchedUpTo(shared, router, ms, i + 1, manifest, isolated,
      results[ms[i].routeId := Settle(LoaderResult(shared, ms[i].routeId))])
  {
    var id := ms[i].routeId;
    var updated := results[id := Settle(LoaderResult(shared, id))];
    assert ms[..i + 1][..i] == ms[..i];
    assert BatchedIds(ms[..i + 1], router, manifest) == BatchedIds(ms[..i], router, manifest) + {id};
    assert id !in isolated by {
      IdsMembership(ms, router, manifest, id);
    }
    forall j | 0 <= j < i + 1 && Classify(ms[j], router, manifest) == Batched
      ensures ms[j].routeId in updated && updated[ms[j].routeId] == Settle(LoaderResult(shared, ms[j].routeId))
    {
      if j < i {
        assert ms[j].routeId != id;
      }
    }
  }

  /** The part of every batched `resolve` callback that runs after the
      shared request settled: record what the payload holds for its route. */
  method SettleBatched(
    shared: Result<Decoded>, router: RouterState, matches: seq<StrategyMatch>,
    manifest: map<string, ManifestRoute>, isolated: map<string, StrategyResult>)
    returns (results: map<string, StrategyResult>)
    requires DistinctIds(matches)
    requires isolated.Keys == IsolatedIds(matches, router, manifest)
    ensures results.Keys == IsolatedIds(matches, router, manifest) + BatchedIds(matches, router, manifest)
    ensures forall k :: k in isolated ==> k in results && results[k] == isolated[k]
    ensures forall j :: 0 <= j < |matches| && Classify(matches[j], router, manifest) == Batched ==>
      matches[j].routeId in results && results[matches[j].routeId] == Settle(LoaderResult(shared, matches[j].routeId))
  {
    results := isolated;
    for i := 0 to |matches|
      invariant BatchedUpTo(shared, router, matches, i, manifest, isolated, results)
    {
      var m := matches[i];
      if Classify(m, router, manifest) == Batched {
        BatchedAdd(shared, router, matches, i, manifest, isolated, results);
        results := results[m.routeId := Settle(LoaderResult(shared, m.routeId))];
      } else {
        BatchedSkip(shared, router, matches, i, manifest, isolated, results);
      }
    }
    assert matches[..|matches|] == matches;
  }

  /** `singleFetchLoaderNavigationStrategy`. Each match is classified in
      order (everything each `resolve` callback does before the barrier
      opens); the shared URL is then built once and fetched; each batched
      match then records what the shared payload holds for it. */
  method NavigationStrategy(
    router: RouterState, request: UrlValue, matches: seq<StrategyMatch>,
    manifest: map<string, ManifestRoute>, network: UrlValue -> Response)
    returns (results: map<string, StrategyResult>, fetched: seq<UrlValue>)
    requires DistinctIds(matches)
    ensures NavigationOutcome(router, request, matches, manifest, network, results, fetched)
  {
    var url := SingleFetchUrl(request);
    StripIndexParam(url);
    ghost var base := url.Value();
    assert base == BaseDataUrl(request);
    var foundOptOutRoute, routesParams, isolated;
    foundOptOutRoute, routesParams, isolated, fetched := ResolveMatches(url, router, matches, manifest, network);
    if foundOptOutRoute && |routesParams| > 0 {
      FilterScopeSet(matches, router, manifest, routesParams);
      url.SetParam("_routes", Join(FilterIds(matches, routesParams), ","));
    }
    assert url.Value() == SharedUrl(base, matches, router, manifest);
    var shared := FetchAndDecode(network(url.Value()));
    fetched := fetched + [url.Value()];
    results := SettleBatched(shared, router, matches, manifest, isolated);
  }

  /** The first match that should load, if any (`matches.find`). */
  function FirstToLoad(ms: seq<StrategyMatch>): (k: Option<nat>)
    ensures k.Some? ==> k.value < |ms| && ms[k.value].shouldLoad
    ensures k.Some? ==> forall j :: 0 <= j < k.value ==> !ms[j].shouldLoad
    ensures k.None? ==> forall j :: 0 <= j < |ms| ==> !ms[j].shouldLoad
  {
    if ms == [] then None
    else if ms[0].shouldLoad then Some(0)
    else match FirstToLoad(ms[1..])
      case None => None
      case Some(k) => Some(k + 1)
  }

  /** What a fetcher load ends with. */
  ghost predicate FetcherOutcome(
    request: UrlValue, ms: seq<StrategyMatch>, network: UrlValue -> Response,
    r: Result<map<string, StrategyResult>>, fetched: seq<UrlValue>)
  {
    match FirstToLoad(ms)
    case None => r == Throw(ErrorObj("No fetcher match found")) && fetched == []
    case Some(k) =>
      var id := ms[k].routeId;
      var requested := WithRoutes(BaseDataUrl(request), id);
      && fetched == [requested]
      && r == Ok(map[id := Settle(LoaderResult(FetchAndDecode(network(requested)), id))])
  }

  /** `singleFetchLoaderFetcherStrategy`: one isolated request for the first
      match that should load. */
  method FetcherStrategy(request: UrlValue, matches: seq<StrategyMatch>, network: UrlValue -> Response)
    returns (r: Result<map<string, StrategyResult>>, fetched: seq<UrlValue>)
    ensures FetcherOutcome(request, matches, network, r, fetched)
  {
    var k := FirstToLoad(matches);
    if k.None? {
      return Throw(ErrorObj("No fetcher match found")), [];
    }
    var fetcherMatch := matches[k.value];
    var url := SingleFetchUrl(request);
    StripIndexParam(url);
    var result, requested := FetchSingleLoader(url, fetcherMatch.routeId, network);
    r := Ok(map[fetcherMatch.routeId := Settle(result)]);
    fetched := [requested];
  }

  /** The router's request to the data strategy. */
  datatype StrategyRequest = StrategyRequest(httpMethod: string, url: UrlValue)

  /** `dataStrategy`: non-GET requests are not implemented, fetcher loads
      are isolated, and navigational loads are coalesced. */
  method DataStrategy(
    request: StrategyRequest, fetcherKey: Option<string>, router: RouterState,
    matches: seq<StrategyMatch>, manifest: map<string, ManifestRoute>, network: UrlValue -> Response)
    returns (r: Result<map<string, StrategyResult>>, fetched: seq<UrlValue>)
    requires request.httpMethod == "GET" && !TruthyString(fetcherKey) ==> DistinctIds(matches)
    ensures request.httpMethod != "GET" ==> r == Throw(ErrorObj("Not implemented")) && fetched == []
    ensures request.httpMethod == "GET" && TruthyString(fetcherKey)
      ==> FetcherOutcome(request.url, matches, network, r, fetched)
    ensures request.httpMethod == "GET" && !TruthyString(fetcherKey)
      ==> r.Ok? && NavigationOutcome(router, request.url, matches, manifest, network, r.value, fetched)
  {
    if request.httpMethod != "GET" {
      return Throw(ErrorObj("Not implemented")), [];
    }
    if TruthyString(fetcherKey) {
      r, fetched := FetcherStrategy(request.url, matches, network);
      return;
    }
    var results;
    results, fetched := NavigationStrategy(router, request.url, matches, manifest, network);
    r := Ok(results);
  }

  // ---------------------------------------------------------------------
  // Properties of a navigational load
  // ---------------------------------------------------------------------

  lemma {:induction false} IsolatedRequestsCount(base: UrlValue, ms: seq<StrategyMatch>, router: RouterState, manifest: map<string, ManifestRoute>)
    requires DistinctIds(ms)
    ensures |IsolatedRequests(base, ms, router, manifest)| == |IsolatedIds(ms, router, manifest)|
  {
    if ms != [] {
      var init := ms[..|ms| - 1];
      var m := ms[|ms| - 1];
      assert DistinctIds(init) by {
        assert forall i :: 0 <= i < |init| ==> init[i] == ms[i];
      }
      IsolatedRequestsCount(base, init, router, manifest);
      IsolatedIdsAbsent(init, router, manifest, m.routeId);
    }
  }

  lemma {:induction false} IsolatedIdsAbsent(ms: seq<StrategyMatch>, router: RouterState, manifest: map<string, ManifestRoute>, id: string)
    requires forall i :: 0 <= i < |ms| ==> ms[i].routeId != id
    ensures id !in IsolatedIds(ms, router, manifest)
  {
    if ms != [] {
      IsolatedIdsAbsent(ms[..|ms| - 1], router, manifest, id);
    }
  }

  /** Every isolated request is scoped to exactly one route, the route of a
      match with a client loader, on the otherwise unchanged data URL. */
  lemma {:induction false} IsolatedRequestsScoped(base: UrlValue, ms: seq<StrategyMatch>, router: RouterState, manifest: map<string, ManifestRoute>, k: nat)
    requires k < |IsolatedRequests(base, ms, router, manifest)|
    ensures exists i ::
              && 0 <= i < |ms| && Classify(ms[i], router, manifest) == ClientIsolated
              && IsolatedRequests(base, ms, router, manifest)[k] == WithRoutes(base, ms[i].routeId)
              && ValuesOf(IsolatedRequests(base, ms, router, manifest)[k].search, "_routes") == [ms[i].routeId]
  {
    var init := ms[..|ms| - 1];
    var m := ms[|ms| - 1];
    if k < |IsolatedRequests(base, init, router, manifest)| {
      IsolatedRequestsScoped(base, init, router, manifest, k);
      var i :| 0 <= i < |init| && Classify(init[i], router, manifest) == ClientIsolated
        && IsolatedRequests(base, init, router, manifest)[k] == WithRoutes(base, init[i].routeId)
        && ValuesOf(IsolatedRequests(base, init, router, manifest)[k].search, "_routes") == [init[i].routeId];
      assert init[i] == ms[i];
    } else {
      assert IsolatedRequests(base, ms, router, manifest)[k] == WithRoutes(base, m.routeId);
      assert ms[|ms| - 1] == m;
    }
  }

  /** A navigational load issues exactly one request that is not an isolated
      one, and issues it last: one round trip for every batched route. */
  lemma OneSharedRequest(
    router: RouterState, request: UrlValue, ms: seq<StrategyMatch>, manifest: map<string, ManifestRoute>,
    network: UrlValue -> Response, results: map<string, StrategyResult>, fetched: seq<UrlValue>)
    requires DistinctIds(ms)
    requires NavigationOutcome(router, request, ms, manifest, network, results, fetched)
    ensures |fetched| == |IsolatedIds(ms, router, manifest)| + 1
    ensures fetched[|fetched| - 1] == SharedUrl(BaseDataUrl(request), ms, router, manifest)
  {
    IsolatedRequestsCount(BaseDataUrl(request), ms, router, manifest);
  }

  /** The shared request is scoped exactly when some route opted out of a
      server revalidation (or runs its own client loader over a server one)
      and some batched route has a server loader. */
  lemma ScopedWhen(ms: seq<StrategyMatch>, router: RouterState, manifest: map<string, ManifestRoute>)
    ensures Scoped(ms, router, manifest) <==>
      (exists i :: 0 <= i < |ms| && TriggersScope(ms[i], router, manifest))
      && (exists i :: 0 <= i < |ms| && InScope(ms[i], router, manifest))
  {
    OptOutFoundExists(ms, router, manifest);
    if exists i :: 0 <= i < |ms| && InScope(ms[i], router, manifest) {
      var i :| 0 <= i < |ms| && InScope(ms[i], router, manifest);
      IdsMembership(ms, router, manifest, ms[i].routeId);
    }
    if ScopeSet(ms, router, manifest) != {} {
      var id :| id in ScopeSet(ms, router, manifest);
      IdsMembership(ms, router, manifest, id);
    }
  }

  lemma {:induction false} ScopeIdsNonEmpty(ms: seq<StrategyMatch>, router: RouterState, manifest: map<string, ManifestRoute>)
    requires ScopeSet(ms, router, manifest) != {}
    ensures |ScopeIds(ms, router, manifest)| > 0
  {
    var init := ms[..|ms| - 1];
    if !InScope(ms[|ms| - 1], router, manifest) {
      ScopeIdsNonEmpty(init, router, manifest);
    }
  }

  lemma {:induction false} ScopeIdsMembers(ms: seq<StrategyMatch>, router: RouterState, manifest: map<string, ManifestRoute>)
    ensures forall k :: 0 <= k < |ScopeIds(ms, router, manifest)| ==> ScopeIds(ms, router, manifest)[k] in ScopeSet(ms, router, manifest)
  {
    if ms != [] {
      ScopeIdsMembers(ms[..|ms| - 1], router, manifest);
    }
  }

  /** The `_routes` value of a scoped shared request reads back, split at
      commas, as the in-scope route ids in match order; an unscoped shared
      request is the data URL itself. */
  lemma SharedRoutesParam(base: UrlValue, ms: seq<StrategyMatch>, router: RouterState, manifest: map<string, ManifestRoute>)
    requires forall i, j :: 0 <= i < |ms| && 0 <= j < |ms[i].routeId| ==> ms[i].routeId[j] != ','
    ensures !Scoped(ms, router, manifest) ==> SharedUrl(base, ms, router, manifest) == base
    ensures Scoped(ms, router, manifest) ==>
      var vs := ValuesOf(SharedUrl(base, ms, router, manifest).search, "_routes");
      |vs| == 1 && Split(vs[0], ',') == ScopeIds(ms, router, manifest)
  {
    if Scoped(ms, router, manifest) {
      var ids := ScopeIds(ms, router, manifest);
      ScopeIdsNonEmpty(ms, router, manifest);
      ScopeIdsMembers(ms, router, manifest);
      forall k, j | 0 <= k < |ids| && 0 <= j < |ids[k]|
        ensures ids[k][j] != ','
      {
        IdsMembership(ms, router, manifest, ids[k]);
      }
      SplitJoin(ids, ',');
    }
  }

  /** Routes the load skips, and routes that opted out of revalidation, get
      no entry in the results. */
  lemma SkippedRoutesHaveNoEntry(
    router: RouterState, request: UrlValue, ms: seq<StrategyMatch>, manifest: map<string, ManifestRoute>,
    network: UrlValue -> Response, results: map<string, StrategyResult>, fetched: seq<UrlValue>, i: nat)
    requires DistinctIds(ms) && i < |ms|
    requires Classify(ms[i], router, manifest) in {NotLoaded, OptOut}
    requires NavigationOutcome(router, request, ms, manifest, network, results, fetched)
    ensures ms[i].routeId !in results
  {
    IdsMembership(ms, router, manifest, ms[i].routeId);
  }

  /** When the shared request fails, or its response cannot be decoded,
      every batched route records that same failure. */
  lemma SharedFailureReachesBatched(
    router: RouterState, request: UrlValue, ms: seq<StrategyMatch>, manifest: map<string, ManifestRoute>,
    network: UrlValue -> Response, results: map<string, StrategyResult>, fetched: seq<UrlValue>, e: Thrown)
    requires NavigationOutcome(router, request, ms, manifest, network, results, fetched)
    requires FetchAndDecode(network(fetched[|fetched| - 1])) == Throw(e)
    ensures forall i :: 0 <= i < |ms| && Classify(ms[i], router, manifest) == Batched ==>
      results[ms[i].routeId] == ErrorEntry(e)
  {
  }

  /** A top-level redirect in the shared payload is thrown, with the same
      location, status and flags, by every batched route. */
  lemma SharedRedirectReachesBatched(
    router: RouterState, request: UrlValue, ms: seq<StrategyMatch>, manifest: map<string, ManifestRoute>,
    network: UrlValue -> Response, results: map<string, StrategyResult>, fetched: seq<UrlValue>, d: Decoded)
    requires NavigationOutcome(router, request, ms, manifest, network, results, fetched)
    requires FetchAndDecode(network(fetched[|fetched| - 1])) == Ok(d) && d.data.RedirectResults?
    ensures forall i :: 0 <= i < |ms| && Classify(ms[i], router, manifest) == Batched ==>
      results[ms[i].routeId] == ErrorEntry(RedirectResponse(d.data.redirect.redirect, d.data.redirect.status, FlagHeaders(d.data.redirect)))
  {
  }
}
