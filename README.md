# Single-fetch data protocol of cf-react-server-template, in Dafny

This project models the single-fetch `.data` protocol of the template's React
Server Components framework, and proves properties of the model. One
navigation's route loaders are answered by one `.data` request, which the server
answers with one RSC payload. The model has three parts, and the modules follow
the source files:

- **Client side.** `ClientStrategy` follows `framework/react-router.client.tsx`. It covers:
  - the data URL;
  - normalising `index` parameters;
  - classifying the navigation matches into not-loaded, opt-out, client-isolated and batched;
  - the `_routes` scope of the shared request;
  - the fetcher and non-GET strategies;
  - the response rules: the 404 marker and decode failures;
  - unwrapping each route's slot into a value, a thrown error or a thrown redirect.
- **Server side.**
  - `ServerAggregator` follows `framework/react-router.tsx`. It covers:
    - rewriting the path;
    - the 404 and not-implemented exits;
    - the status-202 redirect envelope;
    - aggregating the per-route results;
    - merging `Set-Cookie` headers along the match chain up to the error boundary.
  - `RouteManifest` covers the manifest tree that `setupCache` builds and the `rendered` loop.
  - `ServerRouter` covers the document-request router component.
- **Request context.** `src/framework/server.ts` is modelled twice:
  - `ContextState` holds the state machine as functions (`action → render → sent`, the stage-guarded accessors, `renderApp`);
  - `RequestContext` holds the same record as a class whose methods update its fields in place. Each method is proved to do what the matching `ContextState` function says.
  - The async-local store is an explicit `Context?` argument, `null` outside a request.
- **Browser hooks and ids.**
  - `RouterClient` covers the router hooks of `src/framework/client.ts`.
  - `HexId` covers the hex `randomId` of `src/app/lib/utils.ts`, which is identical to `framework/react-router.tsx:426-432`.

The shared building blocks are these modules:

- `Js`: JavaScript values and truthiness, `Option`, `Result`, and thrown values.
- `Strings`: ASCII lower-casing, `join` and `split`.
- `Http`: header lists with case-insensitive names and `set`/`append`, search-parameter lists, and the `Headers` and `URL` objects as classes.
- `SingleFetch`: the result unions sent over the wire.

Several things are parameters of the model rather than parts of it:

- the network, a function from the requested URL to the response;
- the RSC decoder, folded into the response body, which is absent, undecodable, or a payload;
- `matchRoutes` and the static handler's `query`;
- `splitCookiesString`;
- the session cookie's `commit` and `destroy`;
- the random bytes of `randomId`.

## Model

| member | source | states |
|---|---|---|
| ClientStrategy.SingleFetchUrl | framework/react-router.client.tsx:311-331 | The data URL is a new URL. Its path is the data path of the request path and its search parameters are unchanged. |
| ClientStrategy.DataPathRoot | framework/react-router.client.tsx:324-325 | `/` maps to `/_root.data`. |
| ClientStrategy.DataPathShape | framework/react-router.client.tsx:326-328 | Any other path loses exactly one trailing `/` and gains `.data`. A path without a trailing `/` just gains `.data`. Every data path is recognised as a data request. |
| ClientStrategy.NonEmptyValues | framework/react-router.client.tsx:337-341 | The kept `index` values are no more than the original ones, and none is empty. |
| ClientStrategy.NonEmptyValuesMembers | framework/react-router.client.tsx:337-341 | A value is kept exactly when it was present and non-empty. |
| ClientStrategy.KeepNonEmpty | framework/react-router.client.tsx:336-341 | The filtering loop keeps exactly the non-empty values, in order. |
| ClientStrategy.AppendAll | framework/react-router.client.tsx:342-344 | The re-append loop adds one `index` entry per kept value, in order, after the other parameters. The path is untouched. |
| ClientStrategy.StripIndexParam | framework/react-router.client.tsx:333-347 | In place, the search list becomes the other parameters in their order followed by the non-empty `index` values. The path is unchanged. |
| ClientStrategy.StripIndexKeepsOthers | framework/react-router.client.tsx:333-347 | Every parameter other than `index` keeps its values and relative order. |
| ClientStrategy.StripIndexValues | framework/react-router.client.tsx:334-344 | Exactly the non-empty `index` values survive, in their original order. |
| ClientStrategy.StripIndexIdempotent | framework/react-router.client.tsx:333-347 | Stripping twice gives the same search as stripping once. |
| ClientStrategy.CreateRequestInit | framework/react-router.client.tsx:349-376 | GET carries no method and no body. Any other method is forwarded, and its body kind follows the first matching token. JSON comes first and keeps `Content-Type`. `text/plain` comes next and keeps it too. URL-encoded drops it. Form data is used exactly when there is no truthy content type or none of the three tokens occurs. |
| ClientStrategy.ContentTypeBoundaries | framework/react-router.client.tsx:357-359 | The content-type test is word-bounded: `application/json; charset=utf-8` is JSON and `application/jsonp` is not. |
| ClientStrategy.FetchAndDecode | framework/react-router.client.tsx:394-421 | The result is a decoded payload with its status exactly when the fetch resolved, it is not a 404 without `X-Remix-Response`, and the body decodes. Otherwise it is the network error, the 404 "Not Found" error response, "No response body to decode", or "Unable to decode RSC response", in that order. |
| ClientStrategy.FlagHeaders | framework/react-router.client.tsx:461-470 | Each of `X-Remix-Revalidate`, `X-Remix-Reload-Document` and `X-Remix-Replace` is present exactly when its flag is true, with value `yes`. There are no other headers. |
| ClientStrategy.UnwrapSingleFetchResult | framework/react-router.client.tsx:457-477 | `{data}` returns the data, `{error}` throws that error, and a redirect throws a redirect with the flag headers. Anything else throws "No response found for routeId". |
| ClientStrategy.UnwrapSingleFetchResults | framework/react-router.client.tsx:444-455 | A top-level redirect is thrown for every route. A route without a slot gets `null`, and otherwise its slot is unwrapped. |
| ClientStrategy.Settle | framework/react-router.client.tsx:264-278 | A returned value is recorded as `{type:"data"}` and a throw as `{type:"error"}`, carrying what was thrown. |
| ClientStrategy.FetchSingleLoader | framework/react-router.client.tsx:378-392 | The request goes to a copy of the URL whose `_routes` is exactly the one route id. Its result is that route's unwrapped slot of the decoded response. |
| ClientStrategy.ResolveMatches | framework/react-router.client.tsx:207-261 | After every match is classified, `foundOptOutRoute` and `routesParams` have been computed. Each client-isolated match has issued its own request and recorded its own result. |
| ClientStrategy.SettleBatched | framework/react-router.client.tsx:263-278 | Every batched match records what the shared response holds for it. The isolated results are kept, and nothing else gets an entry. |
| ClientStrategy.NavigationStrategy | framework/react-router.client.tsx:177-309 | The isolated requests come first, in match order, and the shared request last. The results have keys exactly for the isolated and batched matches, and each holds its request's unwrapped slot. |
| ClientStrategy.FirstToLoad | framework/react-router.client.tsx:166-167 | Gives the first match with `shouldLoad`, or nothing when there is none. |
| ClientStrategy.FetcherStrategy | framework/react-router.client.tsx:162-175 | With no match to load it throws "No fetcher match found" without fetching. Otherwise it issues one isolated request and returns a map keyed by that single id. |
| ClientStrategy.DataStrategy | framework/react-router.client.tsx:85-101 | Non-GET throws "Not implemented" without fetching. A fetcher key selects the fetcher strategy, and otherwise the navigation strategy runs. |
| ClientStrategy.IdsMembership | framework/react-router.client.tsx:214-261 | An id is isolated, batched or in `routesParams` exactly when some match with that id is classified so by the `shouldLoad`/`initialized`/`loaderData`/manifest rules. |
| ClientStrategy.OptOutFoundExists | framework/react-router.client.tsx:225-243 | `foundOptOutRoute` is set exactly when some match opted out, or has a client loader over a server loader. |
| ClientStrategy.FilterScopeSet | framework/react-router.client.tsx:290-297 | Filtering the matches by `routesParams` gives the in-scope ids in match order. |
| ClientStrategy.ScopedWhen | framework/react-router.client.tsx:290 | The shared request is scoped exactly when some route triggers scoping and some batched route has a server loader. |
| ClientStrategy.SharedRoutesParam | framework/react-router.client.tsx:290-298 | A scoped shared request carries one `_routes` value. Split at commas, it gives the in-scope ids in match order. An unscoped one is the base data URL. |
| ClientStrategy.IsolatedRequestsCount | framework/react-router.client.tsx:240-256 | With distinct ids there is one isolated request per client-isolated route. |
| ClientStrategy.IsolatedRequestsScoped | framework/react-router.client.tsx:240-256 | Every isolated request is the base URL scoped by `_routes` to exactly one client-isolated route. |
| ClientStrategy.OneSharedRequest | framework/react-router.client.tsx:283-300 | A navigation issues exactly one request besides the isolated ones, and it is the last one. |
| ClientStrategy.SkippedRoutesHaveNoEntry | framework/react-router.client.tsx:214-236 | Not-loaded and opt-out matches get no entry in the results. |
| ClientStrategy.SharedFailureReachesBatched | framework/react-router.client.tsx:300-304 | When the shared fetch or decode fails, every batched match records that same error. |
| ClientStrategy.SharedRedirectReachesBatched | framework/react-router.client.tsx:444-450 | A top-level redirect in the shared payload is thrown by every batched match, with the same location, status and flags. |
| ServerAggregator.RewriteInvertsDataPath | framework/react-router.tsx:139-141 | The server's rewrite undoes the client's data path exactly for `/` and for paths that neither end in `/` nor are `/_root`. |
| ServerAggregator.StripBasename | framework/react-router.tsx:383-402 | It is the identity for basename `/`. Otherwise it gives `null` unless the basename is a case-insensitive prefix followed by `/` or the end of the path. A non-null result starts with `/`. |
| ServerAggregator.StripBasenameSplits | framework/react-router.tsx:383-402 | The stripped part matches the basename up to case. The result is `/` or the rest of the path unchanged. |
| ServerAggregator.GetSingleFetchRedirect | framework/react-router.tsx:352-382 | It throws "Expected redirect location" exactly when there is no truthy `Location`. Otherwise the status is kept. `revalidate` is set iff `X-Remix-Revalidate` or `Set-Cookie` is present, and `reload` and `replace` iff their headers are. With no basename the target is `Location`. |
| ServerAggregator.FirstError | framework/react-router.tsx:290-292 | Gives the index of the first match with a truthy error, or the length when there is none. |
| ServerAggregator.DocumentMatchesStopAtBoundary | framework/react-router.tsx:288-296 | The document headers use the matches up to and including the first route with an error, or all matches when there is none. |
| ServerAggregator.PrependCookies | framework/react-router.tsx:341-350 | Appends exactly one `set-cookie` entry per split cookie of the parent's `Set-Cookie`, in order. It does nothing when the header is absent. |
| ServerAggregator.PrependLevel | framework/react-router.tsx:315-338 | One level adds its error cookies (at the leaf, unless they are this route's own headers object), then its action cookies, then its loader cookies. |
| ServerAggregator.GetDocumentHeaders | framework/react-router.tsx:288-340 | The document headers are exactly the `set-cookie` entries of the chain up to the boundary, root first. |
| ServerAggregator.ErrorCookiesNotDuplicated | framework/react-router.tsx:322-335 | When the error headers are the leaf's own loader or action headers object, the leaf's cookies are not added twice. |
| ServerAggregator.LevelCookiesOrder | framework/react-router.tsx:333-337 | A non-leaf level, or one without error headers, adds its action cookies then its loader cookies and nothing else. |
| ServerAggregator.OnlyCookies | framework/react-router.tsx:341-350 | The merged headers hold only `set-cookie` entries, none with any other name. |
| ServerAggregator.LoadedMatches | framework/react-router.tsx:207-211 | The loaded matches are exactly the matches with a loader whose id was matched. |
| ServerAggregator.AggregateResults | framework/react-router.tsx:203-220 | The data map's keys are exactly the loaded matches that appear in `errors` or `loaderData`. An error takes precedence over data. |
| ServerAggregator.RedirectPayload | framework/react-router.tsx:177-184 | A handler redirect becomes a `{redirect}` payload at status 202. |
| ServerAggregator.ContextPayload | framework/react-router.tsx:185-270 | With a redirect status and a `Location` it gives the redirect envelope. Otherwise it succeeds exactly when the routes can be cached and rendered. The payload then carries the context's status, the document headers and the aggregated results (keys and slots). Its rendered map holds, for each loaded id whose cached route has a component, exactly that component. |
| ServerAggregator.HandleReactRouterRequest | framework/react-router.tsx:131-286 | A non-`.data` path gives `undefined`. No match gives the 404 "Not found", checked before the method. A method other than GET or HEAD throws "Not implemented". A handler response gives the 202 envelope. A context gives the RSC payload with the cookie headers plus `Content-Type: text/x-component`, the aggregated results, the rendered map and the context's status. The rendered map holds, for each matched id whose cached route has a `Component`, exactly that component. |
| ServerAggregator.NotFoundReachesClient | framework/react-router.tsx:148-150 | The server's "Not found" reaches the client's loaders as the 404 error response. |
| ServerAggregator.NotFoundPayloadDiscarded | framework/react-router.client.tsx:400-402 | A payload the server streams with status 404 is never decoded: the client sees a bare 404 error response. |
| ServerAggregator.RedirectReachesClient | framework/react-router.tsx:177-184 | A handler redirect reaches every client loader as a thrown redirect with the same `Location` and status. Each flag header is present exactly when the handler's headers asked for it. |
| ServerAggregator.ContextRedirectUnreachable | framework/react-router.tsx:190 | The document headers never carry `Location`, so the context-redirect branch is never taken. |
| RouteManifest.RegisterDomain | framework/react-router.tsx:243 | After caching, an id is known exactly when some visited route carries it. |
| RouteManifest.RegisterLast | framework/react-router.tsx:243 | A cached id maps to the last visited route carrying it. |
| RouteManifest.SetupCache | framework/react-router.tsx:224-250 | It fails with "Route id is required" exactly when some route in the tree has no id. Otherwise the manifest mirrors the tree one-for-one: same ids, index and path, `hasAction`/`hasLoader` from `action`/`loader`, no client handlers, and `children` exactly where the route has them. Every route is cached, in visiting order. |
| RouteManifest.RenderedRoutes | framework/react-router.tsx:252-263 | It succeeds iff every matched id is truthy and cached. The map holds, under each matched id whose route has a component, that component. Otherwise it throws at the last failing match, with "Route id is required" or "Route not found". |
| RouteManifest.CacheAndRender | framework/react-router.tsx:222-263 | Caching then rendering succeeds exactly when the tree has ids and every matched id is cached. It gives the mirrored manifest, and a rendered map holding, for each matched id whose cached route has a `Component`, exactly that component. |
| ServerRouter.ServerRouter | framework/react-router.tsx:35-127 | Outside a request, or once sent, it throws as `ctx()` does. Otherwise it registers the query's promise with `waitToFlushUntil`. A handler response without a truthy `Location` and a redirect status throws "Invalid response". A redirect calls `redirect(location, status)` and renders nothing. A context returns props with its loader data, the URL, the mirrored manifest and the rendered map. That map holds, for each context match whose cached route has a `Component`, exactly that component. |
| ServerRouter.RouterRedirectReachesResponse | framework/react-router.tsx:53-59 | A query redirect during the render sets the context's status and redirect, and `Location` reaches the RSC response's headers. |
| ContextState.Ctx | src/framework/server.ts:43-52 | Throws "No context store found" without a store and "Response already sent" in `sent`. Otherwise it gives the store. |
| ContextState.CtxActionsOnly | src/framework/server.ts:54-60 | Succeeds exactly in `action`. It also throws "Response already sent" in `render`. |
| ContextState.GetActionState | src/framework/server.ts:62-64 | Succeeds exactly when `ctx()` does. |
| ContextState.SetActionState | src/framework/server.ts:66-72 | Succeeds exactly when `ctx()` does, in `action` and `render`, and the key is then set. |
| ContextState.GetCookieSession | src/framework/server.ts:74-76 | Succeeds exactly when `ctx()` does, and throws what it throws. It finds a value exactly when the session has the key, and then the value is the session's value for that key. |
| ContextState.SetCookieSession | src/framework/server.ts:78-80 | Succeeds only in `action`, and the session becomes the old one with the key set. |
| ContextState.DestroyCookieSession | src/framework/server.ts:82-88 | Succeeds only in `action`. Then `destorySession` is set and the session holds no keys. |
| ContextState.GetEnv | src/framework/server.ts:90-92 | Gives the context's environment when `ctx()` succeeds. |
| ContextState.GetUrl | src/framework/server.ts:94-96 | Gives the context's URL when `ctx()` succeeds. |
| ContextState.SetHeader | src/framework/server.ts:98-100 | Succeeds only in `action`. The header then reads back as the value set. |
| ContextState.SetStatus | src/framework/server.ts:102-109 | Succeeds exactly in `action` with no truthy redirect, and otherwise throws "Cannot set status after redirect" or the guard's error. It sets both status and status text. |
| ContextState.Redirect | src/framework/server.ts:111-120 | Succeeds exactly when `ctx()` does, including in `render`, and stores the target. |
| ContextState.WaitToFlushUntil | src/framework/server.ts:122-140 | Succeeds exactly when `ctx()` does, and returns the caller's promise. |
| ContextState.ActionPhase | src/framework/server.ts:178-212 | A form state is produced only by a POST without `rsc-action`. There is a return value exactly when `rsc-action` names a real server reference. |
| ContextState.SentRefusesEverything | src/framework/server.ts:43-52 | In `sent` every accessor throws "Response already sent". |
| ContextState.ActionsOnly | src/framework/server.ts:54-60 | The session, header and status setters succeed only in `action`, and throw "Response already sent" elsewhere. |
| ContextState.SetStatusAfterRedirect | src/framework/server.ts:104-106 | In `action`, once a truthy redirect is set, `setStatus` throws "Cannot set status after redirect". |
| ContextState.RedirectDefaults | src/framework/server.ts:113-118 | The stored status is the explicit one if given, and otherwise 303 in `action` and 307 in `render`. |
| ContextState.ActionStateRoundTrip | src/framework/server.ts:62-72 | `getActionState` returns the last value set for a key, and setting one key leaves the others unchanged. |
| ContextState.CookieSessionRoundTrip | src/framework/server.ts:74-80 | In `action`, a session value that was set reads back, and every other key reads as before. In `render` the write throws "Response already sent". |
| ContextState.WaitAppendsOne | src/framework/server.ts:130-139 | `waitToFlushUntil` appends exactly one entry to the wait list and changes nothing else. |
| ContextState.ApplyKeepsStage | src/framework/server.ts:62-140 | No accessor changes the stage. |
| ContextState.RunActionKeepsStage | src/framework/server.ts:179-212 | An action body leaves the stage where it was. |
| ContextState.RunRenderKeepsStage | src/framework/server.ts:238-250 | A render leaves the stage where it was. |
| ContextState.RunRenderFreezes | src/framework/server.ts:238-250 | Once rendering has started, the headers, the session, its destroy flag and the status text cannot change. |
| ContextState.RunActionConcat | src/framework/server.ts:197-209 | An action stops at its first throw, so the calls after a failing prefix never run. |
| ContextState.RunRenderConcat | src/framework/server.ts:239-248 | The render's calls are independent, so a throw in one component does not stop the rest. |
| ContextState.RenderAppStages | src/framework/server.ts:157-250 | The context starts in `action` with status 200, no headers and an empty wait list. `renderApp` ends in `action` exactly when it answers with the redirect text, and in `sent` exactly when it streams. It does the former exactly when the action phase left a truthy redirect. |
| ContextState.RedirectBeforeRender | src/framework/server.ts:214-229 | A redirect before render is answered with "redirect <to>", the context's status, `Location` set to the target and `Content-Type: text/plain`. The session cookie is appended after the context's own cookies. |
| ContextState.RenderedResponse | src/framework/server.ts:231-289 | Without an early redirect, the stream carries the form state, the URL and the return value. It has the final status and status text and `Content-Type: text/x-component`. `Location` is the render's redirect if any, and otherwise what the action's headers had. |
| RequestContext.Context.constructor | src/framework/server.ts:157-172 | The new context is the initial record: stage `action`, status 200, no headers, no redirect, an empty wait list. |
| RequestContext.SetActionState | src/framework/server.ts:66-72 | The object changes exactly as `ContextState.SetActionState` says, or not at all when it throws. |
| RequestContext.SetCookieSession | src/framework/server.ts:78-80 | The object changes exactly as `ContextState.SetCookieSession` says, or not at all when it throws. |
| RequestContext.DestroyCookieSession | src/framework/server.ts:82-88 | The loop that unsets the keys leaves the flag set and the session empty, as `ContextState.DestroyCookieSession` says. |
| RequestContext.SetHeader | src/framework/server.ts:98-100 | The object changes exactly as `ContextState.SetHeader` says. |
| RequestContext.SetStatus | src/framework/server.ts:102-109 | The object changes exactly as `ContextState.SetStatus` says. |
| RequestContext.Redirect | src/framework/server.ts:111-120 | The object changes exactly as `ContextState.Redirect` says. |
| RequestContext.WaitToFlushUntil | src/framework/server.ts:122-140 | The wait list is pushed as `ContextState.WaitToFlushUntil` says, and the caller's promise is returned. |
| RequestContext.Invoke | src/framework/server.ts:62-140 | One call of application code changes the object as `ContextState.Apply` says. |
| RequestContext.RunActionCalls | src/framework/server.ts:197-208 | The action body's calls run in order, stopping at the first throw, as `ContextState.RunAction` says. |
| RequestContext.RunRenderCalls | src/framework/server.ts:239-248 | The rendered components' calls run each on their own, as `ContextState.RunRender` says. |
| RequestContext.RunActionPhase | src/framework/server.ts:178-212 | The action phase's state, form state and return value are those of `ContextState.ActionPhase`. |
| RequestContext.RedirectResponse | src/framework/server.ts:214-229 | The `Headers` object built for an early redirect is the one `ContextState.RedirectResponse` describes. |
| RequestContext.RscHeaders | src/framework/server.ts:251-261 | The `Headers` object built once the stage is `sent` is the one `ContextState.RscHeaders` describes. |
| RequestContext.RenderApp | src/framework/server.ts:142-291 | It creates a fresh context. The response and the context's final state are those of `ContextState.RenderAppSpec` from the initial record. |
| RouterClient.GetRouterContext | src/framework/client.ts:13-19 | Throws "No router context found" exactly when there is no context, and otherwise gives it unchanged. |
| RouterClient.UseLocation | src/framework/client.ts:21-23 | Gives the context's location unchanged. |
| RouterClient.UseNavigation | src/framework/client.ts:25-39 | `navigating` exactly when the context is navigating and has a next location. Then `to` is that location unchanged, and otherwise `idle` with `to` undefined. |
| RouterClient.NavigationTargetIffNavigating | src/framework/client.ts:28-38 | A navigation state names a target exactly when it is navigating. |
| HexId.ToBase16 | src/app/lib/utils.ts:12 | `toString(16)` writes one digit below 16 and two otherwise. |
| HexId.PadStart | src/app/lib/utils.ts:12 | The result is at least the target length, ends with the input, and is padded on the left. |
| HexId.ByteHex | src/app/lib/utils.ts:12 | Every byte is written as two digits, high nibble first. |
| HexId.JoinIsConcat | src/app/lib/utils.ts:12-14 | Joining the parts with the empty separator writes them one after the other, with nothing in between. |
| HexId.HexLayout | src/app/lib/utils.ts:12-14 | Byte i sits at characters 2i and 2i+1 of the encoding. |
| HexId.RandomIdLayout | src/app/lib/utils.ts:9-15 | The id has 16 characters. Byte i gives characters 2i (high digit, `0` below 16) and 2i+1 (low digit). |
| HexId.RandomIdAlphabet | src/app/lib/utils.ts:12 | Every character of the id is in `0-9a-f`. |
| HexId.RandomIdRoundTrip | src/app/lib/utils.ts:12-14 | The id decodes back to the bytes it was made from. |
| HexId.RandomIdInjective | framework/react-router.tsx:426-432 | Different bytes give different ids. The same holds for the copy in `framework/react-router.tsx`. |

## Left out

- The RSC codec is an opaque foreign stream. This covers `renderToPipeableStream`, `createFromReadableStream`, `decodeReply`, `decodeAction` and `decodeFormState`. Payloads are values, and a response body either has no body, cannot be decoded, or decodes to a payload.
- `matchRoutes` and `createStaticHandler(...).query` come from react-router. They are parameters: the matched routes and the handler context are inputs.
- `createDeferred`, the `Promise.all` barriers, `setTimeout`, abort signals and `fetch` are concurrency and I/O. The navigation strategy keeps their sequential effect: every match is classified first, then the shared URL is built once and fetched. Isolated requests are modelled as issued in match order.
- The `RequestInit` built by `createRequestInit` is not passed to the modelled network, which sees only the URL. Request bodies are reduced to their kind, and the abort signal is not modelled.
- `splitCookiesString` is an abstract function. Session storage is modelled as a map for the session, with `commit` and `destroy` as functions that give the `Set-Cookie` value. Reading the session from the `Cookie` header is an input.
- `Lower` folds ASCII letters only; `toLowerCase` on other Unicode letters is not modelled. Numbers are integers: floats and `NaN` are not modelled.
- The client strategies rely on two react-router callbacks, and the model assumes how they behave (framework/react-router.client.tsx:166-171, 264-267). `match.resolve(cb)` is taken to settle the callback into `{ type, result }`, as `Settle` does. `handler(fn)` is taken to return what `fn` returns, for the boolean loaders the client routes declare. The per-route results of `NavigationStrategy`, `FetcherStrategy` and `SettleBatched`, and the lemmas about a shared failure or redirect, rest on these assumptions. The `manifest.routes` imported from `virtual:react-manifest` is the `manifest` parameter.
- The `_routes` parameter is never read by the server, so `HandleReactRouterRequest` ignores it, as the source does.
- The late-redirect `TODO` in `renderApp`, and POST requests to `.data` (which throw "Not implemented"), are modelled only as those failures. In `renderApp`, the late-redirect hook is installed only once the stage is `sent`. By then `redirect` already refuses, so the hook never fires.
- ContextState.ActionPhase: server-action arguments, `preload` and the "Invalid action" check come out as a given action. The action says whether the reference is a server reference, what it does with the context, and its result. Errors thrown in the action phase are logged with `console.error` and otherwise dropped. Logging is not modelled.
- ContextState.RenderAppSpec: the payload's `location` is the request URL value, not the string `pathname + search`. The root element is not part of the payload.
- ContextState.RunRender: the render's context calls come as one sequence, each from its own component, in the order the renderer makes them. How the renderer schedules components is not modelled.
- ServerRouter.ServerRouter: `getHeaders` is imported from the framework's server module but is not defined in `src/framework/server.ts`. It is not part of this model, so `query` receives only the context's URL. The thunk passed to `waitToFlushUntil` is taken not to throw synchronously.
- The context's `headers` object and the session object are fields of type `seq` and `map`, not separate objects: nothing else holds references to them.
- The environment is an abstract JavaScript value.
- The request method is compared literally, as the source compares it.
- `ClientRouter`'s route nesting, `patchRoutesOnNavigation`, the history object and the `route`/`index` constructors with their `lazy` imports are UI and module-loading glue.
