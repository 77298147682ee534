/** The values that travel in a single-fetch `.data` response, shared by the
    server that builds them and the client that unwraps them. The source's
    shape-sniffed union (`"error" in result`, `"redirect" in result`) is a
    tagged variant here. */
module SingleFetch {
  import opened Js

  /** A route, or the whole request, short-circuited to a redirect. */
  datatype RedirectResult = RedirectResult(
    redirect: string,
    status: int,
    revalidate: bool,
    reload: bool,
    replace: bool)

  /** One route's slot in the data map. `Unrecognized` stands for a decoded
      object that carries none of the keys `error`, `redirect` and `data`. */
  datatype RouteResult =
    | DataResult(data: Value)
    | ErrorResult(error: Value)
    | RedirectRoute(redirectResult: RedirectResult)
    | Unrecognized

  /** A rendered route component, named by the component it renders. */
  datatype Element = Element(component: string)

  /** The whole payload: per-route results keyed by route id (with the
      side channel of rendered components the server adds), or one redirect. */
  datatype SingleFetchResults =
    | DataResults(data: map<string, RouteResult>, rendered: Option<map<string, Element>>)
    | RedirectResults(redirect: RedirectResult)
}
