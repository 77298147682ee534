/** The route tree as the server holds it, and the two passes the server
    makes over it before answering (framework/react-router.tsx): `setupCache`
    mirrors the tree into the manifest the client receives while indexing
    every route by id, and the `rendered` loop picks the component of each
    matched route. */
module RouteManifest {
  import opened Js
  import opened SingleFetch

  /** A `RouteObject` as far as these passes read it. `action`, `loader`
      stand for the presence of those functions; `component` names the
      `Component`, if any; `hasChildren` says whether `children` is set at
      all (an empty `children` array is still set). */
  datatype RouteObject = RouteObject(
    id: Option<string>,
    index: Option<bool>,
    path: Option<string>,
    action: bool,
    loader: bool,
    component: Option<string>,
    hasChildren: bool,
    children: seq<RouteObject>)

  /** A `RouteManifest` entry (the client module is always `undefined`). */
  datatype ManifestEntry = ManifestEntry(
    id: string,
    index: Option<bool>,
    path: Option<string>,
    hasAction: bool,
    hasClientAction: bool,
    hasClientLoader: bool,
    hasLoader: bool,
    hasChildren: bool,
    children: seq<ManifestEntry>)

  /** Every route of the forest has a truthy id. */
  predicate AllIds(routes: seq<RouteObject>)
    decreases routes
  {
    forall i :: 0 <= i < |routes| ==>
      TruthyString(routes[i].id) && (routes[i].hasChildren ==> AllIds(routes[i].children))
  }

  /** The manifest forest mirrors the route forest one-for-one: same shape,
      same ids, flags taken from the presence of `action` and `loader`, and
      no client-side handlers. */
  predicate Mirrors(routes: seq<RouteObject>, manifest: seq<ManifestEntry>)
    decreases routes
  {
    && |manifest| == |routes|
    && forall i :: 0 <= i < |routes| ==> MirrorEntry(routes[i], manifest[i])
  }

  /** One manifest entry mirrors one route, children included. */
  predicate MirrorEntry(r: RouteObject, m: ManifestEntry)
    decreases r, 0
  {
    && r.id == Some(m.id)
    && m.index == r.index
    && m.path == r.path
    && m.hasAction == r.action
    && m.hasLoader == r.loader
    && !m.hasClientAction
    && !m.hasClientLoader
    && m.hasChildren == r.hasChildren
    && (r.hasChildren ==> Mirrors(r.children, m.children))
    && (!r.hasChildren ==> m.children == [])
  }

  /** The routes of the forest in the order `setupCache` visits them: each
      route before its children, children before the next sibling. */
  function Flatten(routes: seq<RouteObject>): seq<RouteObject>
    decreases routes
  {
    if routes == [] then []
    else
      var last := routes[|routes| - 1];
      Flatten(routes[..|routes| - 1]) + [last] + (if last.hasChildren then Flatten(last.children) else [])
  }

  predicate HaveIds(rs: seq<RouteObject>) {
    forall k :: 0 <= k < |rs| ==> rs[k].id.Some?
  }

  /** `cache.set(route.id, route)` for each route in turn. */
  function Register(cache: map<string, RouteObject>, rs: seq<RouteObject>): map<string, RouteObject>
    requires HaveIds(rs)
  {
    if rs == [] then cache
    else Register(cache, rs[..|rs| - 1])[rs[|rs| - 1].id.value := rs[|rs| - 1]]
  }

  lemma {:induction false} RegisterConcat(cache: map<string, RouteObject>, a: seq<RouteObject>, b: seq<RouteObject>)
    requires HaveIds(a) && HaveIds(b)
    ensures HaveIds(a + b)
    ensures Register(cache, a + b) == Register(Register(cache, a), b)
  {
    if b == [] {
      assert a + b == a;
    } else {
      assert (a + b)[..|a + b| - 1] == a + b[..|b| - 1];
      RegisterConcat(cache, a, b[..|b| - 1]);
    }
  }

  /** After registration, an id is known exactly when it was known before or
      some registered route carries it. */
  lemma {:induction false} RegisterDomain(cache: map<string, RouteObject>, rs: seq<RouteObject>, id: string)
    requires HaveIds(rs)
    ensures id in Register(cache, rs) <==> id in cache || exists k :: 0 <= k < |rs| && rs[k].id == Some(id)
  {
    if rs != [] {
      var init := rs[..|rs| - 1];
      RegisterDomain(cache, init, id);
      if exists k :: 0 <= k < |init| && init[k].id == Some(id) {
        var k :| 0 <= k < |init| && init[k].id == Some(id);
        assert rs[k] == init[k];
      }
      if exists k :: 0 <= k < |rs| && rs[k].id == Some(id) {
        var k :| 0 <= k < |rs| && rs[k].id == Some(id);
        if k < |init| {
          assert init[k] == rs[k];
        }
      }
    }
  }

  /** A registered id maps to the last route that carries it (last write
      wins). */
  lemma {:induction false} RegisterLast(cache: map<string, RouteObject>, rs: seq<RouteObject>, k: nat)
    requires HaveIds(rs) && k < |rs|
    requires forall j :: k < j < |rs| ==> rs[j].id != rs[k].id
    ensures rs[k].id.value in Register(cache, rs)
    ensures Register(cache, rs)[rs[k].id.value] == rs[k]
  {
    var init := rs[..|rs| - 1];
    if k < |init| {
      assert init[k] == rs[k];
      assert forall j :: k < j < |init| ==> init[j] == rs[j];
      RegisterLast(cache, init, k);
    }
  }

  lemma {:induction false} FlattenSnoc(routes: seq<RouteObject>, route: RouteObject)
    ensures Flatten(routes + [route])
      == Flatten(routes) + [route] + (if route.hasChildren then Flatten(route.children) else [])
  {
    assert (routes + [route])[..|routes|] == routes;
  }

  lemma {:induction false} FlattenHasIds(routes: seq<RouteObject>)
    requires AllIds(routes)
    ensures HaveIds(Flatten(routes))
    decreases routes
  {
    if routes != [] {
      var init := routes[..|routes| - 1];
      var last := routes[|routes| - 1];
      assert forall i :: 0 <= i < |init| ==> init[i] == routes[i];
      FlattenHasIds(init);
      if last.hasChildren {
        FlattenHasIds(last.children);
      }
    }
  }

  /** `setupCache(routes)`: push a manifest entry per route (and, for a route
      with children, fill that entry's children the same way) while putting
      every route in the cache; an id-less route aborts the whole pass. */
  method SetupCache(routes: seq<RouteObject>, cache0: map<string, RouteObject>)
    returns (r: Result<(seq<ManifestEntry>, map<string, RouteObject>)>)
    decreases routes
    ensures r.Ok? <==> AllIds(routes)
    ensures r.Throw? ==> r.thrown == ErrorObj("Route id is required")
    ensures r.Ok? ==> Mirrors(routes, r.value.0)
    ensures r.Ok? ==> HaveIds(Flatten(routes)) && r.value.1 == Register(cache0, Flatten(routes))
  {
    var routesManifest: seq<ManifestEntry> := [];
    var cache := cache0;
    for i := 0 to |routes|
      invariant AllIds(routes[..i])
      invariant Mirrors(routes[..i], routesManifest)
      invariant HaveIds(Flatten(routes[..i])) && cache == Register(cache0, Flatten(routes[..i]))
    {
      var route := routes[i];
      assert routes[..i + 1] == routes[..i] + [route];
      if !TruthyString(route.id) {
        assert !AllIds(routes) by {
          assert routes[i] == route;
        }
        return Throw(ErrorObj("Route id is required"));
      }
      var children: seq<ManifestEntry> := [];
      var cache1 := cache[route.id.value := route];
      if route.hasChildren {
        var sub := SetupCache(route.children, cache1);
        if sub.Throw? {
          assert !AllIds(routes) by {
            assert routes[i] == route;
          }
          return Throw(sub.thrown);
        }
        children, cache := sub.value.0, sub.value.1;
      } else {
        cache := cache1;
      }
      var entry := ManifestEntry(
        route.id.value, route.index, route.path, route.action, false, false, route.loader,
        route.hasChildren, children);
      SetupStep(routes[..i], routesManifest, route, entry);
      CacheStep(cache0, routes[..i], route, cache);
      routesManifest := routesManifest + [entry];
    }
    assert routes[..|routes|] == routes;
    r := Ok((routesManifest, cache));
  }

  /** Registering one more route with an id. */
  lemma RegisterOne(cache: map<string, RouteObject>, rs: seq<RouteObject>, route: RouteObject)
    requires HaveIds(rs) && route.id.Some?
    ensures HaveIds(rs + [route])
    ensures Register(cache, rs + [route]) == Register(cache, rs)[route.id.value := route]
  {
    assert (rs + [route])[..|rs|] == rs;
  }

  /** The cache after one more route (and its subtree) is the registration
      of the longer flattened prefix. */
  lemma {:induction false} CacheStep(cache0: map<string, RouteObject>, done: seq<RouteObject>, route: RouteObject, cache: map<string, RouteObject>)
    requires HaveIds(Flatten(done)) && route.id.Some?
    requires route.hasChildren ==>
      && HaveIds(Flatten(route.children))
      && cache == Register(Register(cache0, Flatten(done))[route.id.value := route], Flatten(route.children))
    requires !route.hasChildren ==> cache == Register(cache0, Flatten(done))[route.id.value := route]
    ensures HaveIds(Flatten(done + [route])) && cache == Register(cache0, Flatten(done + [route]))
  {
    FlattenSnoc(done, route);
    RegisterOne(cache0, Flatten(done), route);
    if route.hasChildren {
      RegisterConcat(cache0, Flatten(done) + [route], Flatten(route.children));
    } else {
      assert Flatten(done + [route]) == Flatten(done) + [route];
    }
  }

  /** One more route and its entry keep the loop's invariants. */
  lemma {:induction false} SetupStep(done: seq<RouteObject>, manifest: seq<ManifestEntry>, route: RouteObject, entry: ManifestEntry)
    requires AllIds(done) && Mirrors(done, manifest)
    requires TruthyString(route.id) && (route.hasChildren ==> AllIds(route.children))
    requires MirrorEntry(route, entry)
    ensures AllIds(done + [route]) && Mirrors(done + [route], manifest + [entry])
  {
    var rs := done + [route];
    assert forall k :: 0 <= k < |done| ==> rs[k] == done[k];
    assert forall k :: 0 <= k < |manifest| ==> (manifest + [entry])[k] == manifest[k];
  }

  // ---------------------------------------------------------------------
  // Rendered components
  // ---------------------------------------------------------------------

  /** A matched route id the `rendered` loop accepts: truthy and cached. */
  predicate Resolvable(id: Option<string>, cache: map<string, RouteObject>) {
    TruthyString(id) && id.value in cache
  }

  function FailureMessage(id: Option<string>): string {
    if TruthyString(id) then "Route not found" else "Route id is required"
  }

  /** The `rendered` loop, from the last match to the first: every
      matched id must be truthy and cached, and each cached route with a
      component contributes that component under its id. The loop throws at
      the last match that fails. */
  method RenderedRoutes(ids: seq<Option<string>>, cache: map<string, RouteObject>)
    returns (r: Result<map<string, Element>>)
    ensures r.Ok? <==> forall i :: 0 <= i < |ids| ==> Resolvable(ids[i], cache)
    ensures r.Ok? ==> forall id :: id in r.value <==>
      (exists i :: 0 <= i < |ids| && ids[i] == Some(id)) && cache[id].component.Some?
    ensures r.Ok? ==> forall id :: id in r.value ==> r.value[id] == Element(cache[id].component.value)
    ensures r.Throw? ==> exists k ::
              && 0 <= k < |ids| && !Resolvable(ids[k], cache)
              && (forall j :: k < j < |ids| ==> Resolvable(ids[j], cache))
              && r.thrown == ErrorObj(FailureMessage(ids[k]))
  {
    var rendered: map<string, Element> := map[];
    var i := |ids|;
    while i > 0
      invariant 0 <= i <= |ids|
      invariant forall j :: i <= j < |ids| ==> Resolvable(ids[j], cache)
      invariant forall id :: id in rendered <==>
        (exists j :: i <= j < |ids| && ids[j] == Some(id)) && cache[id].component.Some?
      invariant forall id :: id in rendered ==> rendered[id] == Element(cache[id].component.value)
    {
      i := i - 1;
      var id := ids[i];
      if !TruthyString(id) {
        return Throw(ErrorObj("Route id is required"));
      }
      if id.value !in cache {
        return Throw(ErrorObj("Route not found"));
      }
      var route := cache[id.value];
      if route.component.Some? {
        rendered := rendered[id.value := Element(route.component.value)];
      }
    }
    r := Ok(rendered);
  }

  /** The cache `setupCache()` builds from an empty map, for a tree whose
      routes all have ids. */
  function RouteCache(routes: seq<RouteObject>): map<string, RouteObject>
    requires AllIds(routes)
  {
    FlattenHasIds(routes);
    Register(map[], Flatten(routes))
  }

  /** Every matched id is truthy and names a cached route. */
  predicate AllResolvable(ids: seq<Option<string>>, cache: map<string, RouteObject>) {
    forall i :: 0 <= i < |ids| ==> Resolvable(ids[i], cache)
  }

  /** The route tree can be cached and every matched id found in it. */
  predicate Renderable(routes: seq<RouteObject>, ids: seq<Option<string>>) {
    AllIds(routes) && AllResolvable(ids, RouteCache(routes))
  }

  /** `rendered` holds, under each matched id whose cached route has a
      `Component`, that component, and nothing else. */
  ghost predicate RendersMatched(routes: seq<RouteObject>, ids: seq<Option<string>>, rendered: map<string, Element>) {
    && Renderable(routes, ids)
    && (forall id :: id in rendered <==>
          (exists i :: 0 <= i < |ids| && ids[i] == Some(id)) && RouteCache(routes)[id].component.Some?)
    && (forall id :: id in rendered ==> rendered[id] == Element(RouteCache(routes)[id].component.value))
  }

  /** `setupCache()` and then the `rendered` loop over the matched ids, as
      both the server router and the data handler run them: the manifest
      mirrors the tree, and the rendered map holds the component of each
      matched route that has one. */
  method CacheAndRender(routes: seq<RouteObject>, ids: seq<Option<string>>)
    returns (r: Result<(seq<ManifestEntry>, map<string, Element>)>)
    ensures r.Ok? <==> Renderable(routes, ids)
    ensures !AllIds(routes) ==> r == Throw(ErrorObj("Route id is required"))
    ensures AllIds(routes) && r.Throw? ==> exists k ::
              && 0 <= k < |ids| && !Resolvable(ids[k], RouteCache(routes))
              && (forall j :: k < j < |ids| ==> Resolvable(ids[j], RouteCache(routes)))
              && r.thrown == ErrorObj(FailureMessage(ids[k]))
    ensures r.Ok? ==> Mirrors(routes, r.value.0)
    ensures r.Ok? ==> RendersMatched(routes, ids, r.value.1)
  {
    var setup := SetupCache(routes, map[]);
    if setup.Throw? {
      return Throw(setup.thrown);
    }
    var rendered := RenderedRoutes(ids, setup.value.1);
    if rendered.Throw? {
      return Throw(rendered.thrown);
    }
    r := Ok((setup.value.0, rendered.value));
  }
}
