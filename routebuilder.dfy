/** The router: the routes generated for each registered resource, the route table keyed
    by regex and then by HTTP method, the Django URL patterns built from it, the dispatch
    of a request inside one pattern's view, and the `ApiKey` authorization header. */
module RouteBuilding {
  import opened PyText
  import opened PyValues
  import opened Constants
  import opened Convention
  import opened Resources
  import opened OpenApiNames
  import opened RoutePatterns

  /** The `Route` namedtuple: a route name, a path regex, an HTTP method, and the class
      and method that handle it. */
  datatype Route = Route(name: string, regex: string, httpMethod: string, cls: ResourceClass,
                         methodName: string)

  /** What a route table entry maps an HTTP method to: `(resource_cls, method_name)`. */
  datatype Target = Target(cls: ResourceClass, methodName: string)

  /** One entry of `self.routes`: the `route_name` and the `http_methods` dict. */
  datatype RouteConfig = RouteConfig(routeName: string, httpMethods: map<string, Target>)

  /** `self.routes`, keyed by regex. */
  type RouteTable = map<string, RouteConfig>

  /** The entry `register_route` writes for `r`: the route name is replaced, the method is
      added to (or replaces its target in) the methods already registered for the regex. */
  function AddRoute(table: RouteTable, r: Route): RouteTable
  {
    var methods := if r.regex in table then table[r.regex].httpMethods else map[];
    table[r.regex := RouteConfig(r.name, methods[r.httpMethod := Target(r.cls, r.methodName)])]
  }

  /** What registering one route does to the table. */
  lemma AddRouteEntry(table: RouteTable, r: Route)
    ensures AddRoute(table, r).Keys == table.Keys + {r.regex}
    ensures AddRoute(table, r)[r.regex].routeName == r.name
    ensures AddRoute(table, r)[r.regex].httpMethods.Keys ==
            (if r.regex in table then table[r.regex].httpMethods.Keys else {}) + {r.httpMethod}
    ensures AddRoute(table, r)[r.regex].httpMethods[r.httpMethod] == Target(r.cls, r.methodName)
    ensures r.regex in table ==> forall m :: m in table[r.regex].httpMethods && m != r.httpMethod ==>
              AddRoute(table, r)[r.regex].httpMethods[m] == table[r.regex].httpMethods[m]
    ensures forall x :: x in table && x != r.regex ==> AddRoute(table, r)[x] == table[x]
  {
  }

  /** The table after registering `routes` in order. */
  function RegisterAll(table: RouteTable, routes: seq<Route>): RouteTable
    decreases |routes|
  {
    if routes == [] then table
    else AddRoute(RegisterAll(table, routes[..|routes| - 1]), routes[|routes| - 1])
  }

  /** The regexes registering `routes` adds. */
  function Regexes(routes: seq<Route>): set<string> {
    set k | 0 <= k < |routes| :: routes[k].regex
  }

  /** Registering adds exactly the routes' regexes to the table, and leaves every other
      entry as it was. */
  lemma {:induction false} RegisterAllKeys(table: RouteTable, routes: seq<Route>)
    ensures RegisterAll(table, routes).Keys == table.Keys + Regexes(routes)
    ensures forall x :: x in table && x !in Regexes(routes) ==> RegisterAll(table, routes)[x] == table[x]
    decreases |routes|
  {
    if routes != [] {
      var front := routes[..|routes| - 1];
      RegisterAllKeys(table, front);
      AddRouteEntry(RegisterAll(table, front), routes[|routes| - 1]);
      assert Regexes(routes) == Regexes(front) + {routes[|routes| - 1].regex} by {
        forall x | x in Regexes(routes) ensures x in Regexes(front) + {routes[|routes| - 1].regex} {
          var k :| 0 <= k < |routes| && routes[k].regex == x;
          if k < |routes| - 1 {
            assert front[k] == routes[k];
          }
        }
        forall x | x in Regexes(front) ensures x in Regexes(routes) {
          var k :| 0 <= k < |front| && front[k].regex == x;
          assert routes[k] == front[k];
        }
      }
    }
  }

  /** The route registered last for a regex and method is the one that handles it: later
      routes for the same regex but other methods do not disturb it. */
  lemma {:induction false} LastRouteWins(table: RouteTable, routes: seq<Route>, i: nat)
    requires i < |routes|
    requires forall k :: i < k < |routes| && routes[k].regex == routes[i].regex ==>
               routes[k].httpMethod != routes[i].httpMethod
    ensures var t := RegisterAll(table, routes);
            routes[i].regex in t && routes[i].httpMethod in t[routes[i].regex].httpMethods &&
            t[routes[i].regex].httpMethods[routes[i].httpMethod] == Target(routes[i].cls, routes[i].methodName)
    decreases |routes|
  {
    if i < |routes| - 1 {
      var front := routes[..|routes| - 1];
      assert front[i] == routes[i];
      LastRouteWins(table, front, i);
      AddRouteEntry(RegisterAll(table, front), routes[|routes| - 1]);
    } else {
      AddRouteEntry(RegisterAll(table, routes[..i]), routes[i]);
    }
  }

  /** The route name of a regex is the name of the last route registered for it. */
  lemma {:induction false} LastRouteNames(table: RouteTable, routes: seq<Route>, i: nat)
    requires i < |routes|
    requires forall k :: i < k < |routes| ==> routes[k].regex != routes[i].regex
    ensures var t := RegisterAll(table, routes);
            routes[i].regex in t && t[routes[i].regex].routeName == routes[i].name
    decreases |routes|
  {
    if i < |routes| - 1 {
      var front := routes[..|routes| - 1];
      assert front[i] == routes[i];
      LastRouteNames(table, front, i);
      AddRouteEntry(RegisterAll(table, front), routes[|routes| - 1]);
    } else {
      AddRouteEntry(RegisterAll(table, routes[..i]), routes[i]);
    }
  }

  /** The HTTP methods a table serves on a regex. */
  function MethodsAt(table: RouteTable, x: string): set<string> {
    if x in table then table[x].httpMethods.Keys else {}
  }

  /** The HTTP methods of the routes for regex `x`. */
  function MethodsFor(routes: seq<Route>, x: string): set<string> {
    set k | 0 <= k < |routes| && routes[k].regex == x :: routes[k].httpMethod
  }

  lemma MethodsForSnoc(routes: seq<Route>, x: string)
    requires routes != []
    ensures var last := routes[|routes| - 1];
            MethodsFor(routes, x) ==
            MethodsFor(routes[..|routes| - 1], x) + (if last.regex == x then {last.httpMethod} else {})
  {
    var front := routes[..|routes| - 1];
    forall m | m in MethodsFor(front, x) ensures m in MethodsFor(routes, x) {
      var k :| 0 <= k < |front| && front[k].regex == x && front[k].httpMethod == m;
      assert routes[k] == front[k];
    }
  }

  /** The HTTP methods a regex accepts after registering `routes`: those it accepted
      before and those of the routes for it. */
  lemma {:induction false} RegisterAllMethods(table: RouteTable, routes: seq<Route>, x: string)
    ensures MethodsAt(RegisterAll(table, routes), x) == MethodsAt(table, x) + MethodsFor(routes, x)
    decreases |routes|
  {
    if routes != [] {
      RegisterAllMethods(table, routes[..|routes| - 1], x);
      MethodsForSnoc(routes, x);
      AddRouteEntry(RegisterAll(table, routes[..|routes| - 1]), routes[|routes| - 1]);
    }
  }

  // ---------------------------------------------------------------------------
  // The routes of a resource
  // ---------------------------------------------------------------------------

  /** The route `yield_standard_routes` yields for one of the seven resource actions. */
  function StandardRoute(slug: string, member: string, collection: string, pkPatt: string,
                         cls: ResourceClass, a: Action): (r: Route)
    requires a in ResourceActions
    ensures r.httpMethod == HttpMethodOf(a) && r.methodName == ActionName(a) && r.cls == cls
    ensures IsCollectionTargeting(a) ==>
              r.regex == CollectionRegex(collection, []) && r.name == slug + "_" + collection
    ensures IsMemberTargeting(a) ==>
              r.regex == MemberRegex(collection, pkPatt, []) && r.name == slug + "_" + member
    ensures a == New ==>
              r.regex == CollectionRegex(collection, ["new"]) && r.name == slug + "_" + collection + "_new"
    ensures a == Edit ==>
              r.regex == MemberRegex(collection, pkPatt, ["edit"]) && r.name == slug + "_" + member + "_edit"
  {
    var m := HttpMethodOf(a);
    var n := ActionName(a);
    if IsCollectionTargeting(a) then
      Route(slug + "_" + collection, CollectionRegex(collection, []), m, cls, n)
    else if IsMemberTargeting(a) then
      Route(slug + "_" + member, MemberRegex(collection, pkPatt, []), m, cls, n)
    else if a == New then
      Route(slug + "_" + collection + "_new", CollectionRegex(collection, ["new"]), m, cls, n)
    else
      // `edit` is the default case
      Route(slug + "_" + member + "_edit", MemberRegex(collection, pkPatt, ["edit"]), m, cls, n)
  }

  /** `yield_standard_routes(rsrc_member_name, resource_cls)`: one route per resource
      action, in `RESOURCE_ACTIONS` order. */
  function StandardRoutes(slug: string, member: string, collection: string, cls: ResourceClass)
    : (rs: seq<Route>)
    ensures |rs| == |ResourceActions|
    ensures forall k :: 0 <= k < |rs| ==>
              rs[k] == StandardRoute(slug, member, collection, PkPattFor(cls.primaryKey), cls, ResourceActions[k])
  {
    var p := PkPattFor(cls.primaryKey);
    seq(|ResourceActions|, k requires 0 <= k < |ResourceActions| =>
          StandardRoute(slug, member, collection, p, cls, ResourceActions[k]))
  }

  /** `yield_search_routes(rsrc_member_name, resource_cls)`: SEARCH on the collection
      regex and POST on `search/` call `search`, GET on `new_search/` calls `new_search`;
      the three regexes are distinct. */
  function SearchRoutes(slug: string, collection: string, cls: ResourceClass): (rs: seq<Route>)
    ensures |rs| == 3 && forall k :: 0 <= k < |rs| ==> rs[k].cls == cls
    ensures rs[0].regex == CollectionRegex(collection, []) && rs[0].httpMethod == "SEARCH" &&
            rs[0].methodName == "search" && rs[0].name == slug + "_" + collection
    ensures rs[1].regex == CollectionRegex(collection, ["search"]) && rs[1].httpMethod == "POST" &&
            rs[1].methodName == "search" && rs[1].name == rs[0].name + "_search"
    ensures rs[2].regex == CollectionRegex(collection, ["new_search"]) && rs[2].httpMethod == "GET" &&
            rs[2].methodName == "new_search" && rs[2].name == rs[0].name + "_new_search"
    ensures forall i, j :: 0 <= i < j < |rs| ==> rs[i].regex != rs[j].regex
  {
    StandardRegexesDistinct(collection, "");
    [Route(slug + "_" + collection, CollectionRegex(collection, []), "SEARCH", cls, "search"),
     Route(slug + "_" + collection + "_search", CollectionRegex(collection, ["search"]), "POST", cls, "search"),
     Route(slug + "_" + collection + "_new_search", CollectionRegex(collection, ["new_search"]), "GET", cls,
           "new_search")]
  }

  /** The route `yield_custom_routes` yields for one custom endpoint: named after the
      endpoint's action, calling its method on its upper-cased HTTP method. The regex is
      the endpoint path translated with one group per path parameter (the corrected
      `openapi_path2regex`). */
  function CustomRoute(slug: string, member: string, collection: string, cls: ResourceClass,
                       e: CustomEndPoint): (r: Route)
    ensures r.name == slug + "_" + member + "_" + e.action
    ensures r.httpMethod == Upper(e.httpMethod) && r.cls == cls && r.methodName == e.methodName
    ensures r.regex == Path2Regex(e.path, collection, PkPattFor(cls.primaryKey))
  {
    Route(slug + "_" + member + "_" + e.action,
          Path2Regex(e.path, collection, PkPattFor(cls.primaryKey)),
          Upper(e.httpMethod), cls, e.methodName)
  }

  /** `yield_custom_routes(rsrc_member_name, resource_cls)`: one route per custom
      endpoint of the class, in `dir` order. */
  function CustomRoutes(slug: string, member: string, collection: string, cls: ResourceClass)
    : (rs: seq<Route>)
    ensures var es := CustomEndpoints(cls.attributes);
            |rs| == |es| && forall k :: 0 <= k < |rs| ==> rs[k] == CustomRoute(slug, member, collection, cls, es[k])
  {
    var es := CustomEndpoints(cls.attributes);
    seq(|es|, k requires 0 <= k < |es| => CustomRoute(slug, member, collection, cls, es[k]))
  }

  /** A custom endpoint whose path is a well-formed template gets the regex of
      `^<collection>/`, the template with each parameter as a group, and `$`. */
  lemma CustomRouteRegex(slug: string, member: string, collection: string, cls: ResourceClass,
                         e: CustomEndPoint, segs: seq<PathSeg>)
    requires e.path == Template(segs) && forall k :: 0 <= k < |segs| ==> WellFormedSeg(segs[k])
    ensures CustomRoute(slug, member, collection, cls, e).regex ==
            "^" + collection + "/" + SegRegex(segs, PkPattFor(cls.primaryKey)) + "$"
  {
    SubstituteTemplate(segs, PkPattFor(cls.primaryKey));
  }

  /** The routes `register_routes_for_resource` registers, in order: the search routes
      (unless the configuration says `searchable: False`), the standard routes, and the
      custom routes. */
  function RoutesForResource(slug: string, member: string, cfg: ResourceConfig,
                             plural: string -> string): (rs: seq<Route>)
    ensures |rs| == (if IsSearchable(cfg) then 3 else 0) + |ResourceActions| + |CustomEndpoints(cfg.resourceCls.attributes)|
    ensures forall k :: 0 <= k < |rs| ==> rs[k].cls == cfg.resourceCls
  {
    var collection := plural(member);
    var cls := cfg.resourceCls;
    (if IsSearchable(cfg) then SearchRoutes(slug, collection, cls) else []) +
    StandardRoutes(slug, member, collection, cls) + CustomRoutes(slug, member, collection, cls)
  }

  /** The routes `register_resources` registers, resource by resource in dict order. */
  function RoutesForResources(slug: string, resources: seq<(string, ResourceConfig)>,
                              plural: string -> string): seq<Route>
    decreases |resources|
  {
    if resources == [] then []
    else
      RoutesForResources(slug, resources[..|resources| - 1], plural) +
      RoutesForResource(slug, resources[|resources| - 1].0, resources[|resources| - 1].1, plural)
  }

  /** The concatenation of `f(x)` over `xs`, in order. */
  function FlatMap<T, U>(xs: seq<T>, f: T -> seq<U>): seq<U>
    decreases |xs|
  {
    if xs == [] then [] else FlatMap(xs[..|xs| - 1], f) + f(xs[|xs| - 1])
  }

  lemma {:induction false} FlatMapMembers<T, U>(xs: seq<T>, f: T -> seq<U>, u: U)
    ensures u in FlatMap(xs, f) <==> exists i :: 0 <= i < |xs| && u in f(xs[i])
    decreases |xs|
  {
    if xs != [] {
      var n := |xs| - 1;
      var init := xs[..n];
      FlatMapMembers(init, f, u);
      assert forall i :: 0 <= i < n ==> init[i] == xs[i];
      if u in f(xs[n]) {
        assert 0 <= n < |xs| && u in f(xs[n]);
      }
    }
  }

  lemma {:induction false} RoutesForResourcesFlatMap(slug: string, resources: seq<(string, ResourceConfig)>,
                                                     plural: string -> string)
    ensures RoutesForResources(slug, resources, plural) ==
            FlatMap(resources, (res: (string, ResourceConfig)) => RoutesForResource(slug, res.0, res.1, plural))
    decreases |resources|
  {
    if resources != [] {
      RoutesForResourcesFlatMap(slug, resources[..|resources| - 1], plural);
    }
  }

  /** The routes of several resources are exactly the routes of each of them. */
  lemma RoutesForResourcesMembers(slug: string, resources: seq<(string, ResourceConfig)>,
                                  plural: string -> string, r: Route)
    ensures r in RoutesForResources(slug, resources, plural) <==>
            exists i :: 0 <= i < |resources| && r in RoutesForResource(slug, resources[i].0, resources[i].1, plural)
  {
    var f := (res: (string, ResourceConfig)) => RoutesForResource(slug, res.0, res.1, plural);
    RoutesForResourcesFlatMap(slug, resources, plural);
    FlatMapMembers(resources, f, r);
  }

  /** No custom endpoint of the resource lands on regex `x`. */
  predicate CustomAvoids(slug: string, member: string, cfg: ResourceConfig, plural: string -> string,
                         x: string) {
    var cs := CustomRoutes(slug, member, plural(member), cfg.resourceCls);
    forall k :: 0 <= k < |cs| ==> cs[k].regex != x
  }

  /** Of the standard routes, `create` (POST) and `index` (GET) are the ones on the
      collection regex, and none is a SEARCH route. */
  lemma StandardCollectionRoutes(slug: string, member: string, collection: string, cls: ResourceClass)
    ensures var std := StandardRoutes(slug, member, collection, cls);
            var x := CollectionRegex(collection, []);
            std[0] == Route(slug + "_" + collection, x, "POST", cls, "create") &&
            std[3] == Route(slug + "_" + collection, x, "GET", cls, "index") &&
            (forall k :: 0 <= k < |std| && k != 0 && k != 3 ==> std[k].regex != x) &&
            (forall k :: 0 <= k < |std| ==> std[k].httpMethod != "SEARCH")
  {
    var std := StandardRoutes(slug, member, collection, cls);
    StandardRegexesDistinct(collection, PkPattFor(cls.primaryKey));
    assert ResourceActions[0] == Create && ResourceActions[3] == Index;
    forall k | 0 <= k < |std| && k != 0 && k != 3
      ensures std[k].regex != CollectionRegex(collection, [])
    {
      assert ResourceActions[k] in ResourceActions;
    }
    StandardMethodsNotSearch(slug, member, collection, cls);
  }

  lemma StandardMethodsNotSearch(slug: string, member: string, collection: string, cls: ResourceClass)
    ensures forall k :: 0 <= k < |ResourceActions| ==> StandardRoutes(slug, member, collection, cls)[k].httpMethod != "SEARCH"
  {
    var std := StandardRoutes(slug, member, collection, cls);
    forall k | 0 <= k < |ResourceActions| ensures std[k].httpMethod != "SEARCH" {
      assert std[k].httpMethod == HttpMethodOf(ResourceActions[k]);
    }
  }

  /** The routes of a resource as they fall on its collection regex `x`: an optional
      SEARCH route, seven standard routes of which the first (POST) and the fourth (GET)
      are for `x`, and routes that avoid `x`. */
  predicate CollectionLayout(pre: seq<Route>, std: seq<Route>, cus: seq<Route>, x: string,
                             search: Route, create: Route, index: Route) {
    (pre == [] || (|pre| == 3 && pre[0] == search && pre[1].regex != x && pre[2].regex != x)) &&
    search.regex == x && search.httpMethod == "SEARCH" &&
    create.regex == x && create.httpMethod == "POST" &&
    index.regex == x && index.httpMethod == "GET" &&
    |std| == 7 && std[0] == create && std[3] == index &&
    (forall k :: 0 <= k < |std| && k != 0 && k != 3 ==> std[k].regex != x) &&
    (forall k :: 0 <= k < |cus| ==> cus[k].regex != x)
  }

  lemma LayoutMethods(pre: seq<Route>, std: seq<Route>, cus: seq<Route>, x: string,
                      search: Route, create: Route, index: Route)
    requires CollectionLayout(pre, std, cus, x, search, create, index)
    ensures MethodsFor(pre + std + cus, x) == (if pre != [] then {"SEARCH", "POST", "GET"} else {"POST", "GET"})
  {
    var routes := pre + std + cus;
    var p := |pre|;
    assert routes[p] == create && routes[p + 3] == index;
    assert pre != [] ==> routes[0] == search;
    assert forall k :: 0 <= k < p ==> routes[k] == pre[k];
    assert forall k :: p <= k < p + |std| ==> routes[k] == std[k - p];
    assert forall k :: p + |std| <= k < |routes| ==> routes[k] == cus[k - p - |std|];
    assert forall k :: 0 <= k < |routes| && routes[k].regex == x ==> k == p || k == p + 3 || (pre != [] && k == 0);
  }

  /** Where the three parts sit in their concatenation. */
  lemma LayoutIndices(pre: seq<Route>, std: seq<Route>, cus: seq<Route>)
    ensures var routes := pre + std + cus;
            (forall k :: 0 <= k < |pre| ==> routes[k] == pre[k]) &&
            (forall k :: |pre| <= k < |pre| + |std| ==> routes[k] == std[k - |pre|]) &&
            (forall k :: |pre| + |std| <= k < |routes| ==> routes[k] == cus[k - |pre| - |std|])
  {
  }

  /** Each method on `x` is served by the route that put it there, and the name is that
      of the `index` route, the last for `x`. */
  lemma LayoutTargets(table: RouteTable, pre: seq<Route>, std: seq<Route>, cus: seq<Route>, x: string,
                      search: Route, create: Route, index: Route)
    requires CollectionLayout(pre, std, cus, x, search, create, index)
    ensures var t := RegisterAll(table, pre + std + cus);
            x in t &&
            "POST" in t[x].httpMethods && t[x].httpMethods["POST"] == Target(create.cls, create.methodName) &&
            "GET" in t[x].httpMethods && t[x].httpMethods["GET"] == Target(index.cls, index.methodName) &&
            (pre != [] ==> "SEARCH" in t[x].httpMethods &&
                           t[x].httpMethods["SEARCH"] == Target(search.cls, search.methodName)) &&
            t[x].routeName == index.name
  {
    var routes := pre + std + cus;
    var t := RegisterAll(table, routes);
    var p := |pre|;
    assert x in t && "POST" in t[x].httpMethods && t[x].httpMethods["POST"] == Target(create.cls, create.methodName) by {
      LayoutIndices(pre, std, cus);
      assert routes[p] == create;
      LastRouteWins(table, routes, p);
    }
    assert x in t && "GET" in t[x].httpMethods && t[x].httpMethods["GET"] == Target(index.cls, index.methodName) &&
           t[x].routeName == index.name by {
      LayoutIndices(pre, std, cus);
      assert routes[p + 3] == index;
      LastRouteWins(table, routes, p + 3);
      LastRouteNames(table, routes, p + 3);
    }
    if pre != [] {
      assert "SEARCH" in t[x].httpMethods && t[x].httpMethods["SEARCH"] == Target(search.cls, search.methodName) by {
        LayoutIndices(pre, std, cus);
        assert routes[0] == search;
        LastRouteWins(table, routes, 0);
      }
    }
  }

  /** Registering a resource on a table that does not know its collection regex serves
      that regex with `create` on POST, `index` on GET and, when it is searchable,
      `search` on SEARCH, and with nothing else (unless a custom endpoint uses the same
      regex); the route name is `<slug>_<collection>`. */
  lemma CollectionRoutes(table: RouteTable, slug: string, member: string, cfg: ResourceConfig,
                         plural: string -> string)
    requires CollectionRegex(plural(member), []) !in table
    requires CustomAvoids(slug, member, cfg, plural, CollectionRegex(plural(member), []))
    ensures var x := CollectionRegex(plural(member), []);
            var t := RegisterAll(table, RoutesForResource(slug, member, cfg, plural));
            x in t &&
            t[x].httpMethods.Keys == (if IsSearchable(cfg) then {"SEARCH", "POST", "GET"} else {"POST", "GET"}) &&
            t[x].httpMethods["POST"] == Target(cfg.resourceCls, "create") &&
            t[x].httpMethods["GET"] == Target(cfg.resourceCls, "index") &&
            (IsSearchable(cfg) ==> t[x].httpMethods["SEARCH"] == Target(cfg.resourceCls, "search")) &&
            t[x].routeName == slug + "_" + plural(member)
  {
    var collection := plural(member);
    var cls := cfg.resourceCls;
    var x := CollectionRegex(collection, []);
    var pre := if IsSearchable(cfg) then SearchRoutes(slug, collection, cls) else [];
    var std := StandardRoutes(slug, member, collection, cls);
    var cus := CustomRoutes(slug, member, collection, cls);
    assert RoutesForResource(slug, member, cfg, plural) == pre + std + cus;
    StandardCollectionRoutes(slug, member, collection, cls);
    if IsSearchable(cfg) {
      StandardRegexesDistinct(collection, PkPattFor(cls.primaryKey));
    }
    var search := SearchRoutes(slug, collection, cls)[0];
    assert CollectionLayout(pre, std, cus, x, search, std[0], std[3]);
    LayoutMethods(pre, std, cus, x, search, std[0], std[3]);
    LayoutTargets(table, pre, std, cus, x, search, std[0], std[3]);
    RegisterAllMethods(table, pre + std + cus, x);
  }

  /** Of the standard routes, `delete` (DELETE), `show` (GET) and `update` (PUT) are the
      ones on the member regex. */
  lemma StandardMemberRoutes(slug: string, member: string, collection: string, cls: ResourceClass)
    ensures var std := StandardRoutes(slug, member, collection, cls);
            var x := MemberRegex(collection, PkPattFor(cls.primaryKey), []);
            std[1] == Route(slug + "_" + member, x, "DELETE", cls, "delete") &&
            std[5] == Route(slug + "_" + member, x, "GET", cls, "show") &&
            std[6] == Route(slug + "_" + member, x, "PUT", cls, "update") &&
            (forall k :: 0 <= k < |std| && k != 1 && k != 5 && k != 6 ==> std[k].regex != x)
  {
    var std := StandardRoutes(slug, member, collection, cls);
    StandardRegexesDistinct(collection, PkPattFor(cls.primaryKey));
    assert ResourceActions[1] == Delete && ResourceActions[5] == Show && ResourceActions[6] == Update;
    forall k | 0 <= k < |std| && k != 1 && k != 5 && k != 6
      ensures std[k].regex != MemberRegex(collection, PkPattFor(cls.primaryKey), [])
    {
      assert ResourceActions[k] in ResourceActions;
    }
  }

  /** The routes of a resource as they fall on its member regex `x`: routes that avoid
      `x`, then seven standard routes of which the second (DELETE), the sixth (GET) and
      the seventh (PUT) are for `x`, then routes that avoid `x`. */
  predicate MemberLayout(pre: seq<Route>, std: seq<Route>, cus: seq<Route>, x: string,
                         delete: Route, show: Route, update: Route) {
    delete.regex == x && delete.httpMethod == "DELETE" &&
    show.regex == x && show.httpMethod == "GET" &&
    update.regex == x && update.httpMethod == "PUT" &&
    |std| == 7 && std[1] == delete && std[5] == show && std[6] == update &&
    (forall k :: 0 <= k < |pre| ==> pre[k].regex != x) &&
    (forall k :: 0 <= k < |std| && k != 1 && k != 5 && k != 6 ==> std[k].regex != x) &&
    (forall k :: 0 <= k < |cus| ==> cus[k].regex != x)
  }

  lemma MemberLayoutMethods(pre: seq<Route>, std: seq<Route>, cus: seq<Route>, x: string,
                            delete: Route, show: Route, update: Route)
    requires MemberLayout(pre, std, cus, x, delete, show, update)
    ensures MethodsFor(pre + std + cus, x) == {"DELETE", "GET", "PUT"}
  {
    var routes := pre + std + cus;
    var p := |pre|;
    assert routes[p + 1] == delete && routes[p + 5] == show && routes[p + 6] == update;
    assert forall k :: 0 <= k < p ==> routes[k] == pre[k];
    assert forall k :: p <= k < p + |std| ==> routes[k] == std[k - p];
    assert forall k :: p + |std| <= k < |routes| ==> routes[k] == cus[k - p - |std|];
    assert forall k :: 0 <= k < |routes| && routes[k].regex == x ==> k == p + 1 || k == p + 5 || k == p + 6;
  }

  lemma MemberLayoutTargets(table: RouteTable, pre: seq<Route>, std: seq<Route>, cus: seq<Route>, x: string,
                            delete: Route, show: Route, update: Route)
    requires MemberLayout(pre, std, cus, x, delete, show, update)
    ensures var t := RegisterAll(table, pre + std + cus);
            x in t &&
            "DELETE" in t[x].httpMethods && t[x].httpMethods["DELETE"] == Target(delete.cls, delete.methodName) &&
            "GET" in t[x].httpMethods && t[x].httpMethods["GET"] == Target(show.cls, show.methodName) &&
            "PUT" in t[x].httpMethods && t[x].httpMethods["PUT"] == Target(update.cls, update.methodName) &&
            t[x].routeName == update.name
  {
    var routes := pre + std + cus;
    var p := |pre|;
    assert forall k :: p <= k < p + |std| ==> routes[k] == std[k - p];
    assert forall k :: p + |std| <= k < |routes| ==> routes[k] == cus[k - p - |std|];
    LastRouteWins(table, routes, p + 1);
    LastRouteWins(table, routes, p + 5);
    LastRouteWins(table, routes, p + 6);
    LastRouteNames(table, routes, p + 6);
  }

  /** The search routes are all on collection regexes. */
  lemma SearchRoutesAvoidMember(slug: string, collection: string, cls: ResourceClass, pkPatt: string)
    ensures var pre := SearchRoutes(slug, collection, cls);
            forall k :: 0 <= k < |pre| ==> pre[k].regex != MemberRegex(collection, pkPatt, [])
  {
    var pre := SearchRoutes(slug, collection, cls);
    assert pre[0].regex == CollectionRegex(collection, []);
    assert pre[1].regex == CollectionRegex(collection, ["search"]);
    assert pre[2].regex == CollectionRegex(collection, ["new_search"]);
    StandardRegexesDistinct(collection, pkPatt);
    var rs := [CollectionRegex(collection, []), CollectionRegex(collection, ["new"]),
               CollectionRegex(collection, ["search"]), CollectionRegex(collection, ["new_search"]),
               MemberRegex(collection, pkPatt, []), MemberRegex(collection, pkPatt, ["edit"])];
    assert rs[0] != rs[4] && rs[2] != rs[4] && rs[3] != rs[4];
  }

  /** The routes of one resource: the three search routes (SEARCH and POST calling
      `search`, GET calling `new_search`) come first exactly when the resource is
      searchable, the seven standard routes follow it either way, and no other route in
      front of the custom ones calls `search` or `new_search`. */
  lemma ResourceRoutesLayout(slug: string, member: string, cfg: ResourceConfig, plural: string -> string)
    ensures var rs := RoutesForResource(slug, member, cfg, plural);
            var c := plural(member);
            var cls := cfg.resourceCls;
            var n := if IsSearchable(cfg) then 3 else 0;
            |rs| == n + 7 + |CustomEndpoints(cls.attributes)| &&
            rs[n..n + 7] == StandardRoutes(slug, member, c, cls) &&
            (IsSearchable(cfg) ==>
               rs[0] == Route(slug + "_" + c, CollectionRegex(c, []), "SEARCH", cls, "search") &&
               rs[1] == Route(slug + "_" + c + "_search", CollectionRegex(c, ["search"]), "POST", cls, "search") &&
               rs[2] == Route(slug + "_" + c + "_new_search", CollectionRegex(c, ["new_search"]), "GET", cls,
                              "new_search")) &&
            forall k :: 0 <= k < n + 7 && rs[k].methodName in ["search", "new_search"] ==> IsSearchable(cfg) && k < 3
  {
    var c := plural(member);
    var cls := cfg.resourceCls;
    var pre := if IsSearchable(cfg) then SearchRoutes(slug, c, cls) else [];
    var std := StandardRoutes(slug, member, c, cls);
    var rs := RoutesForResource(slug, member, cfg, plural);
    assert rs == pre + std + CustomRoutes(slug, member, c, cls);
    LayoutIndices(pre, std, CustomRoutes(slug, member, c, cls));
    StandardRoutesNotSearch(slug, member, c, cls);
    forall k | |pre| <= k < |pre| + 7 ensures rs[k].methodName !in ["search", "new_search"] {
      assert rs[k] == std[k - |pre|];
    }
  }

  lemma StandardRoutesNotSearch(slug: string, member: string, c: string, cls: ResourceClass)
    ensures forall j :: 0 <= j < |ResourceActions| ==>
              StandardRoutes(slug, member, c, cls)[j].methodName !in ["search", "new_search"]
  {
    var std := StandardRoutes(slug, member, c, cls);
    forall j | 0 <= j < |ResourceActions| ensures std[j].methodName !in ["search", "new_search"] {
      assert std[j].methodName == ActionName(ResourceActions[j]);
    }
  }

  /** Registering a resource on a table that does not know its member regex serves that
      regex with `delete` on DELETE, `show` on GET and `update` on PUT, and with nothing
      else (unless a custom endpoint uses the same regex); the route name is
      `<slug>_<member>`. */
  lemma MemberRoutes(table: RouteTable, slug: string, member: string, cfg: ResourceConfig,
                     plural: string -> string)
    requires MemberRegex(plural(member), PkPattFor(cfg.resourceCls.primaryKey), []) !in table
    requires CustomAvoids(slug, member, cfg, plural, MemberRegex(plural(member), PkPattFor(cfg.resourceCls.primaryKey), []))
    ensures var x := MemberRegex(plural(member), PkPattFor(cfg.resourceCls.primaryKey), []);
            var t := RegisterAll(table, RoutesForResource(slug, member, cfg, plural));
            x in t &&
            t[x].httpMethods.Keys == {"DELETE", "GET", "PUT"} &&
            t[x].httpMethods["DELETE"] == Target(cfg.resourceCls, "delete") &&
            t[x].httpMethods["GET"] == Target(cfg.resourceCls, "show") &&
            t[x].httpMethods["PUT"] == Target(cfg.resourceCls, "update") &&
            t[x].routeName == slug + "_" + member
  {
    var collection := plural(member);
    var cls := cfg.resourceCls;
    var x := MemberRegex(collection, PkPattFor(cls.primaryKey), []);
    var pre := if IsSearchable(cfg) then SearchRoutes(slug, collection, cls) else [];
    var std := StandardRoutes(slug, member, collection, cls);
    var cus := CustomRoutes(slug, member, collection, cls);
    assert RoutesForResource(slug, member, cfg, plural) == pre + std + cus;
    StandardMemberRoutes(slug, member, collection, cls);
    SearchRoutesAvoidMember(slug, collection, cls, PkPattFor(cls.primaryKey));
    assert MemberLayout(pre, std, cus, x, std[1], std[5], std[6]);
    MemberLayoutMethods(pre, std, cus, x, std[1], std[5], std[6]);
    MemberLayoutTargets(table, pre, std, cus, x, std[1], std[5], std[6]);
    RegisterAllMethods(table, pre + std + cus, x);
  }

  lemma RoutesForResourcesSnoc(slug: string, rs: seq<(string, ResourceConfig)>, i: nat,
                               plural: string -> string)
    requires i < |rs|
    ensures RoutesForResources(slug, rs[..i + 1], plural) ==
            RoutesForResources(slug, rs[..i], plural) + RoutesForResource(slug, rs[i].0, rs[i].1, plural)
  {
    assert rs[..i + 1][..i] == rs[..i];
  }

  /** Registering the routes of one more resource is registering its routes after those
      of the resources before it. */
  lemma RegisterResourcesStep(table: RouteTable, done: RouteTable, after: RouteTable, slug: string,
                              rs: seq<(string, ResourceConfig)>, i: nat, plural: string -> string)
    requires i < |rs|
    requires done == RegisterAll(table, RoutesForResources(slug, rs[..i], plural))
    requires after == RegisterAll(done, RoutesForResource(slug, rs[i].0, rs[i].1, plural))
    ensures after == RegisterAll(table, RoutesForResources(slug, rs[..i + 1], plural))
  {
    RoutesForResourcesSnoc(slug, rs, i, plural);
    RegisterAllConcat(table, RoutesForResources(slug, rs[..i], plural),
                      RoutesForResource(slug, rs[i].0, rs[i].1, plural));
  }

  /** Registering two runs of routes one after the other is registering them together. */
  lemma {:induction false} RegisterAllConcat(table: RouteTable, a: seq<Route>, b: seq<Route>)
    ensures RegisterAll(table, a + b) == RegisterAll(RegisterAll(table, a), b)
    decreases |b|
  {
    if b == [] {
      assert a + b == a;
    } else {
      assert (a + b)[..|a + b| - 1] == a + b[..|b| - 1];
      RegisterAllConcat(table, a, b[..|b| - 1]);
    }
  }

  // ---------------------------------------------------------------------------
  // URL patterns
  // ---------------------------------------------------------------------------

  /** What a Django `url` calls: the per-regex dispatcher closed over a table entry, or one
      of the four documentation views. */
  datatype View = ResourceView(config: RouteConfig) | SchemaView | YamlView | DocView | ClientView

  /** A Django `url(regex, view=..., name=...)`. */
  datatype UrlPattern = UrlPattern(regex: string, view: View, name: string)

  /** The `url` `get_urlpatterns` makes for one regex of the table. */
  function ResourcePattern(table: RouteTable, x: string): UrlPattern
    requires x in table
  {
    UrlPattern(x, ResourceView(table[x]), table[x].routeName)
  }

  /** The `url`s for the table's regexes, in the order `order` of the dict's items. */
  function ResourcePatterns(order: seq<string>, table: RouteTable): seq<UrlPattern>
    requires forall k :: 0 <= k < |order| ==> order[k] in table
  {
    seq(|order|, k requires 0 <= k < |order| && order[k] in table => ResourcePattern(table, order[k]))
  }

  /** `get_schema_doc_urlpatterns()`: the schema at the API's root, then its YAML, its
      documentation page and its client, each under its own regex and name. */
  function DocUrlPatterns(slug: string): (ps: seq<UrlPattern>)
    ensures |ps| == 4
    ensures ps[0].regex == "^$" && ps[0].view == SchemaView && ps[0].name == slug + "_schema"
    ensures ps[1].regex == "^yaml/$" && ps[1].view == YamlView && ps[1].name == slug + "_yaml"
    ensures ps[2].regex == "^doc/$" && ps[2].view == DocView && ps[2].name == slug + "_doc"
    ensures ps[3].regex == "^client/$" && ps[3].view == ClientView && ps[3].name == slug + "_client"
    ensures forall i, j :: 0 <= i < j < |ps| ==> ps[i].regex != ps[j].regex
  {
    [UrlPattern("^$", SchemaView, slug + "_schema"),
     UrlPattern("^yaml/$", YamlView, slug + "_yaml"),
     UrlPattern("^doc/$", DocView, slug + "_doc"),
     UrlPattern("^client/$", ClientView, slug + "_client")]
  }

  /** Every regex of the table gets exactly one `url`, which dispatches on that regex's
      entry under its route name. */
  lemma ResourcePatternsCoverTable(order: seq<string>, table: RouteTable)
    requires IsEnumeration(order, table.Keys)
    ensures var ps := ResourcePatterns(order, table);
            |ps| == |table.Keys| &&
            (forall x :: x in table ==>
               exists k :: 0 <= k < |ps| && ps[k] == UrlPattern(x, ResourceView(table[x]), table[x].routeName)) &&
            (forall i, j :: 0 <= i < j < |ps| ==> ps[i].regex != ps[j].regex)
  {
    var ps := ResourcePatterns(order, table);
    EnumerationSize(order, table.Keys);
    forall x | x in table
      ensures exists k :: 0 <= k < |ps| && ps[k] == UrlPattern(x, ResourceView(table[x]), table[x].routeName)
    {
      var k :| 0 <= k < |order| && order[k] == x;
      assert ps[k] == ResourcePattern(table, x);
    }
  }

  // ---------------------------------------------------------------------------
  // The builder
  // ---------------------------------------------------------------------------

  /** A `RouteBuilder`: the route table and the registered resources it updates, and the
      constructor arguments of the OpenAPI generator it extends. `plural` stands for
      `inflect`'s `plural`. */
  class RouteBuilder {
    var routes: RouteTable
    var resources: Option<seq<(string, ResourceConfig)>>
    const apiVersion: string
    const serviceName: string
    const pathPrefix: string
    const plural: string -> string

    /** `RouteBuilder(api_version, service_name, path_prefix)`; the source's defaults are
        `'0.1.0'`, `'My Service'` and `'/api/'`. */
    constructor (apiVersion: string, serviceName: string, pathPrefix: string, plural: string -> string)
      ensures routes == map[] && resources == None
      ensures this.apiVersion == apiVersion && this.serviceName == serviceName
      ensures this.pathPrefix == pathPrefix && this.plural == plural
    {
      routes := map[];
      resources := None;
      this.apiVersion := apiVersion;
      this.serviceName := serviceName;
      this.pathPrefix := pathPrefix;
      this.plural := plural;
    }

    /** `get_api_version_slug()` */
    function Slug(): string {
      GetApiVersionSlug(apiVersion)
    }

    /** `register_route(route)` */
    method RegisterRoute(route: Route)
      modifies this
      ensures routes == AddRoute(old(routes), route)
      ensures resources == old(resources)
    {
      routes := AddRoute(routes, route);
    }

    /** The loop of `register_routes_for_resource`: register each route in turn. */
    method RegisterRoutes(rs: seq<Route>)
      modifies this
      ensures routes == RegisterAll(old(routes), rs)
      ensures resources == old(resources)
    {
      var i := 0;
      while i < |rs|
        invariant 0 <= i <= |rs|
        invariant routes == RegisterAll(old(routes), rs[..i])
        invariant resources == old(resources)
      {
        assert rs[..i + 1][..i] == rs[..i];
        RegisterRoute(rs[i]);
        i := i + 1;
      }
      assert rs[..|rs|] == rs;
    }

    /** `register_routes_for_resource(rsrc_member_name, rsrc_config)` */
    method RegisterRoutesForResource(member: string, cfg: ResourceConfig)
      modifies this
      ensures routes == RegisterAll(old(routes), RoutesForResource(Slug(), member, cfg, plural))
      ensures resources == old(resources)
    {
      RegisterRoutes(RoutesForResource(Slug(), member, cfg, plural));
    }

    /** `register_resources(resources_)`, the resources given as the dict's items in
        iteration order. */
    method RegisterResources(rs: seq<(string, ResourceConfig)>)
      modifies this
      ensures resources == Some(rs)
      ensures routes == RegisterAll(old(routes), RoutesForResources(Slug(), rs, plural))
    {
      ghost var table := routes;
      ghost var registered: seq<Route> := [];
      resources := Some(rs);
      for i := 0 to |rs|
        invariant resources == Some(rs)
        invariant registered == RoutesForResources(Slug(), rs[..i], plural)
        invariant routes == RegisterAll(table, registered)
      {
        ghost var next := RoutesForResource(Slug(), rs[i].0, rs[i].1, plural);
        RegisterRoutesForResource(rs[i].0, rs[i].1);
        RegisterAllConcat(table, registered, next);
        RoutesForResourcesSnoc(Slug(), rs, i, plural);
        registered := registered + next;
      }
      assert rs[..|rs|] == rs;
    }

    /** `get_urlpatterns()`: a `url` per regex of the table, in the order `order` of the
        dict's items, then the four documentation `url`s. */
    method GetUrlpatterns(order: seq<string>) returns (patterns: seq<UrlPattern>)
      requires IsEnumeration(order, routes.Keys)
      ensures patterns == ResourcePatterns(order, routes) + DocUrlPatterns(Slug())
    {
      patterns := [];
      var i := 0;
      while i < |order|
        invariant 0 <= i <= |order|
        invariant patterns == ResourcePatterns(order[..i], routes)
      {
        patterns := patterns + [ResourcePattern(routes, order[i])];
        i := i + 1;
      }
      assert order[..|order|] == order;
      patterns := patterns + DocUrlPatterns(Slug());
    }
  }

  // ---------------------------------------------------------------------------
  // Dispatch inside a URL pattern
  // ---------------------------------------------------------------------------

  /** The body and status of a JSON response. */
  datatype Reply = Reply(payload: Json, status: int)

  /** `method_not_allowed(tried_method, accepted_methods)` */
  function MethodNotAllowed(tried: string, accepted: seq<string>): (j: Json)
    ensures IsErrorPayload(j)
    ensures StartsWith(ErrorMessage(j), "The " + tried + " method is not allowed")
    ensures EndsWith(ErrorMessage(j), ": " + Join(accepted, ", "))
  {
    var lead := "The " + tried + " method is not allowed";
    var tail := ": " + Join(accepted, ", ");
    var msg := lead + " for this resources. The accepted methods are" + tail;
    assert msg[..|lead|] == lead;
    assert msg[|msg| - |tail|..] == tail;
    ErrorPayload(msg)
  }

  /** `resource_callable(config, request, **kwargs)`: 405 with the accepted methods (listed
      in `accepted`, the order of the dict's keys) for a method the regex does not serve;
      otherwise 403 for an unauthenticated request, and the handler's reply for an
      authenticated one. `handle` stands for calling the target method on a fresh instance
      of the target class. */
  function ResourceCallable(config: RouteConfig, httpMethod: string, accepted: seq<string>,
                            authenticated: bool, handle: Target -> Reply): (r: Reply)
    requires IsEnumeration(accepted, config.httpMethods.Keys)
    ensures httpMethod !in config.httpMethods ==> r == Reply(MethodNotAllowed(httpMethod, accepted), MethodNotAllowedStatus)
    ensures httpMethod in config.httpMethods && !authenticated ==> r == Reply(UnauthorizedMsg, ForbiddenStatus)
    ensures httpMethod in config.httpMethods && authenticated ==> r == handle(config.httpMethods[httpMethod])
  {
    if httpMethod !in config.httpMethods then
      Reply(MethodNotAllowed(httpMethod, accepted), MethodNotAllowedStatus)
    else if !authenticated then Reply(UnauthorizedMsg, ForbiddenStatus)
    else handle(config.httpMethods[httpMethod])
  }

  // ---------------------------------------------------------------------------
  // The `ApiKey` authorization header
  // ---------------------------------------------------------------------------

  /** What the header-parsing half of `is_authenticated` does with the `Authorization`
      header: answer False, raise the named exception, or go on to look up the username
      and key it found. */
  datatype HeaderOutcome = Rejected | Raises(exception: string) | Lookup(username: string, key: string)

  /** The header-parsing half of `is_authenticated(request)` as written. A header that is
      present but blank has no last word, so `split()[-1]` raises an `IndexError`, which
      the `except ValueError` clause does not catch. */
  function ParseAuthorizationAsWritten(header: Option<string>): (o: HeaderOutcome)
    ensures header.None? || header.value == [] ==> o == Rejected
    ensures o.Raises? <==> header.Some? && header.value != [] && AllSpace(header.value)
    ensures o.Raises? ==> o.exception == "IndexError"
    ensures o.Lookup? <==> header.Some? && LastToken(header.value).Some? && ':' in LastToken(header.value).value
    ensures o.Lookup? ==> header.Some? && ':' !in o.username &&
                          LastToken(header.value) == Some(o.username + ":" + o.key)
  {
    if header.None? || header.value == [] then Rejected
    else
      match LastToken(header.value)
      case None => Raises("IndexError")
      case Some(w) =>
        var parts := SplitOnce(w, ':');
        if |parts| != 2 then Rejected else Lookup(parts[0], parts[1])
  }

  /** The header parsing as evidently intended: no header, a blank one, or a last word
      without a `:` carry no credentials; otherwise the last word, split at its first `:`,
      gives the username and the key. */
  function Credentials(header: Option<string>): (c: Option<(string, string)>)
    ensures c.Some? <==> header.Some? && LastToken(header.value).Some? && ':' in LastToken(header.value).value
    ensures c.Some? ==> header.Some? && ':' !in c.value.0 &&
                        LastToken(header.value) == Some(c.value.0 + ":" + c.value.1)
  {
    if header.None? then None
    else
      match LastToken(header.value)
      case None => None
      case Some(w) =>
        var parts := SplitOnce(w, ':');
        if |parts| != 2 then None else Some((parts[0], parts[1]))
  }

  /** The corrected parse agrees with the code as written wherever that does not raise:
      a rejected header carries no credentials, and a lookup carries its username and key. */
  lemma CredentialsAgreeAsWritten(header: Option<string>)
    ensures ParseAuthorizationAsWritten(header) == Rejected ==> Credentials(header).None?
    ensures ParseAuthorizationAsWritten(header).Raises? ==> Credentials(header).None?
    ensures ParseAuthorizationAsWritten(header).Lookup? ==>
              Credentials(header) ==
              Some((ParseAuthorizationAsWritten(header).username, ParseAuthorizationAsWritten(header).key))
  {
  }

  /** A header made only of whitespace crashes the code as written, and carries no
      credentials. */
  lemma BlankHeaderRaises(header: string)
    requires header != [] && AllSpace(header)
    ensures ParseAuthorizationAsWritten(Some(header)) == Raises("IndexError")
    ensures Credentials(Some(header)).None?
  {
    TokensEmpty(header);
  }

  /** The scheme word of the header. */
  const ApiKeyScheme: string := "ApiKey"

  /** `ApiKey <username>:<key>` splits into the scheme and the credentials. */
  lemma ApiKeyHeaderWords(w: string)
    requires IsToken(w)
    ensures Tokens(ApiKeyScheme + " " + w) == [ApiKeyScheme, w]
  {
    var a := ApiKeyScheme;
    assert IsToken(a) by {
      assert !IsSpace(a[0]) && !IsSpace(a[1]) && !IsSpace(a[2]);
      assert !IsSpace(a[3]) && !IsSpace(a[4]) && !IsSpace(a[5]);
    }
    TokensOfTwo(a, w);
  }

  /** The header `ApiKey <username>:<key>` carries exactly that username and key, for any
      username without a `:` (the key may hold more of them). */
  lemma ApiKeyHeaderCredentials(username: string, key: string)
    requires ':' !in username
    requires IsToken(username + ":" + key)
    ensures Credentials(Some(ApiKeyScheme + " " + username + ":" + key)) == Some((username, key))
    ensures ParseAuthorizationAsWritten(Some(ApiKeyScheme + " " + username + ":" + key)) == Lookup(username, key)
  {
    var w := username + ":" + key;
    var h := ApiKeyScheme + " " + w;
    assert ApiKeyScheme + " " + username + ":" + key == h;
    assert Tokens(h) == [ApiKeyScheme, w] by {
      ApiKeyHeaderWords(w);
    }
    assert SplitOnce(w, ':') == [username, key] by {
      assert w == username + [':'] + key;
      SplitOnceOfJoined(username, ':', key);
    }
    assert h != [];
  }
}
