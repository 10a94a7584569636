/**
 * The route table of base/__init__.py: an ordered list of
 * (method, path, handler) entries that a server binds to itself at start-up.
 */
module Routes {
  import opened Wrappers

  /** A handler function, known by its `__name__`. */
  datatype Handler = Handler(name: string)

  /** One registered route. */
  datatype RouteEntry = RouteEntry(verb: string, path: string, handler: Handler)

  /** What `web.route` builds: a route whose handler is a resolved attribute of type C. */
  datatype RouteDef<C> = RouteDef(verb: string, path: string, handler: C)

  /** Entry i is the first whose handler name `obj` does not hold. */
  ghost predicate FirstUnbound<C>(routes: seq<RouteEntry>, obj: map<string, C>, i: int)
  {
    && 0 <= i < |routes|
    && routes[i].handler.name !in obj
    && forall j :: 0 <= j < i ==> routes[j].handler.name in obj
  }

  /**
   * `bind_routes`: resolves every entry's handler name as an attribute of
   * `obj`, keeping the order of the routes. A name `obj` lacks makes
   * `getattr` raise `AttributeError`; the comprehension stops at the first
   * such entry, whose name is reported.
   */
  function BindRoutes<C>(routes: seq<RouteEntry>, obj: map<string, C>): (r: Result<seq<RouteDef<C>>, string>)
    ensures r.Ok? <==> forall i :: 0 <= i < |routes| ==> routes[i].handler.name in obj
    ensures r.Ok? ==> |r.value| == |routes|
    ensures r.Ok? ==> forall i :: 0 <= i < |routes| ==>
      && r.value[i].verb == routes[i].verb
      && r.value[i].path == routes[i].path
      && r.value[i].handler == obj[routes[i].handler.name]
    ensures r.Err? ==> exists i :: FirstUnbound(routes, obj, i) && routes[i].handler.name == r.error
  {
    if routes == [] then Ok([])
    else if routes[0].handler.name !in obj then Err(routes[0].handler.name)
    else
      match BindRoutes(routes[1..], obj)
      case Ok(rest) =>
        Ok([RouteDef(routes[0].verb, routes[0].path, obj[routes[0].handler.name])] + rest)
      case Err(name) =>
        FirstUnboundAfterBound(routes, obj, name);
        Err(name)
  }

  /** A first unbound entry of the tail is a first unbound entry of the whole list. */
  lemma FirstUnboundAfterBound<C>(routes: seq<RouteEntry>, obj: map<string, C>, name: string)
    requires |routes| > 0 && routes[0].handler.name in obj
    requires exists i :: FirstUnbound(routes[1..], obj, i) && routes[1..][i].handler.name == name
    ensures exists i :: FirstUnbound(routes, obj, i) && routes[i].handler.name == name
  {
    var i :| FirstUnbound(routes[1..], obj, i) && routes[1..][i].handler.name == name;
    assert routes[i + 1] == routes[1..][i];
    forall j | 0 <= j < i + 1 ensures routes[j].handler.name in obj {
      if j > 0 { assert routes[j] == routes[1..][j - 1]; }
    }
    assert FirstUnbound(routes, obj, i + 1);
  }

  /** Binding a table extended by one route extends the bound list by that route's binding. */
  lemma {:induction false} BindAfterAdd<C>(routes: seq<RouteEntry>, e: RouteEntry, obj: map<string, C>)
    requires BindRoutes(routes, obj).Ok? && e.handler.name in obj
    ensures BindRoutes(routes + [e], obj)
      == Ok(BindRoutes(routes, obj).value + [RouteDef(e.verb, e.path, obj[e.handler.name])])
  {
    var rs := routes + [e];
    assert forall i :: 0 <= i < |rs| ==> rs[i].handler.name in obj by {
      forall i | 0 <= i < |rs| ensures rs[i].handler.name in obj {
        if i < |routes| { assert rs[i] == routes[i]; }
      }
    }
    var bound := BindRoutes(rs, obj).value;
    var expected := BindRoutes(routes, obj).value + [RouteDef(e.verb, e.path, obj[e.handler.name])];
    assert |bound| == |expected|;
    forall i | 0 <= i < |bound| ensures bound[i] == expected[i] {
      if i < |routes| { assert rs[i] == routes[i]; }
    }
    assert bound == expected;
  }

  /** A Python list of route entries: an object whose contents change in place. */
  class RouteList {
    var items: seq<RouteEntry>

    constructor (items: seq<RouteEntry>)
      ensures this.items == items
    {
      this.items := items;
    }
  }

  /** `RouteHandler`: holds the route list that `add_route` extends in place. */
  class RouteHandler {
    var routes: RouteList

    /**
     * `RouteHandler(rh)`: with no parent the table gets a new empty list;
     * otherwise a new list (`copy.deepcopy`) holding the parent's entries, in
     * the same order. Either way the list is fresh, shared with no other table.
     */
    constructor (rh: RouteHandler?)
      ensures fresh(routes)
      ensures rh == null ==> routes.items == []
      ensures rh != null ==> routes.items == rh.routes.items
    {
      routes := new RouteList(if rh != null then rh.routes.items else []);
    }

    /**
     * `add_route(verb, path)(f)`: `self.routes += [...]` extends the same list
     * object by exactly `(verb, path, f)` after the existing entries, and gives
     * back `f` itself.
     */
    method AddRoute(verb: string, path: string, f: Handler) returns (g: Handler)
      modifies routes
      ensures routes == old(routes)
      ensures routes.items == old(routes.items) + [RouteEntry(verb, path, f)]
      ensures g == f
    {
      routes.items := routes.items + [RouteEntry(verb, path, f)];
      g := f;
    }
  }

  /** A table derived from `parent` and then extended leaves `parent`'s list as it was. */
  method DeriveAndExtend(parent: RouteHandler, verb: string, path: string, f: Handler)
    returns (child: RouteHandler)
    ensures fresh(child) && fresh(child.routes)
    ensures child.routes.items == parent.routes.items + [RouteEntry(verb, path, f)]
    ensures parent.routes.items == old(parent.routes.items)
  {
    child := new RouteHandler(parent);
    var _ := child.AddRoute(verb, path, f);
  }

  /** Extending `parent` after deriving from it leaves the derived table's list as it was. */
  method ExtendParentAfterDerive(parent: RouteHandler, verb: string, path: string, f: Handler)
    returns (child: RouteHandler)
    modifies parent.routes
    ensures fresh(child) && fresh(child.routes)
    ensures child.routes.items == old(parent.routes.items)
    ensures parent.routes.items == old(parent.routes.items) + [RouteEntry(verb, path, f)]
  {
    child := new RouteHandler(parent);
    var _ := parent.AddRoute(verb, path, f);
  }

  /** Two tables derived from one parent do not see each other's additions. */
  method SiblingsAreIndependent(parent: RouteHandler, e1: RouteEntry, e2: RouteEntry)
    returns (left: RouteHandler, right: RouteHandler)
    ensures fresh(left) && fresh(right) && left.routes != right.routes
    ensures left.routes.items == parent.routes.items + [e1]
    ensures right.routes.items == parent.routes.items + [e2]
    ensures parent.routes.items == old(parent.routes.items)
  {
    left := new RouteHandler(parent);
    right := new RouteHandler(parent);
    var _ := left.AddRoute(e1.verb, e1.path, e1.handler);
    var _ := right.AddRoute(e2.verb, e2.path, e2.handler);
  }
}
