/** The UI router: an append-only route table searched by exact path. */
module UiRouter {
  import opened Wrappers

  /** A component class and a module context, by identity. */
  type ComponentId = nat
  type ContextId = nat

  /** `RouteDefinition`: a path (without its leading `/`) and the component it shows. */
  datatype RouteDefinition = RouteDefinition(path: string, component: ComponentId)

  /** `ContextualizedRouteDefinition`. */
  datatype Route = Route(definition: RouteDefinition, context: ContextId)

  /** `ModuleComponentContext`: what a navigation emits. */
  datatype Destination = Destination(context: ContextId, component: ComponentId)

  /** Each definition paired with `context`, in the given order. */
  function Contextualize(context: ContextId, definitions: seq<RouteDefinition>): (r: seq<Route>)
    ensures |r| == |definitions|
    ensures forall i :: 0 <= i < |r| ==> r[i].definition == definitions[i] && r[i].context == context
  {
    if |definitions| == 0 then []
    else Contextualize(context, definitions[..|definitions| - 1]) + [Route(definitions[|definitions| - 1], context)]
  }

  /** `path.substring(1)`: the path without its first character; empty stays empty. */
  function DropFirst(path: string): (r: string)
    ensures |path| > 0 ==> r == path[1..]
    ensures |path| == 0 ==> r == ""
  {
    if |path| == 0 then "" else path[1..]
  }

  /**
   * `findMatchingRoute(routes, path)`: the first route whose path equals
   * `path` without its first character, or `undefined`.
   */
  function FindMatchingRoute(routes: seq<Route>, path: string): (r: Option<Route>)
    ensures r.Some? ==> exists i :: 0 <= i < |routes| && routes[i] == r.value && FirstMatchAt(routes, DropFirst(path), i)
    ensures r.None? <==> forall i :: 0 <= i < |routes| ==> routes[i].definition.path != DropFirst(path)
  {
    FirstWithPath(routes, DropFirst(path))
  }

  /** `routes[i]` has exactly this path and no earlier route does. */
  predicate FirstMatchAt(routes: seq<Route>, path: string, i: nat)
    requires i < |routes|
  {
    routes[i].definition.path == path && forall j :: 0 <= j < i ==> routes[j].definition.path != path
  }

  /** The first route with exactly this path. */
  function FirstWithPath(routes: seq<Route>, path: string): (r: Option<Route>)
    ensures r.Some? ==> exists i :: 0 <= i < |routes| && routes[i] == r.value && FirstMatchAt(routes, path, i)
    ensures r.None? <==> forall i :: 0 <= i < |routes| ==> routes[i].definition.path != path
  {
    if |routes| == 0 then None
    else if routes[0].definition.path == path then (assert FirstMatchAt(routes, path, 0); Some(routes[0]))
    else
      var rest := FirstWithPath(routes[1..], path);
      if rest.Some? then
        var i :| 0 <= i < |routes| - 1 && routes[1..][i] == rest.value && FirstMatchAt(routes[1..], path, i);
        assert routes[i + 1] == rest.value;
        assert FirstMatchAt(routes, path, i + 1) by {
          forall j | 1 <= j < i + 1
            ensures routes[j].definition.path != path
          {
            assert routes[j] == routes[1..][j - 1];
          }
        }
        rest
      else
        assert forall i :: 1 <= i < |routes| ==> routes[i].definition.path != path by {
          forall i | 1 <= i < |routes|
            ensures routes[i].definition.path != path
          {
            assert routes[i] == routes[1..][i - 1];
          }
        }
        rest
  }

  /** What `navigate` emits for a matched route, or `undefined`. */
  function DestinationOf(route: Option<Route>): Option<Destination> {
    match route
    case Some(r) => Some(Destination(r.context, r.definition.component))
    case None => None
  }

  class Router {
    var routes: seq<Route>
    /** The locations pushed onto the browser history. */
    var history: seq<string>

    constructor()
      ensures routes == [] && history == []
    {
      routes := [];
      history := [];
    }

    /** `addRoutes(moduleContext, routes)`: appends, in order, after the existing routes. */
    method AddRoutes(context: ContextId, definitions: seq<RouteDefinition>)
      modifies this`routes
      ensures routes == old(routes) + Contextualize(context, definitions)
      ensures |routes| == |old(routes)| + |definitions|
      ensures forall i :: 0 <= i < |definitions| ==>
        routes[|old(routes)| + i] == Route(definitions[i], context)
    {
      routes := routes + Contextualize(context, definitions);
    }

    /**
     * `navigate(to, pushState)`: optionally records `to` in the history,
     * then emits the matched route's context and component, or `undefined`.
     */
    method Navigate(to: string, pushState: bool) returns (emitted: Option<Destination>)
      modifies this`history
      ensures history == if pushState then old(history) + [to] else old(history)
      ensures emitted == DestinationOf(FindMatchingRoute(routes, to))
      ensures emitted.None? <==> forall i :: 0 <= i < |routes| ==> routes[i].definition.path != DropFirst(to)
    {
      if pushState {
        history := history + [to];
      }
      var route := FindMatchingRoute(routes, to);
      if route.Some? {
        emitted := Some(Destination(route.value.context, route.value.definition.component));
      } else {
        emitted := None;
      }
    }
  }

  /** Adding routes never changes which earlier route a path finds. */
  lemma {:induction false} EarlierRouteWins(routes: seq<Route>, more: seq<Route>, path: string)
    requires FindMatchingRoute(routes, path).Some?
    ensures FindMatchingRoute(routes + more, path) == FindMatchingRoute(routes, path)
  {
    FirstWithPathPrefix(routes, more, DropFirst(path));
  }

  /** When no existing route matches, the search continues into the added ones. */
  lemma {:induction false} LaterRouteFound(routes: seq<Route>, more: seq<Route>, path: string)
    requires FindMatchingRoute(routes, path).None?
    ensures FindMatchingRoute(routes + more, path) == FindMatchingRoute(more, path)
  {
    FirstWithPathSkips(routes, more, DropFirst(path));
  }

  lemma {:induction false} FirstWithPathSkips(routes: seq<Route>, more: seq<Route>, path: string)
    requires FirstWithPath(routes, path).None?
    ensures FirstWithPath(routes + more, path) == FirstWithPath(more, path)
  {
    if |routes| > 0 {
      assert (routes + more)[0] == routes[0];
      assert (routes + more)[1..] == routes[1..] + more;
      FirstWithPathSkips(routes[1..], more, path);
    } else {
      assert routes + more == more;
    }
  }

  lemma {:induction false} FirstWithPathPrefix(routes: seq<Route>, more: seq<Route>, path: string)
    requires FirstWithPath(routes, path).Some?
    ensures FirstWithPath(routes + more, path) == FirstWithPath(routes, path)
  {
    assert (routes + more)[0] == routes[0];
    if routes[0].definition.path != path {
      assert (routes + more)[1..] == routes[1..] + more;
      FirstWithPathPrefix(routes[1..], more, path);
    }
  }
}
