/**
 * Mounting an API module on an Express router: the module tree is walked
 * depth-first, and every controller action becomes one route registration
 * (or one static-file mount per directory) whose path is built from the
 * module, controller and action path segments.
 */
module ExpressBootstrap {
  import opened Wrappers

  /** A descriptor's `path`, which may be `undefined` (`None`). */
  type Segment = Option<string>

  datatype HttpMethod = Get | Put | Post | Patch | Delete

  /** `ActionDescriptor`: the route's method and path, and its static directories if any. */
  datatype ActionDescriptor = ActionDescriptor(name: string, verb: HttpMethod, path: Segment,
                                               staticFiles: Option<seq<string>>)

  /** `ControllerDescriptor`: its path and its actions in declaration order. */
  datatype ControllerDescriptor = ControllerDescriptor(path: Segment, actions: seq<ActionDescriptor>)

  /** `ModuleDescriptor`: its path, its controllers and its child modules. */
  datatype ModuleDescriptor = ModuleDescriptor(path: Segment, controllers: seq<ControllerDescriptor>,
                                               modules: seq<ModuleDescriptor>)

  /** What `routeTo` closes over: the module chain, the controller and the action. */
  datatype Handler = Handler(modules: seq<ModuleDescriptor>, controller: ControllerDescriptor,
                             action: ActionDescriptor)

  /** One call on the Express router. */
  datatype Registration =
    | MethodRoute(verb: HttpMethod, path: string, handler: Handler)   // router[verb](path, handler)
    | StaticUse(path: string, directory: string)                        // router.use(path, express.static(dir))

  // ---------------------------------------------------------------------------
  // Route paths
  // ---------------------------------------------------------------------------

  /** A segment the route path keeps: defined, not `""` and not `"/"`. */
  predicate KeptSegment(s: Segment) {
    s.Some? && s.value != "" && s.value != "/"
  }

  /** The segments that survive the filter, in order. */
  function Kept(segs: seq<Segment>): (r: seq<string>)
    ensures |r| <= |segs|
    ensures forall i :: 0 <= i < |r| ==> r[i] != "" && r[i] != "/"
  {
    if |segs| == 0 then []
    else
      var init := Kept(segs[..|segs| - 1]);
      var last := segs[|segs| - 1];
      if KeptSegment(last) then init + [last.value] else init
  }

  /** A string survives the filter exactly when it is one of the kept segments. */
  lemma {:induction false} KeptMember(segs: seq<Segment>, s: string)
    ensures s in Kept(segs) <==> Some(s) in segs && s != "" && s != "/"
  {
    if |segs| > 0 {
      var n := |segs| - 1;
      KeptMember(segs[..n], s);
      assert segs == segs[..n] + [segs[n]];
    }
  }

  /** `parts.join("/")`. */
  function Join(parts: seq<string>): string {
    if |parts| == 0 then ""
    else if |parts| == 1 then parts[0]
    else Join(parts[..|parts| - 1]) + "/" + parts[|parts| - 1]
  }

  /** The route path of a list of segments: the kept segments joined by `/`. */
  function RoutePath(segs: seq<Segment>): string {
    Join(Kept(segs))
  }

  /** Filtering distributes over concatenation. */
  lemma {:induction false} KeptAppend(a: seq<Segment>, b: seq<Segment>)
    ensures Kept(a + b) == Kept(a) + Kept(b)
  {
    if |b| > 0 {
      var n := |b| - 1;
      assert (a + b)[..|a + b| - 1] == a + b[..n];
      KeptAppend(a, b[..n]);
    } else {
      assert a + b == a;
    }
  }

  /** Joining two lists puts one `/` between their joins when both are non-empty. */
  lemma {:induction false} JoinAppend(a: seq<string>, b: seq<string>)
    ensures Join(a + b) == if |a| == 0 then Join(b) else if |b| == 0 then Join(a) else Join(a) + "/" + Join(b)
  {
    if |a| == 0 {
      assert a + b == b;
    } else if |b| == 0 {
      assert a + b == a;
    } else if |b| == 1 {
      assert (a + b)[..|a + b| - 1] == a;
    } else {
      var n := |b| - 1;
      assert (a + b)[..|a + b| - 1] == a + b[..n];
      JoinAppend(a, b[..n]);
    }
  }

  /**
   * The route path of two runs of segments is the two route paths joined
   * by one `/`, or whichever of them is not empty.
   */
  lemma RoutePathAppend(a: seq<Segment>, b: seq<Segment>)
    ensures RoutePath(a + b) ==
      if Kept(a) == [] then RoutePath(b)
      else if Kept(b) == [] then RoutePath(a)
      else RoutePath(a) + "/" + RoutePath(b)
  {
    KeptAppend(a, b);
    JoinAppend(Kept(a), Kept(b));
  }

  /** `s.split("/")`. */
  function Split(s: string): (r: seq<string>)
    ensures |r| >= 1
  {
    if |s| == 0 then [""]
    else
      var init := Split(s[..|s| - 1]);
      var c := s[|s| - 1];
      if c == '/' then init + [""]
      else init[..|init| - 1] + [init[|init| - 1] + [c]]
  }

  /** Splitting text that follows the last `/` adds it as the final part. */
  lemma {:induction false} SplitAfterSlash(x: string, y: string)
    requires '/' !in y
    ensures Split(x + "/" + y) == Split(x) + [y]
  {
    if |y| > 0 {
      var n := |y| - 1;
      assert (x + "/" + y)[..|x + "/" + y| - 1] == x + "/" + y[..n];
      assert y[..n] + [y[n]] == y;
      SplitAfterSlash(x, y[..n]);
    } else {
      assert x + "/" + y == x + "/";
      assert (x + "/")[..|x + "/"| - 1] == x;
    }
  }

  /** Text without a `/` splits into itself. */
  lemma {:induction false} SplitNoSlash(y: string)
    requires '/' !in y
    ensures Split(y) == [y]
  {
    if |y| > 0 {
      var n := |y| - 1;
      assert y[..n] + [y[n]] == y;
      SplitNoSlash(y[..n]);
    }
  }

  /** Splitting a join of non-empty, slash-free parts gives the parts back. */
  lemma {:induction false} SplitJoin(parts: seq<string>)
    requires |parts| > 0
    requires forall i :: 0 <= i < |parts| ==> '/' !in parts[i]
    ensures Split(Join(parts)) == parts
  {
    if |parts| == 1 {
      SplitNoSlash(parts[0]);
    } else {
      var n := |parts| - 1;
      SplitJoin(parts[..n]);
      SplitAfterSlash(Join(parts[..n]), parts[n]);
      assert parts[..n] + [parts[n]] == parts;
    }
  }

  /**
   * When no kept segment contains a `/`, splitting a route path on `/`
   * recovers exactly the kept segments.
   */
  lemma RoutePathSplits(segs: seq<Segment>)
    requires Kept(segs) != []
    requires forall i :: 0 <= i < |segs| && KeptSegment(segs[i]) ==> '/' !in segs[i].value
    ensures Split(RoutePath(segs)) == Kept(segs)
  {
    var parts := Kept(segs);
    forall i | 0 <= i < |parts|
      ensures '/' !in parts[i]
    {
      assert parts[i] in parts;
      KeptMember(segs, parts[i]);
      var k :| 0 <= k < |segs| && segs[k] == Some(parts[i]);
      assert KeptSegment(segs[k]);
    }
    SplitJoin(parts);
  }

  // ---------------------------------------------------------------------------
  // What gets registered
  // ---------------------------------------------------------------------------

  /** One `router.use(path, ...)` per static directory, in order. */
  function StaticUses(path: string, files: seq<string>): (r: seq<Registration>)
    ensures |r| == |files|
    ensures forall k :: 0 <= k < |r| ==> r[k] == StaticUse(path, files[k])
  {
    seq(|files|, k requires 0 <= k < |files| => StaticUse(path, files[k]))
  }

  /**
   * The registrations for action `a` of controller `c`, whose path segments
   * (module segments then controller path) are `prefix`.
   */
  function ActionRoutes(chain: seq<ModuleDescriptor>, c: ControllerDescriptor, a: ActionDescriptor,
                        prefix: seq<Segment>): seq<Registration>
  {
    var p := RoutePath(prefix + [a.path]);
    match a.staticFiles
    case Some(files) => StaticUses(p, files)
    case None => [MethodRoute(a.verb, "/" + p, Handler(chain, c, a))]
  }

  /** The registrations for a run of actions, in order. */
  function ActionsRoutes(chain: seq<ModuleDescriptor>, c: ControllerDescriptor, actions: seq<ActionDescriptor>,
                         prefix: seq<Segment>): seq<Registration>
  {
    if |actions| == 0 then []
    else ActionsRoutes(chain, c, actions[..|actions| - 1], prefix)
         + ActionRoutes(chain, c, actions[|actions| - 1], prefix)
  }

  /** `pathSegments` after `n` calls of `pop()`: an empty array stays empty. */
  function PoppedN(segs: seq<Segment>, n: nat): (r: seq<Segment>)
    ensures |r| == if n >= |segs| then 0 else |segs| - n
  {
    if n >= |segs| then [] else segs[..|segs| - n]
  }

  /**
   * `processControllers` as written: the `k`-th controller's routes are
   * built on `segs` after `k` pops.
   */
  function ControllersAsWritten(chain: seq<ModuleDescriptor>, cs: seq<ControllerDescriptor>,
                                segs: seq<Segment>): seq<Registration>
  {
    if |cs| == 0 then []
    else
      var n := |cs| - 1;
      ControllersAsWritten(chain, cs[..n], segs)
      + ActionsRoutes(chain, cs[n], cs[n].actions, PoppedN(segs, n) + [cs[n].path])
  }

  /**
   * `processModules` as written: each child extends `segs` with its own path
   * and its descriptor; its child modules see that array after the pops
   * its controllers made.
   */
  function ModulesAsWritten(chain: seq<ModuleDescriptor>, ms: seq<ModuleDescriptor>,
                            segs: seq<Segment>): seq<Registration>
    decreases ms
  {
    if |ms| == 0 then []
    else
      var n := |ms| - 1;
      ModulesAsWritten(chain, ms[..n], segs) + ChildAsWritten(chain, ms[n], segs)
  }

  function ChildAsWritten(chain: seq<ModuleDescriptor>, child: ModuleDescriptor,
                          segs: seq<Segment>): seq<Registration>
    decreases child
  {
    var own := segs + [child.path];
    ControllersAsWritten(chain + [child], child.controllers, own)
    + ModulesAsWritten(chain + [child], child.modules, PoppedN(own, |child.controllers|))
  }

  /**
   * `bootstrapExpress` as written: the root's controllers, then its child
   * modules on the root array after the root controllers' pops.
   */
  function BootstrapAsWritten(root: ModuleDescriptor): seq<Registration> {
    ControllersAsWritten([root], root.controllers, [root.path])
    + ModulesAsWritten([root], root.modules, PoppedN([root.path], |root.controllers|))
  }

  // ---------------------------------------------------------------------------
  // What was meant: every route under its full module path
  // ---------------------------------------------------------------------------

  /** Every controller's routes built on the same module segments. */
  function ControllersIntended(chain: seq<ModuleDescriptor>, cs: seq<ControllerDescriptor>,
                               segs: seq<Segment>): seq<Registration>
  {
    if |cs| == 0 then []
    else
      var n := |cs| - 1;
      ControllersIntended(chain, cs[..n], segs) + ActionsRoutes(chain, cs[n], cs[n].actions, segs + [cs[n].path])
  }

  function ModulesIntended(chain: seq<ModuleDescriptor>, ms: seq<ModuleDescriptor>,
                           segs: seq<Segment>): seq<Registration>
    decreases ms
  {
    if |ms| == 0 then []
    else
      var n := |ms| - 1;
      ModulesIntended(chain, ms[..n], segs) + ChildIntended(chain, ms[n], segs)
  }

  function ChildIntended(chain: seq<ModuleDescriptor>, child: ModuleDescriptor,
                         segs: seq<Segment>): seq<Registration>
    decreases child
  {
    var own := segs + [child.path];
    ControllersIntended(chain + [child], child.controllers, own)
    + ModulesIntended(chain + [child], child.modules, own)
  }

  /** The route table with every module's path kept for all it contains. */
  function BootstrapIntended(root: ModuleDescriptor): seq<Registration> {
    ControllersIntended([root], root.controllers, [root.path])
    + ModulesIntended([root], root.modules, [root.path])
  }

  /** The paths of a module chain, outermost first. */
  function ChainPaths(chain: seq<ModuleDescriptor>): (r: seq<Segment>)
    ensures |r| == |chain|
    ensures forall i :: 0 <= i < |r| ==> r[i] == chain[i].path
  {
    seq(|chain|, i requires 0 <= i < |chain| => chain[i].path)
  }

  /**
   * A method route sits at `/` followed by the route path of its module
   * chain's paths, its controller's path and its action's path.
   */
  predicate AtHandlerPath(r: Registration) {
    r.MethodRoute? ==>
      r.path == "/" + RoutePath(ChainPaths(r.handler.modules) + [r.handler.controller.path, r.handler.action.path])
  }

  lemma {:induction false} ActionsAtHandlerPath(chain: seq<ModuleDescriptor>, c: ControllerDescriptor,
                                                actions: seq<ActionDescriptor>)
    ensures forall r :: r in ActionsRoutes(chain, c, actions, ChainPaths(chain) + [c.path]) ==> AtHandlerPath(r)
  {
    if |actions| > 0 {
      var n := |actions| - 1;
      ActionsAtHandlerPath(chain, c, actions[..n]);
      assert ChainPaths(chain) + [c.path] + [actions[n].path] == ChainPaths(chain) + [c.path, actions[n].path];
    }
  }

  lemma {:induction false} ControllersAtHandlerPath(chain: seq<ModuleDescriptor>, cs: seq<ControllerDescriptor>)
    ensures forall r :: r in ControllersIntended(chain, cs, ChainPaths(chain)) ==> AtHandlerPath(r)
  {
    if |cs| > 0 {
      var n := |cs| - 1;
      ControllersAtHandlerPath(chain, cs[..n]);
      ActionsAtHandlerPath(chain, cs[n], cs[n].actions);
    }
  }

  lemma {:induction false} ModulesAtHandlerPath(chain: seq<ModuleDescriptor>, ms: seq<ModuleDescriptor>)
    decreases ms
    ensures forall r :: r in ModulesIntended(chain, ms, ChainPaths(chain)) ==> AtHandlerPath(r)
  {
    if |ms| > 0 {
      var n := |ms| - 1;
      ModulesAtHandlerPath(chain, ms[..n]);
      ChildAtHandlerPath(chain, ms[n]);
    }
  }

  lemma {:induction false} ChildAtHandlerPath(chain: seq<ModuleDescriptor>, child: ModuleDescriptor)
    decreases child
    ensures forall r :: r in ChildIntended(chain, child, ChainPaths(chain)) ==> AtHandlerPath(r)
  {
    var inner := chain + [child];
    assert ChainPaths(inner) == ChainPaths(chain) + [child.path];
    ControllersAtHandlerPath(inner, child.controllers);
    ModulesAtHandlerPath(inner, child.modules);
  }

  /** In the intended table, every method route is at its handler's full path. */
  lemma IntendedRoutesAtHandlerPath(root: ModuleDescriptor)
    ensures forall r :: r in BootstrapIntended(root) ==> AtHandlerPath(r)
  {
    assert ChainPaths([root]) == [root.path];
    ControllersAtHandlerPath([root], root.controllers);
    ModulesAtHandlerPath([root], root.modules);
  }

  /**
   * The two tables agree on a tree where no pop can take a segment anybody
   * still needs: no module has two controllers, and none has both a
   * controller and child modules.
   */
  predicate PopHarmless(m: ModuleDescriptor)
    decreases m
  {
    && |m.controllers| <= 1
    && (|m.controllers| == 1 ==> |m.modules| == 0)
    && forall k :: 0 <= k < |m.modules| ==> PopHarmless(m.modules[k])
  }

  lemma {:induction false} ModulesAgree(chain: seq<ModuleDescriptor>, ms: seq<ModuleDescriptor>, segs: seq<Segment>)
    requires forall k :: 0 <= k < |ms| ==> PopHarmless(ms[k])
    decreases ms
    ensures ModulesAsWritten(chain, ms, segs) == ModulesIntended(chain, ms, segs)
  {
    if |ms| > 0 {
      var n := |ms| - 1;
      ModulesAgree(chain, ms[..n], segs);
      var child := ms[n];
      var inner := chain + [child];
      var own := segs + [child.path];
      assert PopHarmless(child);
      if |child.controllers| == 0 {
        assert PoppedN(own, 0) == own;
        ModulesAgree(inner, child.modules, own);
      } else {
        ControllersAgree(inner, child.controllers, own);
      }
      assert ChildAsWritten(chain, child, segs) == ChildIntended(chain, child, segs);
    }
  }

  /** A single controller sees the module segments unpopped. */
  lemma ControllersAgree(chain: seq<ModuleDescriptor>, cs: seq<ControllerDescriptor>, segs: seq<Segment>)
    requires |cs| <= 1
    ensures ControllersAsWritten(chain, cs, segs) == ControllersIntended(chain, cs, segs)
  {
    if |cs| == 1 {
      assert cs[..0] == [];
      assert PoppedN(segs, 0) == segs;
    }
  }

  /** Without harmful pops, the route table is the intended one. */
  lemma AsWrittenAgreesWhenPopHarmless(root: ModuleDescriptor)
    requires PopHarmless(root)
    ensures BootstrapAsWritten(root) == BootstrapIntended(root)
  {
    ControllersAgree([root], root.controllers, [root.path]);
    if |root.controllers| == 0 {
      assert PoppedN([root.path], 0) == [root.path];
      ModulesAgree([root], root.modules, [root.path]);
    }
  }

  /** Route paths of two or three kept segments. */
  lemma RoutePathOfTwo(q: string, r: string)
    requires KeptSegment(Some(q)) && KeptSegment(Some(r))
    ensures RoutePath([Some(q), Some(r)]) == q + "/" + r
  {
    RoutePathAppend([Some(q)], [Some(r)]);
    assert [Some(q)] + [Some(r)] == [Some(q), Some(r)];
    assert Kept([Some(q)]) == [q] by { assert [Some(q)][..0] == []; }
    assert Kept([Some(r)]) == [r] by { assert [Some(r)][..0] == []; }
  }

  lemma RoutePathOfThree(p: string, q: string, r: string)
    requires KeptSegment(Some(p)) && KeptSegment(Some(q)) && KeptSegment(Some(r))
    ensures RoutePath([Some(p), Some(q), Some(r)]) == p + "/" + q + "/" + r
  {
    RoutePathOfTwo(q, r);
    RoutePathAppend([Some(p)], [Some(q), Some(r)]);
    assert [Some(p)] + [Some(q), Some(r)] == [Some(p), Some(q), Some(r)];
    assert Kept([Some(p)]) == [p] by { assert [Some(p)][..0] == []; }
  }

  /**
   * The routes `processControllers` registers for two controllers on a
   * one-segment array: the second one runs after the pop has emptied it.
   */
  lemma TwoControllersAsWritten(chain: seq<ModuleDescriptor>, a: ControllerDescriptor, b: ControllerDescriptor,
                                s: Segment)
    requires |a.actions| == 1 && |b.actions| == 1
    ensures ControllersAsWritten(chain, [a, b], [s])
         == ActionsRoutes(chain, a, a.actions, [s, a.path]) + ActionsRoutes(chain, b, b.actions, [b.path])
  {
    ControllersStep(chain, [a, b], [s], 0);
    ControllersStep(chain, [a, b], [s], 1);
    assert [a, b][..0] == [] && [a, b][..2] == [a, b];
    assert PoppedN([s], 0) + [a.path] == [s, a.path];
    assert PoppedN([s], 1) + [b.path] == [b.path];
  }

  /** The same two controllers in the intended walk keep the segment for both. */
  lemma TwoControllersIntended(chain: seq<ModuleDescriptor>, a: ControllerDescriptor, b: ControllerDescriptor,
                               s: Segment)
    requires |a.actions| == 1 && |b.actions| == 1
    ensures ControllersIntended(chain, [a, b], [s])
         == ActionsRoutes(chain, a, a.actions, [s, a.path]) + ActionsRoutes(chain, b, b.actions, [s, b.path])
  {
    var cs := [a, b];
    assert cs[..1] == [a] && cs[..1][..0] == [] && cs[..2] == cs;
    assert ControllersIntended(chain, cs[..1], [s]) == ActionsRoutes(chain, a, a.actions, [s] + [a.path]);
    assert ControllersIntended(chain, cs, [s])
        == ControllersIntended(chain, cs[..1], [s]) + ActionsRoutes(chain, b, b.actions, [s] + [b.path]);
    assert [s] + [a.path] == [s, a.path] && [s] + [b.path] == [s, b.path];
  }

  /** A controller with one non-static action registers one method route. */
  lemma OneActionRoute(chain: seq<ModuleDescriptor>, c: ControllerDescriptor, x: ActionDescriptor,
                       prefix: seq<Segment>)
    requires c.actions == [x] && x.staticFiles.None?
    ensures ActionsRoutes(chain, c, c.actions, prefix) ==
      [MethodRoute(x.verb, "/" + RoutePath(prefix + [x.path]), Handler(chain, c, x))]
  {
    assert c.actions[..0] == [];
  }

  /** The root module of the counterexample: controllers `p` and `q`, each with one action `act`. */
  function PairRoot(m: string, p: string, q: string, act: string, verb: HttpMethod): (root: ModuleDescriptor)
    ensures root.path == Some(m) && |root.controllers| == 2 && root.modules == []
    ensures root.controllers[0].path == Some(p) && root.controllers[1].path == Some(q)
  {
    var x := ActionDescriptor(act, verb, Some(act), None);
    ModuleDescriptor(Some(m), [ControllerDescriptor(Some(p), [x]), ControllerDescriptor(Some(q), [x])], [])
  }

  /** As written, the pair's second route has lost the module's segment. */
  lemma PairAsWrittenRoutes(m: string, p: string, q: string, act: string, verb: HttpMethod)
    requires KeptSegment(Some(m)) && KeptSegment(Some(p)) && KeptSegment(Some(q)) && KeptSegment(Some(act))
    ensures
      var root := PairRoot(m, p, q, act, verb);
      var x := ActionDescriptor(act, verb, Some(act), None);
      BootstrapAsWritten(root)
        == [MethodRoute(verb, "/" + (m + "/" + p + "/" + act), Handler([root], root.controllers[0], x)),
            MethodRoute(verb, "/" + (q + "/" + act), Handler([root], root.controllers[1], x))]
  {
    var root := PairRoot(m, p, q, act, verb);
    var x := ActionDescriptor(act, verb, Some(act), None);
    var a := root.controllers[0];
    var b := root.controllers[1];
    assert root.controllers == [a, b];
    TwoControllersAsWritten([root], a, b, Some(m));
    OneActionRoute([root], a, x, [Some(m), Some(p)]);
    OneActionRoute([root], b, x, [Some(q)]);
    assert [Some(m), Some(p)] + [Some(act)] == [Some(m), Some(p), Some(act)];
    assert [Some(q)] + [Some(act)] == [Some(q), Some(act)];
    assert BootstrapAsWritten(root) == ControllersAsWritten([root], [a, b], [Some(m)]);
    RoutePathOfThree(m, p, act);
    RoutePathOfTwo(q, act);
  }

  /** The intended walk routes both controllers of the pair under the module's segment. */
  lemma PairIntendedRoutes(m: string, p: string, q: string, act: string, verb: HttpMethod)
    requires KeptSegment(Some(m)) && KeptSegment(Some(p)) && KeptSegment(Some(q)) && KeptSegment(Some(act))
    ensures
      var root := PairRoot(m, p, q, act, verb);
      var x := ActionDescriptor(act, verb, Some(act), None);
      BootstrapIntended(root)
        == [MethodRoute(verb, "/" + (m + "/" + p + "/" + act), Handler([root], root.controllers[0], x)),
            MethodRoute(verb, "/" + (m + "/" + q + "/" + act), Handler([root], root.controllers[1], x))]
  {
    var root := PairRoot(m, p, q, act, verb);
    var x := ActionDescriptor(act, verb, Some(act), None);
    var a := root.controllers[0];
    var b := root.controllers[1];
    assert root.controllers == [a, b];
    TwoControllersIntended([root], a, b, Some(m));
    OneActionRoute([root], a, x, [Some(m), Some(p)]);
    OneActionRoute([root], b, x, [Some(m), Some(q)]);
    assert [Some(m), Some(p)] + [Some(act)] == [Some(m), Some(p), Some(act)];
    assert [Some(m), Some(q)] + [Some(act)] == [Some(m), Some(q), Some(act)];
    assert BootstrapIntended(root) == ControllersIntended([root], [a, b], [Some(m)]);
    RoutePathOfThree(m, p, act);
    RoutePathOfThree(m, q, act);
  }

  /**
   * A root module `m` with two controllers `p` and `q`, each with one
   * action `act` routed under `verb`: as written, the second route is
   * `/q/act`, without the module's `m`, where `/m/q/act` was meant; the
   * intended walk registers it at its handler's path.
   */
  lemma SecondControllerLosesModulePath(m: string, p: string, q: string, act: string, verb: HttpMethod)
    requires KeptSegment(Some(m)) && KeptSegment(Some(p)) && KeptSegment(Some(q)) && KeptSegment(Some(act))
    ensures
      var root := PairRoot(m, p, q, act, verb);
      && |BootstrapAsWritten(root)| == 2 && |BootstrapIntended(root)| == 2
      && BootstrapAsWritten(root)[1].path == "/" + (q + "/" + act)
      && BootstrapIntended(root)[1].path == "/" + (m + "/" + q + "/" + act)
      && !AtHandlerPath(BootstrapAsWritten(root)[1])
      && AtHandlerPath(BootstrapIntended(root)[1])
  {
    var root := PairRoot(m, p, q, act, verb);
    PairAsWrittenRoutes(m, p, q, act, verb);
    PairIntendedRoutes(m, p, q, act, verb);
    var r := BootstrapAsWritten(root)[1];
    assert ChainPaths(r.handler.modules) + [r.handler.controller.path, r.handler.action.path]
        == [Some(m), Some(q), Some(act)];
    RoutePathOfThree(m, q, act);
    ShorterPathDiffers(m, q, act);
  }

  /** Dropping a non-empty leading segment changes the path. */
  lemma ShorterPathDiffers(m: string, q: string, act: string)
    requires |m| > 0
    ensures "/" + (q + "/" + act) != "/" + (m + "/" + q + "/" + act)
  {
    assert |"/" + (q + "/" + act)| < |"/" + (m + "/" + q + "/" + act)|;
  }

  // ---------------------------------------------------------------------------
  // The walk, as the program runs it
  // ---------------------------------------------------------------------------

  /** Popping once more after `n` pops is `n + 1` pops. */
  lemma PopOnceMore(segs: seq<Segment>, n: nat)
    ensures PoppedN(PoppedN(segs, n), 1) == PoppedN(segs, n + 1)
  {
    if n + 1 < |segs| {
      assert segs[..|segs| - n][..|segs| - n - 1] == segs[..|segs| - (n + 1)];
    }
  }

  /** One more controller appends its routes on the array after `i` pops. */
  lemma ControllersStep(chain: seq<ModuleDescriptor>, cs: seq<ControllerDescriptor>, segs: seq<Segment>, i: nat)
    requires i < |cs|
    ensures ControllersAsWritten(chain, cs[..i + 1], segs)
         == ControllersAsWritten(chain, cs[..i], segs) + ActionsRoutes(chain, cs[i], cs[i].actions, PoppedN(segs, i) + [cs[i].path])
  {
    assert cs[..i + 1][..i] == cs[..i];
  }

  /** One more action appends its routes. */
  lemma ActionsStep(chain: seq<ModuleDescriptor>, c: ControllerDescriptor, actions: seq<ActionDescriptor>,
                    prefix: seq<Segment>, j: nat)
    requires j < |actions|
    ensures ActionsRoutes(chain, c, actions[..j + 1], prefix)
         == ActionsRoutes(chain, c, actions[..j], prefix) + ActionRoutes(chain, c, actions[j], prefix)
  {
    assert actions[..j + 1][..j] == actions[..j];
  }

  /** One more child module appends its routes. */
  lemma ModulesStep(chain: seq<ModuleDescriptor>, ms: seq<ModuleDescriptor>, segs: seq<Segment>, i: nat)
    requires i < |ms|
    ensures ModulesAsWritten(chain, ms[..i + 1], segs) == ModulesAsWritten(chain, ms[..i], segs) + ChildAsWritten(chain, ms[i], segs)
  {
    assert ms[..i + 1][..i] == ms[..i];
  }

  /** An Express router, seen through the calls made on it. */
  class ExpressRouter {
    var registrations: seq<Registration>

    constructor()
      ensures registrations == []
    {
      registrations := [];
    }

    /** `router.use(path, express.static(directory))`. */
    method Use(path: string, directory: string)
      modifies this`registrations
      ensures registrations == old(registrations) + [StaticUse(path, directory)]
    {
      registrations := registrations + [StaticUse(path, directory)];
    }

    /** `router[verb](path, handler)`. */
    method Route(verb: HttpMethod, path: string, handler: Handler)
      modifies this`registrations
      ensures registrations == old(registrations) + [MethodRoute(verb, path, handler)]
    {
      registrations := registrations + [MethodRoute(verb, path, handler)];
    }
  }

  /** A JavaScript array of path segments, shared by reference. */
  class SegmentArray {
    var items: seq<Segment>

    constructor(items: seq<Segment>)
      ensures this.items == items
    {
      this.items := items;
    }

    /** `pop()`: drops the last element; an empty array stays empty. */
    method Pop()
      modifies this`items
      ensures items == PoppedN(old(items), 1)
    {
      if |items| > 0 {
        items := items[..|items| - 1];
      }
    }
  }

  /** The static-file loop of `processControllers`: one mount per directory, in order. */
  method MountStatic(router: ExpressRouter, routePath: string, files: seq<string>)
    modifies router`registrations
    ensures router.registrations == old(router.registrations) + StaticUses(routePath, files)
  {
    ghost var start := router.registrations;
    var k := 0;
    while k < |files|
      invariant 0 <= k <= |files|
      invariant router.registrations == start + StaticUses(routePath, files[..k])
    {
      router.Use(routePath, files[k]);
      AppendAssoc(start, StaticUses(routePath, files[..k]), [StaticUse(routePath, files[k])]);
      assert StaticUses(routePath, files[..k + 1]) == StaticUses(routePath, files[..k]) + [StaticUse(routePath, files[k])];
      k := k + 1;
    }
    assert files[..k] == files;
  }

  /**
   * `processControllers(controllers, moduleDescriptors, pathSegments)`: for
   * each controller in order, every action at the route path of the
   * current `pathSegments`, the controller's path and the action's path; a
   * static-file action mounts each of its directories there, any other is
   * routed under its method at `/` plus that path. `pathSegments` is popped
   * once after each controller.
   */
  method ProcessControllers(router: ExpressRouter, controllers: seq<ControllerDescriptor>,
                            chain: seq<ModuleDescriptor>, pathSegments: SegmentArray)
    modifies router`registrations, pathSegments`items
    ensures router.registrations == old(router.registrations) + ControllersAsWritten(chain, controllers, old(pathSegments.items))
    ensures pathSegments.items == PoppedN(old(pathSegments.items), |controllers|)
  {
    ghost var start := router.registrations;
    ghost var segs := pathSegments.items;
    var i := 0;
    while i < |controllers|
      invariant 0 <= i <= |controllers|
      invariant router.registrations == start + ControllersAsWritten(chain, controllers[..i], segs)
      invariant pathSegments.items == PoppedN(segs, i)
    {
      var c := controllers[i];
      var controllerSegments := pathSegments.items + [c.path];
      ghost var before := router.registrations;
      var j := 0;
      while j < |c.actions|
        invariant 0 <= j <= |c.actions|
        invariant pathSegments.items == PoppedN(segs, i)
        invariant router.registrations == before + ActionsRoutes(chain, c, c.actions[..j], controllerSegments)
      {
        var a := c.actions[j];
        var routePath := RoutePath(controllerSegments + [a.path]);
        ghost var mid := router.registrations;
        match a.staticFiles {
          case Some(files) =>
            MountStatic(router, routePath, files);
          case None =>
            router.Route(a.verb, "/" + routePath, Handler(chain, c, a));
        }
        assert router.registrations == mid + ActionRoutes(chain, c, a, controllerSegments);
        ActionsStep(chain, c, c.actions, controllerSegments, j);
        AppendAssoc(before, ActionsRoutes(chain, c, c.actions[..j], controllerSegments), ActionRoutes(chain, c, a, controllerSegments));
        j := j + 1;
      }
      assert c.actions[..j] == c.actions;
      pathSegments.Pop();
      PopOnceMore(segs, i);
      ControllersStep(chain, controllers, segs, i);
      AppendAssoc(start, ControllersAsWritten(chain, controllers[..i], segs), ActionsRoutes(chain, c, c.actions, controllerSegments));
      i := i + 1;
    }
    assert controllers[..i] == controllers;
  }

  /**
   * `processModules(modules, moduleDescriptors, pathSegments)`: for each
   * child in order, a new array of `pathSegments` plus the child's path,
   * handed to the child's controllers and then, after their pops, to its
   * child modules.
   */
  method ProcessModules(router: ExpressRouter, modules: seq<ModuleDescriptor>,
                        chain: seq<ModuleDescriptor>, pathSegments: SegmentArray)
    modifies router`registrations
    decreases modules
    ensures router.registrations == old(router.registrations) + ModulesAsWritten(chain, modules, pathSegments.items)
  {
    ghost var start := router.registrations;
    var i := 0;
    while i < |modules|
      invariant 0 <= i <= |modules|
      invariant router.registrations == start + ModulesAsWritten(chain, modules[..i], pathSegments.items)
    {
      var child := modules[i];
      ghost var before := router.registrations;
      var modulePathSegments := new SegmentArray(pathSegments.items + [child.path]);
      ghost var own := modulePathSegments.items;
      ProcessControllers(router, child.controllers, chain + [child], modulePathSegments);
      ghost var middle := router.registrations;
      assert modules decreases to child.modules;
      ProcessModules(router, child.modules, chain + [child], modulePathSegments);
      AppendAssoc(before, ControllersAsWritten(chain + [child], child.controllers, own),
                  ModulesAsWritten(chain + [child], child.modules, PoppedN(own, |child.controllers|)));
      ModulesStep(chain, modules, pathSegments.items, i);
      AppendAssoc(start, ModulesAsWritten(chain, modules[..i], pathSegments.items), ChildAsWritten(chain, child, pathSegments.items));
      i := i + 1;
    }
    assert modules[..i] == modules;
  }

  /**
   * `bootstrapExpress(router, module)`: the root's controllers on the array
   * `[root.path]`, then its child modules on that same array.
   */
  method BootstrapExpress(router: ExpressRouter, root: ModuleDescriptor)
    modifies router`registrations
    ensures router.registrations == old(router.registrations) + BootstrapAsWritten(root)
  {
    var pathSegments := new SegmentArray([root.path]);
    ProcessControllers(router, root.controllers, [root], pathSegments);
    ProcessModules(router, root.modules, [root], pathSegments);
  }
}
