/**
 * The API's memoising service injector: `get` builds a service once,
 * resolving its declared dependencies first, and hands out the stored
 * instance from then on.
 */
module ServiceInjector {
  import opened Wrappers

  /** A class, by identity. */
  type ServiceClass = nat

  /**
   * The service descriptors: each service class with the classes its
   * constructor takes, in order. A class without an entry is not a service.
   */
  type Descriptors = map<ServiceClass, seq<ServiceClass>>

  /**
   * The dependency map is acyclic: numbering classes in dependency order,
   * every service depends only on classes numbered below it.
   */
  predicate DepsBelow(ds: Descriptors) {
    forall c, k :: c in ds && 0 <= k < |ds[c]| ==> ds[c][k] < c
  }

  /** `Could not inject <name>, not a service`. */
  datatype InjectError = NotAService(service: ServiceClass)

  /** An object built by `new service(...services)`. */
  class ServiceInstance {
    const cls: ServiceClass
    const args: seq<ServiceInstance>

    constructor(cls: ServiceClass, args: seq<ServiceInstance>)
      ensures this.cls == cls && this.args == args
    {
      this.cls := cls;
      this.args := args;
    }
  }

  /**
   * The first class that is not a service met while resolving `c`
   * depth-first in declaration order, if any.
   */
  function Missing(ds: Descriptors, c: ServiceClass): Option<ServiceClass>
    requires DepsBelow(ds)
    decreases c, 1
  {
    if c !in ds then Some(c) else MissingIn(ds, ds[c], c)
  }

  /** The first class that is not a service met while resolving `list` in order. */
  function MissingIn(ds: Descriptors, list: seq<ServiceClass>, bound: ServiceClass): Option<ServiceClass>
    requires DepsBelow(ds)
    requires forall k :: 0 <= k < |list| ==> list[k] < bound
    decreases bound, 0, |list|
  {
    if |list| == 0 then None
    else match MissingIn(ds, list[..|list| - 1], bound)
      case Some(m) => Some(m)
      case None => Missing(ds, list[|list| - 1])
  }

  /** Once a prefix of the list has a missing class, so does the whole list. */
  lemma {:induction false} MissingInPrefix(ds: Descriptors, list: seq<ServiceClass>, bound: ServiceClass, i: nat)
    requires DepsBelow(ds)
    requires forall k :: 0 <= k < |list| ==> list[k] < bound
    requires i <= |list| && MissingIn(ds, list[..i], bound).Some?
    ensures MissingIn(ds, list, bound) == MissingIn(ds, list[..i], bound)
  {
    if i < |list| {
      var n := |list| - 1;
      assert list[..n][..i] == list[..i];
      MissingInPrefix(ds, list[..n], bound, i);
    } else {
      assert list[..i] == list;
    }
  }

  /**
   * The stored instances are consistent: each was built for its own class,
   * a service, from the stored instances of its dependencies.
   */
  predicate CacheOK(ds: Descriptors, m: map<ServiceClass, ServiceInstance>) {
    forall c :: c in m ==>
      && c in ds && m[c].cls == c && |m[c].args| == |ds[c]|
      && forall k :: 0 <= k < |ds[c]| ==> ds[c][k] in m && m[c].args[k] == m[ds[c][k]]
  }

  /** A stored service resolves without meeting a missing class. */
  lemma {:induction false} CachedNotMissing(ds: Descriptors, m: map<ServiceClass, ServiceInstance>, c: ServiceClass)
    requires DepsBelow(ds) && CacheOK(ds, m) && c in m
    decreases c, 1
    ensures Missing(ds, c) == None
  {
    CachedListNotMissing(ds, m, ds[c], c);
  }

  lemma {:induction false} CachedListNotMissing(ds: Descriptors, m: map<ServiceClass, ServiceInstance>,
                                                list: seq<ServiceClass>, bound: ServiceClass)
    requires DepsBelow(ds) && CacheOK(ds, m)
    requires forall k :: 0 <= k < |list| ==> list[k] < bound && list[k] in m
    decreases bound, 0, |list|
    ensures MissingIn(ds, list, bound) == None
  {
    if |list| > 0 {
      CachedListNotMissing(ds, m, list[..|list| - 1], bound);
      CachedNotMissing(ds, m, list[|list| - 1]);
    }
  }

  /**
   * The classes resolving `c` reaches: `c` itself and, for a service, the
   * classes its dependencies reach.
   */
  ghost function Closure(ds: Descriptors, c: ServiceClass): set<ServiceClass>
    requires DepsBelow(ds)
    decreases c, 1
  {
    if c !in ds then {c} else {c} + ClosureIn(ds, ds[c], c)
  }

  /** The classes resolving each class of `list` reaches. */
  ghost function ClosureIn(ds: Descriptors, list: seq<ServiceClass>, bound: ServiceClass): set<ServiceClass>
    requires DepsBelow(ds)
    requires forall k :: 0 <= k < |list| ==> list[k] < bound
    decreases bound, 0, |list|
  {
    if |list| == 0 then {}
    else ClosureIn(ds, list[..|list| - 1], bound) + Closure(ds, list[|list| - 1])
  }

  /** A prefix of the list reaches no more classes than the whole list. */
  lemma {:induction false} ClosureInPrefix(ds: Descriptors, list: seq<ServiceClass>, bound: ServiceClass, i: nat)
    requires DepsBelow(ds)
    requires forall k :: 0 <= k < |list| ==> list[k] < bound
    requires i <= |list|
    ensures ClosureIn(ds, list[..i], bound) <= ClosureIn(ds, list, bound)
  {
    if i < |list| {
      var n := |list| - 1;
      assert list[..n][..i] == list[..i];
      ClosureInPrefix(ds, list[..n], bound, i);
    } else {
      assert list[..i] == list;
    }
  }

  /** `m2` keeps every entry of `m1`, and adds only classes up to `bound`. */
  predicate GrowsBelow(m1: map<ServiceClass, ServiceInstance>, m2: map<ServiceClass, ServiceInstance>, bound: ServiceClass) {
    && (forall c :: c in m1 ==> c in m2 && m2[c] == m1[c])
    && (forall c :: c in m2 && c !in m1 ==> c <= bound)
  }

  class Injector {
    /** `Service.descriptor(...).services` for every class. */
    const descriptors: Descriptors
    /** `serviceMap`: the instances built so far. */
    var serviceMap: map<ServiceClass, ServiceInstance>

    ghost predicate Valid()
      reads this`serviceMap
    {
      DepsBelow(descriptors) && CacheOK(descriptors, serviceMap)
    }

    constructor(descriptors: Descriptors)
      requires DepsBelow(descriptors)
      ensures Valid() && this.descriptors == descriptors && serviceMap == map[]
    {
      this.descriptors := descriptors;
      serviceMap := map[];
    }

    /**
     * `get(service)`: throws for a class that is not a service; returns the
     * stored instance if there is one; otherwise builds, stores and returns
     * a new one. It fails exactly when resolution meets a class that is not
     * a service, and reports the first such class.
     */
    method Get(service: ServiceClass) returns (r: Result<ServiceInstance, InjectError>)
      requires Valid()
      modifies this`serviceMap
      decreases service, 1
      ensures Valid()
      ensures GrowsBelow(old(serviceMap), serviceMap, service)
      ensures forall c :: c in serviceMap && c !in old(serviceMap) ==> c in Closure(descriptors, service)
      ensures r.Err? <==> Missing(descriptors, service).Some?
      ensures r.Err? ==> r.error == NotAService(Missing(descriptors, service).value)
      ensures service !in descriptors ==> serviceMap == old(serviceMap)
      ensures service in old(serviceMap) ==> r == Ok(old(serviceMap)[service]) && serviceMap == old(serviceMap)
      ensures r.Ok? ==> service in serviceMap && serviceMap[service] == r.value
      ensures r.Ok? && service !in old(serviceMap) ==> fresh(r.value)
    {
      if service !in descriptors {
        return Err(NotAService(service));
      }
      if service in serviceMap {
        CachedNotMissing(descriptors, serviceMap, service);
        return Ok(serviceMap[service]);
      }
      r := InstantiateService(service);
      if r.Ok? {
        serviceMap := serviceMap[service := r.value];
      }
    }

    /**
     * `instantiateService(service)`: resolves the declared dependencies
     * with `get`, in order, and passes them to the constructor.
     */
    method InstantiateService(service: ServiceClass) returns (r: Result<ServiceInstance, InjectError>)
      requires Valid() && service in descriptors && service !in serviceMap
      modifies this`serviceMap
      decreases service, 0
      ensures Valid() && service !in serviceMap
      ensures GrowsBelow(old(serviceMap), serviceMap, service)
      ensures forall c :: c in serviceMap && c !in old(serviceMap) ==> c in ClosureIn(descriptors, descriptors[service], service)
      ensures r.Err? <==> MissingIn(descriptors, descriptors[service], service).Some?
      ensures r.Err? ==> r.error == NotAService(MissingIn(descriptors, descriptors[service], service).value)
      ensures r.Ok? ==>
        && fresh(r.value) && r.value.cls == service && |r.value.args| == |descriptors[service]|
        && forall k :: 0 <= k < |descriptors[service]| ==>
             descriptors[service][k] in serviceMap && r.value.args[k] == serviceMap[descriptors[service][k]]
    {
      var deps := descriptors[service];
      var args: seq<ServiceInstance> := [];
      var i := 0;
      while i < |deps|
        invariant 0 <= i <= |deps|
        invariant Valid() && service !in serviceMap
        invariant GrowsBelow(old(serviceMap), serviceMap, service)
        invariant forall c :: c in serviceMap && c !in old(serviceMap) ==> c in ClosureIn(descriptors, deps[..i], service)
        invariant MissingIn(descriptors, deps[..i], service) == None
        invariant |args| == i
        invariant forall k :: 0 <= k < i ==> deps[k] in serviceMap && args[k] == serviceMap[deps[k]]
      {
        var d := Get(deps[i]);
        assert deps[..i + 1][..i] == deps[..i];
        assert ClosureIn(descriptors, deps[..i + 1], service)
            == ClosureIn(descriptors, deps[..i], service) + Closure(descriptors, deps[i]);
        if d.Err? {
          MissingInPrefix(descriptors, deps, service, i + 1);
          ClosureInPrefix(descriptors, deps, service, i + 1);
          return Err(d.error);
        }
        args := args + [d.value];
        i := i + 1;
      }
      assert deps[..i] == deps;
      var obj := new ServiceInstance(service, args);
      r := Ok(obj);
    }
  }

  /**
   * Two services that share a dependency were built with the very same
   * instance of it.
   */
  lemma SharedDependency(ds: Descriptors, m: map<ServiceClass, ServiceInstance>,
                         a: ServiceClass, i: nat, b: ServiceClass, j: nat)
    requires CacheOK(ds, m) && a in m && b in m
    requires i < |ds[a]| && j < |ds[b]| && ds[a][i] == ds[b][j]
    ensures m[a].args[i] == m[b].args[j]
  {
  }
}
