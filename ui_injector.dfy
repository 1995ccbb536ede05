/**
 * The UI's hierarchical dependency injector: each injector has its own
 * providers and cached instances and falls back on its parent.
 */
module UiInjector {
  import opened Wrappers
  import opened Values

  /** A class used as an injection token. */
  type Token = nat

  /** An object built by `new useClass()`. */
  class Instance {
    const cls: Token

    constructor(cls: Token)
      ensures this.cls == cls
    {
      this.cls := cls;
    }
  }

  /** `{ useClass }` or `{ useValue }`. */
  datatype Provider = UseClass(cls: Token) | UseValue(value: Value)

  /** What `get` hands out: a built instance or a provided value. */
  datatype Resolved = Made(obj: Instance) | Given(value: Value)

  /** The provider `provide(token, value)` registers; a falsy value means the class itself. */
  function ProviderFor(token: Token, value: Value): (p: Provider)
    ensures p.UseValue? <==> Truthy(value)
    ensures p.UseValue? ==> p.value == value
    ensures p.UseClass? ==> p.cls == token
  {
    if Truthy(value) then UseValue(value) else UseClass(token)
  }

  /** Whether `get` can answer from these maps: a cached instance or a usable provider. */
  predicate ServesFrom(instances: map<Token, Resolved>, providers: map<Token, Provider>, token: Token) {
    || token in instances
    || (token in providers && (providers[token].UseClass? || Truthy(providers[token].value)))
  }

  /**
   * `v` is what an injector that serves `token` from these maps answers:
   * the cached instance, else the provided value, else a new instance of
   * the provided class.
   */
  ghost predicate Resolves(instances: map<Token, Resolved>, providers: map<Token, Provider>, token: Token, v: Resolved)
    requires ServesFrom(instances, providers, token)
  {
    if token in instances then v == instances[token]
    else match providers[token]
      case UseValue(x) => v == Given(x)
      case UseClass(c) => v.Made? && v.obj.cls == c
  }

  class Injector {
    /** The enclosing injector, fixed at construction. */
    const parent: Injector?
    ghost const depth: nat
    ghost const ancestors: set<Injector>

    var instances: map<Token, Resolved>
    var providers: map<Token, Provider>

    /** The parent chain is finite and `ancestors` lists it. */
    ghost predicate ChainOK()
      decreases depth
    {
      && (parent == null ==> ancestors == {} && depth == 0)
      && (parent != null ==>
            && depth == parent.depth + 1
            && ancestors == parent.ancestors + {parent}
            && parent.ChainOK())
      && (forall a :: a in ancestors ==> a.depth < depth)
    }

    constructor(parent: Injector?)
      requires parent != null ==> parent.ChainOK()
      ensures ChainOK() && this.parent == parent
      ensures instances == map[] && providers == map[]
    {
      this.parent := parent;
      depth := if parent == null then 0 else parent.depth + 1;
      ancestors := if parent == null then {} else parent.ancestors + {parent};
      instances := map[];
      providers := map[];
    }

    /** `provide(token, value)`, with `Undefined` for an omitted value. */
    method Provide(token: Token, value: Value)
      modifies this`providers
      ensures providers == old(providers)[token := ProviderFor(token, value)]
      ensures ServesFrom(instances, providers, token)
    {
      var p := if Truthy(value) then UseValue(value) else UseClass(token);
      providers := providers[token := p];
    }

    ghost predicate Serves(token: Token)
      reads this`instances, this`providers
    {
      ServesFrom(instances, providers, token)
    }

    /** The nearest injector up the chain, starting here, that serves `token`. */
    ghost function Owner(token: Token): (r: Option<Injector>)
      reads this`instances, this`providers, ancestors`instances, ancestors`providers
      requires ChainOK()
      decreases depth
      ensures r.Some? ==> (r.value == this || r.value in ancestors) && r.value.Serves(token)
      ensures r.Some? ==> forall y :: y in ancestors + {this} && y.depth > r.value.depth ==> !y.Serves(token)
      ensures r.None? <==> forall y :: y in ancestors + {this} ==> !y.Serves(token)
    {
      if Serves(token) then Some(this)
      else if parent == null then None
      else parent.Owner(token)
    }

    /**
     * `get(token)`: the owner of `token` answers and caches the answer
     * (a cached instance is returned as is, and no provider is consulted);
     * every other injector on the chain is left as it was. With no owner
     * the answer is `undefined` (`None`) and nothing changes.
     */
    method Get(token: Token) returns (r: Option<Resolved>)
      requires ChainOK()
      modifies this`instances, ancestors`instances
      decreases depth
      ensures old(Owner(token)).None? ==> r == None
      ensures old(Owner(token)).Some? ==>
        var x := old(Owner(token)).value;
        && r.Some?
        && Resolves(old(x.instances), old(x.providers), token, r.value)
        && x.instances == old(x.instances)[token := r.value]
        && (r.value.Made? && token !in old(x.instances) ==> fresh(r.value.obj))
      ensures forall y :: y in ancestors + {this} && Some(y) != old(Owner(token)) ==> y.instances == old(y.instances)
    {
      if token in instances {
        return Some(instances[token]);
      }
      if token in providers {
        var p := providers[token];
        if p.UseValue? && Truthy(p.value) {
          instances := instances[token := Given(p.value)];
          return Some(Given(p.value));
        }
        if p.UseClass? {
          var obj := new Instance(p.cls);
          instances := instances[token := Made(obj)];
          return Some(Made(obj));
        }
      }
      if parent == null {
        return None;
      }
      r := parent.Get(token);
    }

    /** The injector at the top of the chain. */
    ghost function TopOf(): (r: Injector)
      requires ChainOK()
      decreases depth
      ensures r.parent == null && (r == this || r in ancestors)
    {
      if parent == null then this else parent.TopOf()
    }

    /** `root()`: walks up the parent links to the injector that has none. */
    method Root() returns (r: Injector)
      requires ChainOK()
      ensures r == TopOf()
      ensures r.parent == null && (r == this || r in ancestors)
    {
      r := this;
      while r.parent != null
        invariant r.ChainOK() && r.TopOf() == TopOf()
        decreases r.depth
      {
        r := r.parent;
      }
    }
  }

  /**
   * After `get` succeeds, the answer is cached at its owner, which still
   * serves the token: a second `get` finds the same answer in the cache.
   */
  lemma CachedAnswerStays(instances: map<Token, Resolved>, providers: map<Token, Provider>, token: Token, v: Resolved)
    requires ServesFrom(instances, providers, token)
    requires Resolves(instances, providers, token, v)
    ensures ServesFrom(instances[token := v], providers, token)
    ensures Resolves(instances[token := v], providers, token, v)
  {
  }
}
