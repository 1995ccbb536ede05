/**
 * The mapper's registry: databases by identifier, and for each Document
 * class the locator of the collection it is stored in; plus the query
 * factories, which resolve a locator and touch no store.
 */
module Orm {
  import opened Wrappers
  import opened Values
  import opened Schema
  import opened Filter
  import opened MongoStore

  /** A registered database connection, naming its database on the server. */
  datatype Database = Database(name: string)

  /** Where a Document class is stored. */
  datatype Locator = Locator(databaseName: string, collectionName: string, collection: CollectionKey)

  /** The optional `{ databaseName, collectionName }` argument of `registerDocument`. */
  datatype LocatorParams = LocatorParams(databaseName: Option<string>, collectionName: Option<string>)

  type Documents = map<ClassId, Locator>

  /** Some registered class is already mapped to collection `coll` of database `db`. */
  predicate PairInUse(documents: Documents, db: string, coll: string) {
    exists m :: m in documents && documents[m].databaseName == db && documents[m].collectionName == coll
  }

  /** No two classes share a (database, collection) pair. */
  predicate OneModelPerCollection(documents: Documents) {
    forall m1, m2 :: m1 in documents && m2 in documents && m1 != m2 ==>
      documents[m1].databaseName != documents[m2].databaseName ||
      documents[m1].collectionName != documents[m2].collectionName
  }

  /** `params?.databaseName ?? 'default'`. */
  function DatabaseNameOf(params: LocatorParams): string {
    params.databaseName.GetOr("default")
  }

  /** `params?.collectionName ?? camelize(pluralize(model.name))`, the naming function given. */
  function CollectionNameOf(params: LocatorParams, modelName: string, plural: string -> string): string {
    params.collectionName.GetOr(plural(modelName))
  }

  /** The registry after `registerDocument(model, params)`, or the exception it throws. */
  function Registered(u: Universe, plural: string -> string, databases: map<string, Database>,
                      documents: Documents, model: ClassId, params: LocatorParams): Result<Documents, OrmError>
    requires model in u
  {
    if !u[model].extendsDocument then Err(NotADocument(u[model].name))
    else
      var db := DatabaseNameOf(params);
      var coll := CollectionNameOf(params, u[model].name, plural);
      if PairInUse(documents, db, coll) then Err(CollectionInUse(coll, db))
      else if db !in databases then Err(UnknownDatabase(u[model].name, db))
      else Ok(documents[model := Locator(db, coll, CollectionKey(databases[db].name, coll))])
  }

  /** Registration keeps every (database, collection) pair mapped to at most one class. */
  lemma RegisterKeepsOneModelPerCollection(u: Universe, plural: string -> string, databases: map<string, Database>,
                                           documents: Documents, model: ClassId, params: LocatorParams)
    requires model in u && OneModelPerCollection(documents)
    ensures Registered(u, plural, databases, documents, model, params).Ok? ==>
      OneModelPerCollection(Registered(u, plural, databases, documents, model, params).value)
  {
    var r := Registered(u, plural, databases, documents, model, params);
    if r.Ok? {
      var db, coll := DatabaseNameOf(params), CollectionNameOf(params, u[model].name, plural);
      assert !PairInUse(documents, db, coll);
    }
  }

  /**
   * The failure conditions, in the order they are checked: not a Document;
   * the pair already in use (before the database is looked up); the
   * database not registered. Success changes exactly the entry of `model`.
   */
  lemma RegisterOutcomes(u: Universe, plural: string -> string, databases: map<string, Database>,
                         documents: Documents, model: ClassId, params: LocatorParams)
    requires model in u
    ensures var r := Registered(u, plural, databases, documents, model, params);
      var db := DatabaseNameOf(params);
      var coll := CollectionNameOf(params, u[model].name, plural);
      && (!u[model].extendsDocument ==> r == Err(NotADocument(u[model].name)))
      && (u[model].extendsDocument && PairInUse(documents, db, coll) ==> r == Err(CollectionInUse(coll, db)))
      && (u[model].extendsDocument && !PairInUse(documents, db, coll) && db !in databases ==>
            r == Err(UnknownDatabase(u[model].name, db)))
      && (r.Ok? <==> u[model].extendsDocument && !PairInUse(documents, db, coll) && db in databases)
      && (r.Ok? ==>
            && r.value.Keys == documents.Keys + {model}
            && r.value[model] == Locator(db, coll, CollectionKey(databases[db].name, coll))
            && forall m :: m in documents && m != model ==> r.value[m] == documents[m])
  {
  }

  /** Without parameters a class goes to database `'default'`, in the collection its naming function gives. */
  lemma RegisterDefaults(u: Universe, plural: string -> string, databases: map<string, Database>,
                         documents: Documents, model: ClassId)
    requires model in u
    ensures var r := Registered(u, plural, databases, documents, model, LocatorParams(None, None));
      r.Ok? ==> r.value[model].databaseName == "default" && r.value[model].collectionName == plural(u[model].name)
  {
  }

  /** Registering a class again onto the pair it already has fails: the existing check sees its own entry. */
  lemma ReRegisterSamePairFails(u: Universe, plural: string -> string, databases: map<string, Database>,
                                documents: Documents, model: ClassId, params: LocatorParams)
    requires model in u && u[model].extendsDocument && model in documents
    requires documents[model].databaseName == DatabaseNameOf(params)
    requires documents[model].collectionName == CollectionNameOf(params, u[model].name, plural)
    ensures Registered(u, plural, databases, documents, model, params).Err?
  {
    assert PairInUse(documents, documents[model].databaseName, documents[model].collectionName);
  }

  /** The class whose locator serves `view`: the underlying model of a View, the class itself otherwise. */
  function ResolvedModel(u: Universe, view: ClassId): (m: ClassId)
    requires WellFormed(u) && view in u
    ensures m in u
  {
    assert WellFormedClass(u, view);
    match u[view].viewOf
    case Some(model) => model
    case None => view
  }

  /**
   * What `getLocator(view)` answers: the registered entry of the view's
   * model, found iff that model is registered, and otherwise the error
   * naming the view and the model.
   */
  predicate LocatorLookup(u: Universe, documents: Documents, view: ClassId, r: Result<Locator, OrmError>)
    requires WellFormed(u) && view in u
  {
    && (r.Ok? <==> ResolvedModel(u, view) in documents)
    && (r.Ok? ==> r.value == documents[ResolvedModel(u, view)])
    && (r.Err? ==> r.error == NotRegistered(u[view].name, u[ResolvedModel(u, view)].name))
  }

  /** `getLocator(view)` over a registry. */
  function LocatorOf(u: Universe, documents: Documents, view: ClassId): (r: Result<Locator, OrmError>)
    requires WellFormed(u) && view in u
    ensures LocatorLookup(u, documents, view, r)
  {
    var model := ResolvedModel(u, view);
    if model in documents then Ok(documents[model])
    else Err(NotRegistered(u[view].name, u[model].name))
  }

  /** What a query factory was asked for. */
  datatype QueryArgs =
    | InsertArgs(item: Record)
    | RetrieveArgs(id: string)
    | LookupArgs(lookupFilter: FilterCriteria)
    | UpdateArgs(updateId: string, updateItem: Record)
    | ListArgs(listFilter: FilterCriteria)
    | DeleteArgs(deleteId: string)

  /** A query object: the class, the collection its locator names, and the arguments. */
  datatype Query = Query(model: ClassId, collection: CollectionKey, args: QueryArgs)

  class Orm {
    /** The described classes. */
    const universe: Universe
    /** `camelize(pluralize(name))`. */
    const plural: string -> string

    var databases: map<string, Database>
    var documents: Documents

    ghost predicate Valid()
      reads this
    {
      && WellFormed(universe)
      && OneModelPerCollection(documents)
      && forall m :: m in documents ==> m in universe && universe[m].extendsDocument
    }

    constructor(universe: Universe, plural: string -> string)
      requires WellFormed(universe)
      ensures Valid()
      ensures this.universe == universe && this.plural == plural
      ensures databases == map[] && documents == map[]
    {
      this.universe := universe;
      this.plural := plural;
      databases := map[];
      documents := map[];
    }

    /** `registerDatabase(identifier, database)`: sets or replaces one entry. */
    method RegisterDatabase(identifier: string, database: Database)
      requires Valid()
      modifies this`databases
      ensures Valid()
      ensures databases == old(databases)[identifier := database]
    {
      databases := databases[identifier := database];
    }

    /** `registerDocument(model, params)`; a failure leaves the registry as it was. */
    method RegisterDocument(model: ClassId, params: LocatorParams) returns (r: Outcome<OrmError>)
      requires Valid() && model in universe
      modifies this`documents
      ensures Valid()
      ensures var next := Registered(universe, plural, databases, old(documents), model, params);
        match next
        case Ok(d) => r == Pass && documents == d
        case Err(e) => r == Fail(e) && documents == old(documents)
    {
      if !universe[model].extendsDocument {
        return Fail(NotADocument(universe[model].name));
      }
      var databaseName := DatabaseNameOf(params);
      var collectionName := CollectionNameOf(params, universe[model].name, plural);
      var existing := PairInUse(documents, databaseName, collectionName);
      if existing {
        return Fail(CollectionInUse(collectionName, databaseName));
      }
      if databaseName !in databases {
        return Fail(UnknownDatabase(universe[model].name, databaseName));
      }
      var collection := CollectionKey(databases[databaseName].name, collectionName);
      RegisterKeepsOneModelPerCollection(universe, plural, databases, documents, model, params);
      documents := documents[model := Locator(databaseName, collectionName, collection)];
      r := Pass;
    }

    /** `getLocator(view)`. */
    function GetLocator(view: ClassId): (r: Result<Locator, OrmError>)
      reads this
      requires Valid() && view in universe
      ensures LocatorLookup(universe, documents, view, r)
    {
      LocatorOf(universe, documents, view)
    }

    /**
     * `insert`, `retrieve`, `lookup`, `update`, `list` and `delete`: each
     * resolves the locator first, fails exactly when that fails, and
     * otherwise builds a query on the locator's collection.
     */
    function Open(model: ClassId, args: QueryArgs): (r: Result<Query, OrmError>)
      reads this
      requires Valid() && model in universe
      ensures r.Ok? <==> ResolvedModel(universe, model) in documents
      ensures r.Ok? ==> r.value == Query(model, documents[ResolvedModel(universe, model)].collection, args)
      ensures r.Err? ==> r == Err(GetLocator(model).error)
    {
      var locator :- GetLocator(model);
      Ok(Query(model, locator.collection, args))
    }
  }
}
