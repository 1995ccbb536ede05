# project-zed core, modelled in Dafny

This project models the deterministic core of the project-zed monorepo and proves properties about it.

The main part is the document-mapping ORM in `libs/agape/orm`:

- **Filter compiler.** `selectCriteriaFromFilterCriteria` turns a `field` / `field__op` filter into a Mongo-style selector. It renames the primary key to `_id`, coerces ids to ObjectIds, rejects searches on the primary key and unknown operators, and combines the clauses.
- **`itemToRecord`.** The write-side coercion of an item into a stored record.
- **`documentAndViewFromModelParam`.** Splits a model argument into its document and view classes.
- **Locator registry.** `Orm.registerDatabase`, `Orm.registerDocument`, `Orm.getLocator` and the query factories.
- **Read paths.** `RetrieveQuery.exec`, `LookupQuery.exec` and `ListQuery.exec`: the projection, the field-by-field mapping of records, recursive retrieval of references, and the batched reference resolution of the list query.
- **Batched resolution agrees with retrieval** (module `ListResolution`). On a consistent store, every reference the list query resolves through its one batched call per field is exactly what retrieving that id would give. The proof is by induction on the class number.

The smaller stateful cores are:

- **Demo test runner** (`TestSuite`, `TestCase`). Its status state machine, registration calls, inherited `interactive` flag and test names.
- **UI injector.** A hierarchical injector with providers, a cache, delegation to the parent, and a root walk.
- **UI router.** An append-only route table searched by exact path.
- **API service injector.** Memoised, recursive dependency instantiation.
- **Express bootstrap.** Derives route registrations from a module/controller/action tree.

Each source function that computes a value is a Dafny `function`. Each loop is a `method` proved equal to a specification function, and the specification function's properties are proved as lemmas. Objects whose fields change in place are classes: `Orm`, `TestSuite`, `TestCase`, both injectors, the UI `Router`, the Express router and the shared path-segment array. Their methods carry `modifies` clauses.

Modelling choices:

- **The MongoDB store** is a value: a map from collection to documents, and an uninterpreted pattern test. Only `find` and `findOne` are modelled.
- **ObjectId.** `new ObjectId(x)` accepts a 24-digit hex string, case-insensitively. For a value that is not a string, the identifier it would generate is a parameter (`drawn`).
- **Classes and their descriptors** are a `Universe`: class numbers mapped to field lists. A Document-typed field refers only to a class declared before its own, so reference chains are finite.
- **A service's dependencies** are likewise declared before the service.

The code is followed where other descriptions of the system differ:

- `nin` is rejected as an invalid operator, because the compiler has no branch for it.
- A View passed to `registerDocument` is accepted, because only Document inheritance is checked.

## Model

| member | source | states |
|---|---|---|
| Values.NewObjectId | libs/agape/orm/src/lib/orm.ts:198-203 | a string becomes an identifier iff it is 24 hex digits, and then it is the canonical (lower-case) identifier; every rejection is `InvalidObjectId` of the value |
| Values.IdRoundTrip | libs/agape/orm/src/lib/orm.ts:212 | the `$toString` form of a stored identifier parses back to that identifier |
| Values.StringIdsAreCaseInsensitive | libs/agape/orm/src/lib/orm.ts:199 | two hex strings differing only in letter case name the same identifier |
| Schema.PrimaryField | libs/agape/orm/src/lib/orm.ts:210 | the field found is a primary field of the class |
| Schema.OtherFields | libs/agape/orm/src/lib/util.ts:134 | exactly the non-primary fields, one per field that is not primary |
| Schema.FieldNamed | libs/agape/orm/src/lib/util.ts:29 | the field found has the name asked for; none is found iff no field has that name |
| MongoStore.Select | libs/agape/orm/src/lib/orm.ts:303-307 | `find` keeps exactly the documents matching every clause of the selector |
| MongoStore.Project | libs/agape/orm/src/lib/orm.ts:224 | a projected document has a key iff the projection asks for it and the document has it; the `$toString` key holds the string of `_id` |
| MongoStore.FindOneIsFirstMatch | libs/agape/orm/src/lib/orm.ts:224 | `findOne` answers the first matching document, projected, and nothing iff no document matches |
| MongoStore.SelectEmpty | libs/agape/orm/src/lib/orm.ts:303-307 | the empty selector returns the whole collection in order |
| Filter.FirstSep | libs/agape/orm/src/lib/util.ts:21 | the position of the first `__` in a key, and none iff the key has no `__` |
| Filter.SplitKeyParts | libs/agape/orm/src/lib/util.ts:21-27 | a key without `__` is the field with operator `eq`; otherwise the field is the text before the first `__` and the operator runs up to the next `__` or the end |
| Filter.Combine | libs/agape/orm/src/lib/util.ts:121-126 | the clauses are kept in order; none gives `{}`, one is unwrapped, two or more are joined under `$and` |
| Filter.SelectCriteriaFromFilterCriteria | libs/agape/orm/src/lib/util.ts:8-130 | the loop over the keys computes `CompileFilter`, whose properties follow |
| Filter.CompileFilterShape | libs/agape/orm/src/lib/util.ts:14-126 | an absent filter compiles to `{}`; a present one compiles iff every entry does, with one clause per entry in key order and the selector shape fixed by the count |
| Filter.CompileFilterFirstError | libs/agape/orm/src/lib/util.ts:15-114 | a failing filter throws the exception of its first failing entry |
| Filter.PrimaryIdFilter | libs/agape/orm/src/lib/util.ts:29-43 | `{ [primary]: id }` with a well-formed id selects `_id` equal to that ObjectId |
| Filter.EntryTarget | libs/agape/orm/src/lib/util.ts:29-34 | a compiled entry names a described field, and targets `_id` iff that field is primary |
| Filter.PrimaryEqualityCoerces | libs/agape/orm/src/lib/util.ts:40-43 | `eq`/`ne` on the primary key gives `_id` with `$eq`/`$ne` of the converted ObjectId, or the conversion's error |
| Filter.ReferenceEqualityCoerces | libs/agape/orm/src/lib/util.ts:44-53 | `eq`/`ne` on a Document-typed field converts an id string directly and a record through its primary value; null or undefined is a TypeError |
| Filter.ToOidValuesPointwise | libs/agape/orm/src/lib/util.ts:76 | mapping values to ObjectIds succeeds iff every element converts, and then converts each in place |
| Filter.PrimaryInCoerces | libs/agape/orm/src/lib/util.ts:74-77 | `in` on the primary key succeeds iff every element converts, giving `_id` `$in` the element-wise ObjectIds |
| Filter.UnreferencedFieldsKeepValues | libs/agape/orm/src/lib/util.ts:54-111 | on a field that is not Document-typed, `in` and the comparisons pass the value through; `eq`/`ne` do too unless it is a non-null foreign key, which is converted to an ObjectId |
| Filter.RegexEquality | libs/agape/orm/src/lib/util.ts:66-72 | a RegExp under `eq` on a plain field becomes `$regex`, under `ne` it stays `$ne` |
| Filter.SearchRules | libs/agape/orm/src/lib/util.ts:93-106 | `search`/`searchi` on the primary key throw "Cannot search on primary key"; on other fields they give `$regex`, case-insensitive only for `searchi` |
| Filter.UnknownOperatorRejected | libs/agape/orm/src/lib/util.ts:112-114 | every operator outside eq, ne, in, search, searchi, gt, gte, lt, lte (`nin` included) throws `Invalid operator` naming the operator and key |
| Filter.UnknownFieldRejected | libs/agape/orm/src/lib/util.ts:29 | a key naming no described field throws before its operator is examined |
| Filter.ItemToRecord | libs/agape/orm/src/lib/util.ts:132-166 | the loop over the non-primary fields computes `ItemRecord` |
| Filter.ItemRecordFails | libs/agape/orm/src/lib/util.ts:137-163 | `itemToRecord` throws iff converting some non-primary field throws |
| Filter.ItemRecordKeys | libs/agape/orm/src/lib/util.ts:134-163 | a produced record holds exactly the non-primary fields' names |
| Filter.ItemRecordValues | libs/agape/orm/src/lib/util.ts:137-163 | each non-primary field of a produced record holds that field's stored value |
| Filter.StoredValueCoercion | libs/agape/orm/src/lib/util.ts:138-162 | a non-null Document reference becomes the ObjectId of its primary value, a non-null foreign key its ObjectId, and every other value is copied |
| Filter.DocumentAndView | libs/agape/orm/src/lib/util.ts:168-186 | an array gives its first and second elements (undefined when missing), a class itself twice, and an object its `document` and `view` |
| Orm.RegisterKeepsOneModelPerCollection | libs/agape/orm/src/lib/orm.ts:64-83 | a successful registration keeps every (database, collection) pair mapped to at most one class |
| Orm.RegisterOutcomes | libs/agape/orm/src/lib/orm.ts:55-84 | the failures in order: not a Document, pair in use (before the database lookup), unknown database; success adds or replaces exactly the entry of the class |
| Orm.RegisterDefaults | libs/agape/orm/src/lib/orm.ts:61-62 | without parameters, the database is `'default'` and the collection is the class name pluralised |
| Orm.ReRegisterSamePairFails | libs/agape/orm/src/lib/orm.ts:64-70 | registering a class again onto the pair it already holds throws, because the check sees its own entry |
| Orm.LocatorOf | libs/agape/orm/src/lib/orm.ts:165-182 | meets `LocatorLookup`: a View resolves to its model; the locator is that model's entry, and the lookup fails with the not-registered error iff the model has none |
| Orm.Orm.RegisterDatabase | libs/agape/orm/src/lib/orm.ts:44-46 | sets or replaces exactly one database entry |
| Orm.Orm.RegisterDocument | libs/agape/orm/src/lib/orm.ts:55-84 | the registry becomes `Registered`'s new map, or stays as it was when the call throws; one model per collection is kept |
| Orm.Orm.GetLocator | libs/agape/orm/src/lib/orm.ts:165-182 | the registry's answer meets `LocatorLookup`, the one statement of the lookup that `LocatorOf` also meets: found iff the view's document class is registered, then that class's entry, otherwise the error naming the view and the unregistered document |
| Orm.Orm.Open | libs/agape/orm/src/lib/orm.ts:113-162 | each query factory fails iff the locator lookup fails, with its error, and otherwise builds a query on the locator's collection |
| Queries.BuildProjection | libs/agape/orm/src/lib/orm.ts:208-218 | the key-by-key construction builds `ProjectionOf` |
| Queries.ProjectionShape | libs/agape/orm/src/lib/orm.ts:208-218 | the projection excludes `_id`, asks for the primary field as the string of `_id`, includes every other field, and has no other key |
| Queries.ProjectionPrimary | libs/agape/orm/src/lib/orm.ts:280-290 | the primary field is asked for as the string of `_id` |
| Queries.ParseId | libs/agape/orm/src/lib/orm.ts:198-203 | an id parses iff `new ObjectId` accepts it, and to the same identifier |
| Queries.AssembleFields | libs/agape/orm/src/lib/orm.ts:229-254 | the item is built iff every field's value is; it then holds the primary value and each field's value, and nothing else |
| Queries.MapRecordFields | libs/agape/orm/src/lib/orm.ts:229-254 | mapping succeeds iff each non-primary field maps; the item has exactly the class's fields, the primary one holding the record's value |
| Queries.PlainFieldsMapAlike | libs/agape/orm/src/lib/orm.ts:332-342 | a field that is not a Document reference is mapped the same by the single-record and list paths |
| Queries.RetrieveOutcomes | libs/agape/orm/src/lib/orm.ts:196-227 | a malformed id throws `Invalid record <id>`; otherwise the answer is undefined iff no document has that `_id` |
| Queries.RetrieveFindsById | libs/agape/orm/src/lib/orm.ts:221-230 | a retrieved item holds, under its primary field, the canonical string of the requested id |
| Queries.LookupOutcomes | libs/agape/orm/src/lib/orm.ts:393-455 | a filter that fails to compile throws its error; otherwise the answer is undefined iff nothing matches, else the first match mapped |
| Queries.LookupByPrimaryIsRetrieve | libs/agape/orm/src/lib/orm.ts:415-422 | a lookup by primary key with a well-formed id answers as retrieve does |
| Queries.AddRefSpec | libs/agape/orm/src/lib/orm.ts:325-326 | adding an id keeps names and ids duplicate-free and adds exactly that (field, id) pair |
| Queries.GatherOverSpec | libs/agape/orm/src/lib/orm.ts:318-331 | one record adds each non-null Document reference's id string under its field, and nothing else |
| Queries.GatherSpec | libs/agape/orm/src/lib/orm.ts:311-346 | `foreignKeys` lists, once each, the reference fields with a non-null value, each with the distinct string ids seen |
| Queries.FetchTables | libs/agape/orm/src/lib/orm.ts:348-361 | `foreignObjects` has exactly one table per gathered field |
| Queries.FetchTablesPointwise | libs/agape/orm/src/lib/orm.ts:348-361 | the tables are built iff every per-field `<primary>__in` list call succeeds, each table from exactly that field's call |
| Queries.FetchTablesFirstError | libs/agape/orm/src/lib/orm.ts:349-355 | when a list call fails, the first failing call's exception is thrown |
| Queries.TableOfLookup | libs/agape/orm/src/lib/orm.ts:356-359 | the table answers exactly the ids of the listed objects, each with an object listed under that id |
| Queries.PatchOverFields | libs/agape/orm/src/lib/orm.ts:365-374 | the patch sets each gathered field to the listed object with its id (or the null value) and leaves every other key alone |
| Queries.ListItemShape | libs/agape/orm/src/lib/orm.ts:314-376 | one item after the first pass and the patch has exactly the class's fields with their listed values |
| Queries.PatchedItems | libs/agape/orm/src/lib/orm.ts:309-376 | the first pass and the patch produce, in order, the listed form of every fetched record |
| Queries.ListItems | libs/agape/orm/src/lib/orm.ts:276-379 | one item per fetched record in fetch order; references resolved from the single batched call per field, foreign keys stringified, other values copied |
| Queries.ListSharesResolvedObjects | libs/agape/orm/src/lib/orm.ts:363-370 | records whose reference holds the same id receive the same resolved object |
| Queries.SharedReferences | libs/agape/orm/src/lib/orm.ts:365-369 | in listed items, equal non-null reference ids resolve to equal values |
| ListResolution.ListResolvesLikeRetrieve | libs/agape/orm/src/lib/orm.ts:348-370 | in every item of a successful list, a non-null Document reference holds exactly the object `orm.retrieve(refModel, id).exec()` returns for its id, or undefined when that retrieval finds nothing; and that retrieval succeeds |
| ListResolution.RefMappedAsListed | libs/agape/orm/src/lib/orm.ts:232-238 | for a non-null reference, retrieval's mapping of the field equals the value the batched table gives it |
| ListResolution.ListedAsMapped | libs/agape/orm/src/lib/orm.ts:229-254 | when the batched list calls for a set of records succeed, mapping each record as `retrieve` does succeeds and gives the item the list query builds |
| ListResolution.ListedAsRetrieved | libs/agape/orm/src/lib/orm.ts:351-359 | for a successful `<primary>__in` list over ids containing `id`, retrieving `id` succeeds; it finds nothing iff the list's id table has no entry for `id`, and otherwise the entry is the retrieved object |
| ListResolution.ListedTable | libs/agape/orm/src/lib/orm.ts:356-359 | the list's id table has no entry for `id` iff `findOne` on `_id` finds nothing, and otherwise its entry is the item listed from the record `findOne` returns |
| ListResolution.ListedSelection | libs/agape/orm/src/lib/orm.ts:303-307 | a successful `<primary>__in` list selects exactly the stored documents whose `_id` one of the ids names, and keys each item by its document's `_id` |
| ListResolution.InSelectorMatches | libs/agape/orm/src/lib/orm.ts:351-355 | the filter `{ [primary + '__in']: ids }`, when it compiles, matches a document iff its `_id` is the identifier one of the ids names |
| ListResolution.BatchKeySplit | libs/agape/orm/src/lib/orm.ts:351 | the batched key `primary + '__in'` splits back into the primary field and the `in` operator |
| ListResolution.FetchedRefsStored | libs/agape/orm/src/lib/orm.ts:303-307 | records fetched from a consistent store hold every Document reference as null, absent or a store identifier |
| QueryExec.MappedValueExec | libs/agape/orm/src/lib/orm.ts:233-253 | one field's mapping computes `MappedValue`: a reference retrieved recursively, a foreign key stringified, and the rest copied |
| QueryExec.MapRecordExec | libs/agape/orm/src/lib/orm.ts:229-254 | the mapping loop computes `MapRecord` (see MapRecordFields) |
| QueryExec.RetrieveExec | libs/agape/orm/src/lib/orm.ts:196-258 | `RetrieveQuery.exec` computes `RetrieveExecSpec` (see RetrieveOutcomes) |
| QueryExec.RetrieveCallExec | libs/agape/orm/src/lib/orm.ts:122-128 | `orm.retrieve(model, id).exec()` resolves the locator, then runs the query |
| QueryExec.LookupExec | libs/agape/orm/src/lib/orm.ts:393-458 | `LookupQuery.exec` computes `LookupExecSpec` (see LookupOutcomes) |
| QueryExec.FirstPassRecord | libs/agape/orm/src/lib/orm.ts:315-345 | the inner loop builds one record's first-pass item and adds its reference ids to `foreignKeys` |
| QueryExec.FirstPassExec | libs/agape/orm/src/lib/orm.ts:314-346 | the first pass gives one item per record in order, and the `foreignKeys` that GatherSpec characterises |
| QueryExec.TableExec | libs/agape/orm/src/lib/orm.ts:356-359 | `objectsDict` is built as `TableOf` (see TableOfLookup) |
| QueryExec.FetchForeignExec | libs/agape/orm/src/lib/orm.ts:348-361 | the per-field loop of list calls builds `FetchTables` (see FetchTablesPointwise) |
| QueryExec.PatchExec | libs/agape/orm/src/lib/orm.ts:363-376 | the patch loop computes `Patched` (see PatchOverFields) |
| QueryExec.ListExec | libs/agape/orm/src/lib/orm.ts:276-379 | `ListQuery.exec` computes `ListExecSpec` (see ListItems) |
| QueryExec.ListCallExec | libs/agape/orm/src/lib/orm.ts:146-154 | `orm.list(model, filter).exec()` resolves the locator, then runs the query |
| TestSuites.TestSuite.constructor | libs/lib-demo/src/lib/test-suite.ts:39-41 | a suite starts waiting, empty, with the given flags |
| TestSuites.TestSuite.Interactive | libs/lib-demo/src/lib/test-suite.ts:30-32 | a suite's own flag if set, else the nearest ancestor's that is set, and undefined iff none on the chain is set |
| TestSuites.TestSuite.AddTest | libs/lib-demo/src/lib/test-suite.ts:59-61 | appends the case to `tests` |
| TestSuites.TestSuite.AddSuite | libs/lib-demo/src/lib/test-suite.ts:63-65 | appends the suite to `suites` |
| TestSuites.TestSuite.Describe | libs/lib-demo/src/lib/test-suite.ts:67-75 | throws while a test runs; otherwise appends and returns a new waiting child with no result, whose parent is this suite and whose focus, skip and interactive flags come from the params |
| TestSuites.TestSuite.It | libs/lib-demo/src/lib/test-suite.ts:77-84 | throws while a test runs; otherwise appends a new waiting case owned by this suite |
| TestSuites.TestSuite.Fit | libs/lib-demo/src/lib/test-suite.ts:86-94 | as `it`, with the new case focused |
| TestSuites.TestSuite.Xit | libs/lib-demo/src/lib/test-suite.ts:96-104 | as `it`, with the new case skipped |
| TestSuites.TestSuite.Run | libs/lib-demo/src/lib/test-suite.ts:43-57 | a skipped suite becomes `skip`/`skipped` and runs nothing; otherwise its tests, then its child suites, run in order and it ends `ran` with `result` untouched; every suite it reaches ends `ran`, or `skip`/`skipped` when skipped; every case it does not run and every suite it does not reach (those under a skipped suite) keeps its status and result |
| TestSuites.TestSuite.RunTests | libs/lib-demo/src/lib/test-suite.ts:50-52 | runs each test case once, in insertion order, and changes no other case |
| TestSuites.TestSuite.RunSuites | libs/lib-demo/src/lib/test-suite.ts:53-55 | runs each child suite in order, running exactly what each child's tree plans; every suite reached through a child ends `ran` or `skip`/`skipped`, and every other case and every unreached suite is unchanged |
| TestSuites.TestCase.constructor | libs/lib-demo/src/lib/test-suite.ts:145-150 | a case starts waiting with the given flags |
| TestSuites.TestCase.Interactive | libs/lib-demo/src/lib/test-suite.ts:136-138 | the case's own flag if set, else its suite's; undefined iff none is set |
| TestSuites.TestCase.Run | libs/lib-demo/src/lib/test-suite.ts:152-177 | skipped: `skip`/`skipped` without running; otherwise `pass` if the body returns, `fail` if it throws, status `ran` either way |
| TestSuites.TestCase.GetTestNameParts | libs/lib-demo/src/lib/test-suite.ts:194-204 | the suite descriptions from below the root down to the owning suite, then the case's description |
| TestSuites.NamePartsLength | libs/lib-demo/src/lib/test-suite.ts:194-204 | there is one suite part per level below the root, each suite's parts extending its parent's |
| UiInjector.ProviderFor | apps/zed-ui-routing/src/lib/injector.ts:26-27 | a truthy value gives `useValue` of it; otherwise `useClass` of the token |
| UiInjector.Injector.constructor | apps/zed-ui-routing/src/lib/injector.ts:19-21 | a new injector has the given parent and no instances or providers |
| UiInjector.Injector.Provide | apps/zed-ui-routing/src/lib/injector.ts:25-29 | sets or replaces exactly the token's provider, after which the injector serves the token |
| UiInjector.Injector.Owner | apps/zed-ui-routing/src/lib/injector.ts:31-53 | the nearest injector up the chain that can answer; none iff no injector on the chain can |
| UiInjector.Injector.Get | apps/zed-ui-routing/src/lib/injector.ts:31-53 | the nearest answering injector answers from its cache or provider and caches the answer (a new instance for `useClass`); others are unchanged; undefined when none answers |
| UiInjector.Injector.Root | apps/zed-ui-routing/src/lib/injector.ts:55-61 | the ancestor without a parent, which is the injector itself when it has none |
| UiInjector.CachedAnswerStays | apps/zed-ui-routing/src/lib/injector.ts:33-35 | once an answer is cached, later `get` calls give that same answer |
| UiRouter.Contextualize | apps/zed-ui-routing/src/lib/modules/router/router.ts:74 | each definition paired with the module context, in order |
| UiRouter.DropFirst | apps/zed-ui-routing/src/lib/modules/router/router.ts:68 | the path without its first character; the empty path stays empty |
| UiRouter.FindMatchingRoute | apps/zed-ui-routing/src/lib/modules/router/router.ts:67-71 | the first route whose path equals the path without its first character; none iff no route's path does |
| UiRouter.Router.AddRoutes | apps/zed-ui-routing/src/lib/modules/router/router.ts:73-78 | appends the contextualised definitions after the existing routes, in order |
| UiRouter.Router.Navigate | apps/zed-ui-routing/src/lib/modules/router/router.ts:42-61 | pushes the location when asked; emits the matched route's context and component, or undefined iff no route matches |
| UiRouter.EarlierRouteWins | apps/zed-ui-routing/src/lib/modules/router/router.ts:69 | adding routes never changes a path's existing match |
| UiRouter.LaterRouteFound | apps/zed-ui-routing/src/lib/modules/router/router.ts:69 | with no existing match, the search continues into the added routes |
| ServiceInjector.Injector.Get | libs/lib-api/src/lib/injector.ts:10-24 | throws `not a service` (naming the first non-service met) iff resolution meets one; a stored service is returned unchanged; a new one is stored; the only classes newly stored are `service` and the classes its dependencies reach (`Closure`) |
| ServiceInjector.Injector.InstantiateService | libs/lib-api/src/lib/injector.ts:31-41 | dependencies are resolved via `get` in declared order and passed positionally to a new instance; the only classes newly stored are those the dependencies reach (`ClosureIn`), and `service` itself is not stored |
| ServiceInjector.SharedDependency | libs/lib-api/src/lib/injector.ts:18-22 | a dependency shared by two stored services is the same instance in both |
| ExpressBootstrap.Kept | libs/agape/api/src/lib/bootstrap-express.ts:73 | kept segments are neither undefined, `""` nor `"/"` |
| ExpressBootstrap.KeptMember | libs/agape/api/src/lib/bootstrap-express.ts:73 | a string survives the filter iff it is a defined segment other than `""` and `"/"` |
| ExpressBootstrap.RoutePathAppend | libs/agape/api/src/lib/bootstrap-express.ts:72-74 | the route path of two runs of segments is their two paths joined by one `/`, or whichever is non-empty |
| ExpressBootstrap.RoutePathSplits | libs/agape/api/src/lib/bootstrap-express.ts:72-74 | when no kept segment contains `/`, splitting the route path on `/` gives back the kept segments |
| ExpressBootstrap.StaticUses | libs/agape/api/src/lib/bootstrap-express.ts:78-80 | one static mount per directory, in order |
| ExpressBootstrap.PoppedN | libs/agape/api/src/lib/bootstrap-express.ts:91 | `n` pops shorten the array by `n`, down to empty |
| ExpressBootstrap.ExpressRouter.Use | libs/agape/api/src/lib/bootstrap-express.ts:79 | logs one static mount |
| ExpressBootstrap.ExpressRouter.Route | libs/agape/api/src/lib/bootstrap-express.ts:83-86 | logs one method route |
| ExpressBootstrap.SegmentArray.Pop | libs/agape/api/src/lib/bootstrap-express.ts:91 | drops the last segment, if any |
| ExpressBootstrap.MountStatic | libs/agape/api/src/lib/bootstrap-express.ts:76-80 | mounts each static directory at the route path without a leading `/` |
| ExpressBootstrap.OneActionRoute | libs/agape/api/src/lib/bootstrap-express.ts:82-87 | a non-static action registers one method route at `/` plus its route path |
| ExpressBootstrap.ProcessControllers | libs/agape/api/src/lib/bootstrap-express.ts:61-94 | registers each controller's actions on the array as popped so far, and leaves the caller's array popped once per controller |
| ExpressBootstrap.ProcessModules | libs/agape/api/src/lib/bootstrap-express.ts:96-105 | each child extends the segments with its path, and its descriptors with itself, for its controllers and then its children |
| ExpressBootstrap.BootstrapExpress | libs/agape/api/src/lib/bootstrap-express.ts:53-112 | the root's controllers, then its child modules on the same array, register `BootstrapAsWritten` |
| ExpressBootstrap.TwoControllersAsWritten | libs/agape/api/src/lib/bootstrap-express.ts:63-93 | on a one-segment array, the second controller's routes are built after the pop has emptied it |
| ExpressBootstrap.PairAsWrittenRoutes | libs/agape/api/src/lib/bootstrap-express.ts:108 | as written, a module with two controllers registers the second at a path without the module's segment |
| ExpressBootstrap.SecondControllerLosesModulePath | libs/agape/api/src/lib/bootstrap-express.ts:91 | with module `m` and controllers `p`, `q`, the second route is `/q/act` instead of `/m/q/act`, so it is not at its handler's path |
| ExpressBootstrap.AsWrittenAgreesWhenPopHarmless | libs/agape/api/src/lib/bootstrap-express.ts:91 | without a module that has two controllers, or a controller alongside child modules, the pops change nothing |
| ExpressBootstrap.TwoControllersIntended | libs/agape/api/src/lib/bootstrap-express.ts:67 | without the pop, both controllers are routed under the module's segment |
| ExpressBootstrap.PairIntendedRoutes | libs/agape/api/src/lib/bootstrap-express.ts:67-74 | without the pop, both controllers of the pair are routed under the module's segment |
| ExpressBootstrap.IntendedRoutesAtHandlerPath | libs/agape/api/src/lib/bootstrap-express.ts:67-74 | without the pop, every method route is at `/` plus the route path of its module chain, controller and action |

## Left out

- **I/O and asynchrony.** MongoDB access, `getCollection`, `toArray`, `await` sequencing, `console` output and ANSI printing. The store is a value that the queries read.
- **Writing queries.** `insert`, `update` and `delete` are modelled only as factories (`Orm.Orm.Open`). `InsertQuery`, `UpdateQuery` and `DeleteQuery` are not part of this model.
- **`inflate`** and the query objects' `inflate` methods are not part of this model.
- **`Orm.registerModel`.** Deprecated; it skips the registry's checks.
- **External helpers.** `Model.descriptor`, `ViewDescriptor`, `classExtends`, `camelize` and `pluralize` come from packages not shown. Descriptors are inputs, and the pluralising function is a parameter.
- **ObjectId internals and regex matching.** `new ObjectId` on a non-string draws a fresh identifier, which is a parameter. Pattern matching is an uninterpreted test on the store.
- Filter.SearchRules: a pattern is opaque text, so `new RegExp` throwing a `SyntaxError` on an invalid pattern such as `(` is not modelled; such a search compiles to `$regex` here.
- ListResolution.ListResolvesLikeRetrieve: stated for a store whose collections have distinct `_id`s and hold references as null, absent or store identifiers, and for primary fields whose names contain no `__` and do not end in `_`. On other stores a batched table can hold a different object than retrieval finds, and other primary names split `<primary>__in` differently.
- **Key order.** The order of `Object.keys` is taken to be the order in which a filter's entries are given.
- **Object identity.** Values are compared by value. "The same resolved object" in the list query is equal values, not one shared reference.
- **Self- and mutually-referential classes.** A Document-typed field may refer only to a class declared before its own, so a class such as `Category` with a `parent: Category` field is outside the model. The source handles such classes whenever the stored references are acyclic; it loops only on a cycle in the stored data (`retrieve` and `list` recurse without cycle detection).
- **Service dependency cycles.** A service may depend only on services declared before it. The source has no cycle detection and would recurse without end on a cycle.
- **Parents.** `TestSuite.parent` and `TestCase.suite` are passed to the constructors. The source assigns them right after construction.
- **`runningTest`** is read by the registration calls, but nothing in the modelled code sets it.
- **Interactive printing.** `TestCase.run`'s interactive blurbs and `getFormattedTestName` are console output.
- **`TestSuite.Run` and the test body.** The test body is abstracted to "returns" or "throws". The cases a run executes are reported as a ghost sequence.
- **The UI injector's `n` counter.** A debugging counter with no effect on behaviour.
- **Router plumbing.** The UI `Router`'s constructor (`window`, `popstate`, the rxjs `Subject`) and `onNavigateToComponent`. Emissions are returned values, and `history.pushState` is a log of locations.
- **Express handler behaviour.** `express.static` and `routeTo`'s request handling are HTTP plumbing. A registration records the handler's module chain, controller and action.
- **`new Api(module)` and controller instances.** Not part of this model.
- ExpressBootstrap.TwoControllersAsWritten: stated only for controllers with one action each. The general case is what `ControllersAsWritten` defines.
- ExpressBootstrap.TwoControllersIntended: stated only for controllers with one action each. The general case is what `ControllersIntended` defines.

## Findings

| source | as written | input that shows it | evidently intended | confidence | as-written member | corrected member |
|---|---|---|---|---|---|---|
| libs/agape/api/src/lib/bootstrap-express.ts:91 | after each controller, `pathSegments.pop()` removes the last segment of the caller's array, so later controllers and the sibling child modules lose the module's path segment | root module with path `api` and controllers `a` and `b`, each with one GET action `x` | the second route is `/api/b/x`; as written it is `/b/x` | not executed | ExpressBootstrap.SecondControllerLosesModulePath | ExpressBootstrap.IntendedRoutesAtHandlerPath |
