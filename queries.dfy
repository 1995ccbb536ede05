/**
 * The read paths: `RetrieveQuery.exec`, `LookupQuery.exec` and
 * `ListQuery.exec`. Each is a specification function over the registry
 * and the store, and a method with the source's loops proved equal to it.
 */
module Queries {
  import opened Wrappers
  import opened Values
  import opened Schema
  import opened Filter
  import opened MongoStore
  import opened Orm

  // ---------------------------------------------------------------------
  // Projection
  // ---------------------------------------------------------------------

  /** Adds `field: 1` for each of `fs`, in order. */
  function IncludeAll(p: Projection, fs: seq<Field>): Projection
    decreases |fs|
  {
    if fs == [] then p else IncludeAll(p, fs[..|fs| - 1])[fs[|fs| - 1].name := Include]
  }

  /** `{ _id: 0, [primary]: { $toString: "$_id" }, [other]: 1 ... }`. */
  function ProjectionOf(fields: seq<Field>): Projection
    requires PrimaryCount(fields) > 0
  {
    IncludeAll(map["_id" := Exclude][PrimaryField(fields).name := IdString], OtherFields(fields))
  }

  /** The projection as the source builds it, key by key. */
  method BuildProjection(fields: seq<Field>) returns (projection: Projection)
    requires PrimaryCount(fields) > 0
    ensures projection == ProjectionOf(fields)
  {
    projection := map["_id" := Exclude];
    var primaryField := PrimaryField(fields);
    projection := projection[primaryField.name := IdString];
    var otherFields := OtherFields(fields);
    ghost var start := projection;
    var i := 0;
    while i < |otherFields|
      invariant 0 <= i <= |otherFields|
      invariant projection == IncludeAll(start, otherFields[..i])
    {
      assert otherFields[..i + 1][..i] == otherFields[..i];
      assert IncludeAll(start, otherFields[..i + 1]) == IncludeAll(start, otherFields[..i])[otherFields[i].name := Include];
      projection := projection[otherFields[i].name := Include];
      i := i + 1;
    }
    assert otherFields[..i] == otherFields;
  }

  lemma {:induction false} IncludeAllKeys(p: Projection, fs: seq<Field>)
    ensures IncludeAll(p, fs).Keys == p.Keys + (set f | f in fs :: f.name)
    ensures forall k :: k in IncludeAll(p, fs) ==>
      IncludeAll(p, fs)[k] == if exists f :: f in fs && f.name == k then Include else p[k]
    decreases |fs|
  {
    if fs != [] {
      var q := fs[..|fs| - 1];
      IncludeAllKeys(p, q);
      assert fs == q + [fs[|fs| - 1]];
    }
  }

  /**
   * The projection drops `_id`, asks for the primary field as the string
   * form of `_id`, and includes every other field, and nothing else.
   */
  lemma ProjectionShape(fields: seq<Field>)
    requires PrimaryCount(fields) == 1 && DistinctNames(fields)
    requires forall f :: f in fields ==> f.name != "_id"
    ensures var p := ProjectionOf(fields);
      && p.Keys == {"_id"} + (set f | f in fields :: f.name)
      && p["_id"] == Exclude
      && p[PrimaryField(fields).name] == IdString
      && forall f :: f in fields && !f.primary ==> p[f.name] == Include
  {
    var pk := PrimaryField(fields);
    var base := map["_id" := Exclude][pk.name := IdString];
    IncludeAllKeys(base, OtherFields(fields));
    forall f | f in fields
      ensures f.name in ProjectionOf(fields)
    {
      if !f.primary { assert f in OtherFields(fields); }
      else { PrimaryFieldUnique(fields, f); }
    }
    forall f | f in OtherFields(fields)
      ensures f.name != pk.name
    {
      if f.name == pk.name {
        SameNameSameField(fields, f, pk);
      }
    }
  }

  // ---------------------------------------------------------------------
  // Mapping a fetched record (Retrieve and Lookup)
  // ---------------------------------------------------------------------

  /** `new ObjectId(id)` for a string id: the id it denotes, or none when it is malformed. */
  function ParseId(id: string): (r: Option<ObjectId>)
    ensures forall d :: r.Some? <==> NewObjectId(Str(id), d).Ok?
    ensures forall d :: r.Some? ==> NewObjectId(Str(id), d) == Ok(r.value)
  {
    if IsObjectIdHex(id) then Some(ObjectId(Canonical(id))) else None
  }



  /** Field `f` of the item built from `record`, or the exception resolving it throws. */
  function MappedValue(u: Universe, documents: Documents, st: Store, c: ClassId, f: Field, record: Record): Result<Value, OrmError>
    requires WellFormed(u) && c in u && f in u[c].fields
    decreases c, 0
  {
    var v := Get(record, f.name);
    if f.refModel.Some? then
      if !IsNullish(v) then
        RefBelow(u, c, f);
        var found :- RetrieveCall(u, documents, st, f.refModel.value, Stringify(v));
        Ok(if found.Some? then Obj(found.value) else Undefined)
      else Ok(v)
    else if f.foreignKey then
      if !IsNullish(v) then Ok(Str(Stringify(v))) else Ok(v)
    else Ok(v)
  }

  function MappedValues(u: Universe, documents: Documents, st: Store, c: ClassId, fs: seq<Field>, record: Record)
    : (rs: seq<Result<Value, OrmError>>)
    requires WellFormed(u) && c in u && forall f :: f in fs ==> f in u[c].fields
    ensures |rs| == |fs|
    decreases c, 1
  {
    seq(|fs|, i requires 0 <= i < |fs| => MappedValue(u, documents, st, c, fs[i], record))
  }

  /** The item for a fetched record: its primary value first, then each other field mapped in order. */
  function MapRecord(u: Universe, documents: Documents, st: Store, c: ClassId, record: Record): Result<Record, OrmError>
    requires WellFormed(u) && c in u
    decreases c, 2
  {
    var fs := OtherFields(u[c].fields);
    var pk := PrimaryOf(u, c).name;
    Assemble(pk, Get(record, pk), fs, MappedValues(u, documents, st, c, fs, record))
  }

  /** The item with `x` under `pk` first, then each field's value, or the first field's exception. */
  function Assemble(pk: string, x: Value, fs: seq<Field>, rs: seq<Result<Value, OrmError>>): Result<Record, OrmError>
    requires |rs| == |fs|
  {
    var vs :- Collect(rs);
    Ok(map[pk := x] + RecordFrom(fs, vs))
  }

  /** `RetrieveQuery.exec()` on `collection`: none when no record has the id. */
  function RetrieveExecSpec(u: Universe, documents: Documents, st: Store, model: ClassId, collection: CollectionKey, id: string)
    : Result<Option<Record>, OrmError>
    requires WellFormed(u) && model in u
    decreases model, 3
  {
    match ParseId(id)
    case None => Err(InvalidRecord(id))
    case Some(oid) =>
      ClassRefsResolve(u, model);
      match FindOne(st, collection, Single(Clause("_id", Eq, Oid(oid))), ProjectionOf(u[model].fields))
      case None => Ok(None)
      case Some(record) =>
        var item :- MapRecord(u, documents, st, model, record);
        Ok(Some(item))
  }

  /** `orm.retrieve(model, id).exec()`. */
  function RetrieveCall(u: Universe, documents: Documents, st: Store, model: ClassId, id: string): Result<Option<Record>, OrmError>
    requires WellFormed(u) && model in u
    decreases model, 4
  {
    var locator :- LocatorOf(u, documents, model);
    RetrieveExecSpec(u, documents, st, model, locator.collection, id)
  }

  /** `LookupQuery.exec()` on `collection`: the first match, mapped, or none. */
  function LookupExecSpec(u: Universe, documents: Documents, st: Store, model: ClassId, collection: CollectionKey,
                          filter: FilterCriteria, drawn: ObjectId): Result<Option<Record>, OrmError>
    requires WellFormed(u) && model in u
  {
    ClassRefsResolve(u, model);
    var select :- CompileFilter(u, u[model].fields, filter, drawn);
    match FindOne(st, collection, select, ProjectionOf(u[model].fields))
    case None => Ok(None)
    case Some(record) =>
      var item :- MapRecord(u, documents, st, model, record);
      Ok(Some(item))
  }

  /** The primary field is asked for as the string form of `_id`, whatever the other fields are named. */
  lemma ProjectionPrimary(fields: seq<Field>)
    requires PrimaryCount(fields) == 1 && DistinctNames(fields)
    ensures PrimaryField(fields).name in ProjectionOf(fields) && ProjectionOf(fields)[PrimaryField(fields).name] == IdString
  {
    var pk := PrimaryField(fields);
    IncludeAllKeys(map["_id" := Exclude][pk.name := IdString], OtherFields(fields));
    forall f | f in OtherFields(fields) ensures f.name != pk.name {
      if f.name == pk.name {
        SameNameSameField(fields, f, pk);
      }
    }
  }

  /**
   * The assembled item succeeds iff every field's value does; it then holds
   * `x` under `pk` and each field's value under its name, and nothing else.
   */
  lemma AssembleFields(pk: string, x: Value, fs: seq<Field>, rs: seq<Result<Value, OrmError>>)
    requires |rs| == |fs| && DistinctNames(fs) && forall f :: f in fs ==> f.name != pk
    ensures var r := Assemble(pk, x, fs, rs);
      && (r.Ok? <==> forall i :: 0 <= i < |rs| ==> rs[i].Ok?)
      && (r.Ok? ==>
            && r.value.Keys == {pk} + Names(fs)
            && r.value[pk] == x
            && forall i :: 0 <= i < |fs| ==> r.value[fs[i].name] == rs[i].value)
  {
    CollectPointwise(rs);
    var vs := Collect(rs);
    if vs.Ok? {
      RecordFromKeys(fs, vs.value);
      RecordFromValues(fs, vs.value);
      assert pk !in RecordFrom(fs, vs.value);
    }
  }

  /** The primary field's name is none of the other fields' names. */
  lemma PrimaryNameApart(fields: seq<Field>)
    requires PrimaryCount(fields) == 1 && DistinctNames(fields)
    ensures forall f :: f in OtherFields(fields) ==> f.name != PrimaryField(fields).name
    ensures DistinctNames(OtherFields(fields))
    ensures Names(fields) == {PrimaryField(fields).name} + Names(OtherFields(fields))
  {
    var pk := PrimaryField(fields);
    OtherFieldsDistinct(fields);
    forall f | f in OtherFields(fields) ensures f.name != pk.name {
      if f.name == pk.name {
        SameNameSameField(fields, f, pk);
      }
    }
    forall f | f in fields ensures f == pk || f in OtherFields(fields) {
      if f.primary { PrimaryFieldUnique(fields, f); }
    }
  }

  /**
   * Mapping a record succeeds iff every non-primary field's mapping does; the
   * item then has exactly the class's fields, the primary one holding the
   * record's primary value and each other one its mapped value.
   */
  lemma MapRecordFields(u: Universe, documents: Documents, st: Store, c: ClassId, record: Record)
    requires WellFormed(u) && c in u
    ensures var r := MapRecord(u, documents, st, c, record);
      var pk := PrimaryOf(u, c).name;
      && (r.Ok? <==> forall f :: f in u[c].fields && !f.primary ==> MappedValue(u, documents, st, c, f, record).Ok?)
      && (r.Ok? ==>
            && r.value.Keys == Names(u[c].fields)
            && r.value[pk] == Get(record, pk)
            && forall f :: f in u[c].fields && !f.primary ==> r.value[f.name] == MappedValue(u, documents, st, c, f, record).value)
  {
    var fields := u[c].fields;
    var fs := OtherFields(fields);
    var pk := PrimaryOf(u, c).name;
    assert WellFormedClass(u, c);
    PrimaryNameApart(fields);
    var rs := MappedValues(u, documents, st, c, fs, record);
    AssembleFields(pk, Get(record, pk), fs, rs);
    forall f | f in fields && !f.primary ensures exists i :: 0 <= i < |fs| && fs[i] == f {
      assert f in fs;
    }
  }

  /** A field that is not a Document reference is mapped alike by the single-record and the list paths. */
  lemma PlainFieldsMapAlike(u: Universe, documents: Documents, st: Store, c: ClassId, f: Field, record: Record,
                            tables: map<string, map<string, Value>>)
    requires WellFormed(u) && c in u && f in u[c].fields && !f.primary && f.refModel.None?
    ensures MappedValue(u, documents, st, c, f, record) == Ok(ListedValue(f, Get(record, f.name), tables))
  {
  }

  /**
   * `RetrieveQuery.exec()`: a malformed id throws `Invalid record <id>`;
   * otherwise the answer is none iff no document of the collection has that `_id`.
   */
  lemma RetrieveOutcomes(u: Universe, documents: Documents, st: Store, model: ClassId, collection: CollectionKey, id: string)
    requires WellFormed(u) && model in u
    ensures var r := RetrieveExecSpec(u, documents, st, model, collection, id);
      var docs := Contents(st, collection);
      && (!IsObjectIdHex(id) ==> r == Err(InvalidRecord(id)))
      && (IsObjectIdHex(id) ==>
            (r == Ok(None) <==> forall j :: 0 <= j < |docs| ==> Get(docs[j], "_id") != Oid(ObjectId(Canonical(id)))))
  {
    if IsObjectIdHex(id) {
      var s := Single(Clause("_id", Eq, Oid(ObjectId(Canonical(id)))));
      ClassRefsResolve(u, model);
      FindOneIsFirstMatch(st, collection, s, ProjectionOf(u[model].fields));
      var docs := Contents(st, collection);
      forall j | 0 <= j < |docs| ensures Matches(st, s, docs[j]) <==> Get(docs[j], "_id") == Oid(ObjectId(Canonical(id))) {
        MatchesSingle(st, Clause("_id", Eq, Oid(ObjectId(Canonical(id)))), docs[j]);
      }
    }
  }

  /** A retrieved item holds, under its primary field, the canonical string of the id asked for. */
  lemma RetrieveFindsById(u: Universe, documents: Documents, st: Store, model: ClassId, collection: CollectionKey, id: string)
    requires WellFormed(u) && model in u
    ensures var r := RetrieveExecSpec(u, documents, st, model, collection, id);
      var pk := PrimaryOf(u, model).name;
      r.Ok? && r.value.Some? ==> pk in r.value.value && r.value.value[pk] == Str(Canonical(id))
  {
    var r := RetrieveExecSpec(u, documents, st, model, collection, id);
    if r.Ok? && r.value.Some? {
      var oid := ObjectId(Canonical(id));
      var s := Single(Clause("_id", Eq, Oid(oid)));
      ClassRefsResolve(u, model);
      var p := ProjectionOf(u[model].fields);
      var found := Select(st, s, Contents(st, collection));
      var doc := found[0];
      assert doc in found;
      assert Clauses(s)[0] == Clause("_id", Eq, Oid(oid));
      assert Get(doc, "_id") == Oid(oid);
      ProjectionPrimary(u[model].fields);
      MapRecordFields(u, documents, st, model, Project(p, doc));
    }
  }

  /** `LookupQuery.exec()` answers with the first matching document, mapped, or none when nothing matches. */
  lemma LookupOutcomes(u: Universe, documents: Documents, st: Store, model: ClassId, collection: CollectionKey,
                       filter: FilterCriteria, drawn: ObjectId)
    requires WellFormed(u) && model in u
    ensures (ClassRefsResolve(u, model);
      var r := LookupExecSpec(u, documents, st, model, collection, filter, drawn);
      var select := CompileFilter(u, u[model].fields, filter, drawn);
      var docs := Contents(st, collection);
      && (select.Err? ==> r == Err(select.error))
      && (select.Ok? ==>
            && (r == Ok(None) <==> forall j :: 0 <= j < |docs| ==> !Matches(st, select.value, docs[j]))
            && forall i :: 0 <= i < |docs| && Matches(st, select.value, docs[i]) && FirstMatchAt(st, select.value, docs, i) ==>
                 r == match MapRecord(u, documents, st, model, Project(ProjectionOf(u[model].fields), docs[i]))
                      case Ok(item) => Ok(Some(item))
                      case Err(e) => Err(e)))
  {
    ClassRefsResolve(u, model);
    var select := CompileFilter(u, u[model].fields, filter, drawn);
    if select.Ok? {
      FindOneIsFirstMatch(st, collection, select.value, ProjectionOf(u[model].fields));
    }
  }

  /** Looking a record up by its primary key with a well-formed id is retrieving it. */
  lemma LookupByPrimaryIsRetrieve(u: Universe, documents: Documents, st: Store, model: ClassId, collection: CollectionKey,
                                  id: string, drawn: ObjectId)
    requires WellFormed(u) && model in u && IsObjectIdHex(id) && !HasSep(PrimaryOf(u, model).name)
    ensures LookupExecSpec(u, documents, st, model, collection, Some([(PrimaryOf(u, model).name, Str(id))]), drawn)
         == RetrieveExecSpec(u, documents, st, model, collection, id)
  {
    ClassRefsResolve(u, model);
    PrimaryIdFilter(u, u[model].fields, id, drawn);
  }

  // ---------------------------------------------------------------------
  // ListQuery: first pass, batched reference resolution, patch
  // ---------------------------------------------------------------------

  /** A field's value in the first pass; none when a Document reference waits for the batch. */
  function FirstPassValue(f: Field, v: Value): Option<Value> {
    if f.refModel.Some? then
      if !IsNullish(v) then None else Some(v)
    else if f.foreignKey then
      Some(if !IsNullish(v) then Str(Stringify(v)) else v)
    else Some(v)
  }

  function FirstPassOver(fs: seq<Field>, record: Record, item: Record): Record
    decreases |fs|
  {
    if fs == [] then item
    else
      var f := fs[|fs| - 1];
      var prev := FirstPassOver(fs[..|fs| - 1], record, item);
      match FirstPassValue(f, Get(record, f.name))
      case None => prev
      case Some(v) => prev[f.name := v]
  }

  /** The item the first pass builds for one record. */
  function FirstPassItem(fields: seq<Field>, record: Record): Record
    requires PrimaryCount(fields) == 1
  {
    var pk := PrimaryField(fields).name;
    FirstPassOver(OtherFields(fields), record, map[pk := Get(record, pk)])
  }

  function FirstPassItems(u: Universe, c: ClassId, records: seq<Record>): (items: seq<Record>)
    requires WellFormed(u) && c in u
    ensures |items| == |records|
  {
    assert WellFormedClass(u, c);
    seq(|records|, i requires 0 <= i < |records| => FirstPassItem(u[c].fields, records[i]))
  }

  /**
   * The `foreignKeys` dictionary: field names in the order they were first
   * added, and for each the ids in the order of their first appearance.
   */
  datatype RefIds = RefIds(fields: seq<string>, ids: map<string, seq<string>>)

  /** `foreignKeys[name] ??= new Set(); foreignKeys[name].add(id)`. */
  function AddRef(refs: RefIds, name: string, id: string): RefIds {
    if name in refs.ids then
      if id in refs.ids[name] then refs
      else RefIds(refs.fields, refs.ids[name := refs.ids[name] + [id]])
    else RefIds(refs.fields + [name], refs.ids[name := [id]])
  }

  /** Adds the non-null reference ids of one record, field by field. */
  function GatherOver(fs: seq<Field>, record: Record, refs: RefIds): RefIds
    decreases |fs|
  {
    if fs == [] then refs
    else
      var f := fs[|fs| - 1];
      var prev := GatherOver(fs[..|fs| - 1], record, refs);
      var v := Get(record, f.name);
      if f.refModel.Some? && !IsNullish(v) then AddRef(prev, f.name, Stringify(v)) else prev
  }

  /** The `foreignKeys` dictionary after the first pass over `records`; it names only Document-typed fields. */
  function Gather(u: Universe, c: ClassId, records: seq<Record>): (refs: RefIds)
    requires WellFormed(u) && c in u
    ensures PlanOK(u, c, refs)
    decreases |records|
  {
    if records == [] then RefIds([], map[])
    else
      var prev := Gather(u, c, records[..|records| - 1]);
      GatherOverPlanOK(u, c, OtherFields(u[c].fields), records[|records| - 1], prev);
      GatherOver(OtherFields(u[c].fields), records[|records| - 1], prev)
  }

  /** `name` is a Document-typed field of class `c`. */
  predicate IsRefName(u: Universe, c: ClassId, name: string)
    requires c in u
  {
    FieldNamed(u[c].fields, name).Some? && FieldNamed(u[c].fields, name).value.refModel.Some?
  }

  /** The class a Document-typed field refers to. */
  function RefTarget(u: Universe, c: ClassId, name: string): (d: ClassId)
    requires WellFormed(u) && c in u && IsRefName(u, c, name)
    ensures d in u && d < c
  {
    var f := FieldNamed(u[c].fields, name).value;
    RefBelow(u, c, f);
    f.refModel.value
  }

  /** `{ [primary + '__in']: ids }` for the referenced class. */
  function InFilter(u: Universe, d: ClassId, ids: seq<string>): FilterCriteria
    requires WellFormed(u) && d in u
  {
    Some([(PrimaryOf(u, d).name + "__in", Arr(IdValues(ids)))])
  }

  /** The ids as string values. */
  function IdValues(ids: seq<string>): (vs: seq<Value>)
    ensures |vs| == |ids| && forall k :: 0 <= k < |ids| ==> vs[k] == Str(ids[k])
  {
    seq(|ids|, k requires 0 <= k < |ids| => Str(ids[k]))
  }

  /** The objects each gathered field's list call returns, in order. */
  function ListsFor(u: Universe, documents: Documents, st: Store, c: ClassId, refs: RefIds, keys: seq<string>,
                    drawn: ObjectId): (rs: seq<Result<seq<Record>, OrmError>>)
    requires WellFormed(u) && c in u
    requires forall k :: k in keys ==> k in refs.ids && IsRefName(u, c, k)
    ensures |rs| == |keys|
    decreases c, 1
  {
    seq(|keys|, j requires 0 <= j < |keys| =>
      var d := RefTarget(u, c, keys[j]);
      ListCall(u, documents, st, d, InFilter(u, d, refs.ids[keys[j]]), drawn))
  }

  /** The dictionary holding `values[j]` under `keys[j]`; a later key wins. */
  function TablesFrom<V>(keys: seq<string>, values: seq<V>): (t: map<string, V>)
    requires |values| == |keys|
    ensures t.Keys == set k | k in keys
    decreases |keys|
  {
    if keys == [] then map[]
    else
      var n := |keys| - 1;
      assert keys == keys[..n] + [keys[n]];
      TablesFrom(keys[..n], values[..n])[keys[n] := values[n]]
  }

  /** The string form of each object's primary value `pk`. */
  function IdsOf(pk: string, objects: seq<Record>): (ids: seq<string>)
    ensures |ids| == |objects|
  {
    seq(|objects|, i requires 0 <= i < |objects| => Stringify(Get(objects[i], pk)))
  }

  function Objects(objects: seq<Record>): (vs: seq<Value>)
    ensures |vs| == |objects| && forall i :: 0 <= i < |objects| ==> vs[i] == Obj(objects[i])
  {
    seq(|objects|, i requires 0 <= i < |objects| => Obj(objects[i]))
  }

  /** `objectsDict`: each listed object under the string of its primary value `pk`; a later one wins. */
  function TableOf(pk: string, objects: seq<Record>): map<string, Value> {
    TablesFrom(IdsOf(pk, objects), Objects(objects))
  }

  /** The primary field name of the class gathered field `k` refers to. */
  function TargetKey(u: Universe, c: ClassId, k: string): string
    requires WellFormed(u) && c in u && IsRefName(u, c, k)
  {
    PrimaryOf(u, RefTarget(u, c, k)).name
  }

  /** The table built from each key's list of objects. */
  function TablesOf(u: Universe, c: ClassId, keys: seq<string>, lists: seq<seq<Record>>): (ts: seq<map<string, Value>>)
    requires WellFormed(u) && c in u && |lists| == |keys|
    requires forall k :: k in keys ==> IsRefName(u, c, k)
    ensures |ts| == |keys|
    ensures forall j :: 0 <= j < |keys| ==> ts[j] == TableOf(TargetKey(u, c, keys[j]), lists[j])
  {
    seq(|keys|, j requires 0 <= j < |keys| => TableOf(TargetKey(u, c, keys[j]), lists[j]))
  }

  /** `foreignObjects`: one list call per gathered field, in order, each turned into a table. */
  function FetchTables(u: Universe, documents: Documents, st: Store, c: ClassId, refs: RefIds, keys: seq<string>,
                       drawn: ObjectId): (r: Result<map<string, map<string, Value>>, OrmError>)
    requires WellFormed(u) && c in u
    requires forall k :: k in keys ==> k in refs.ids && IsRefName(u, c, k)
    ensures r.Ok? ==> r.value.Keys == set k | k in keys
    decreases c, 2
  {
    var lists :- Collect(ListsFor(u, documents, st, c, refs, keys, drawn));
    Ok(TablesFrom(keys, TablesOf(u, c, keys, lists)))
  }

  /** The patched value of a gathered field: the listed object with that id, or the null value itself. */
  function Resolved(table: map<string, Value>, v: Value): Value {
    if !IsNullish(v) then
      var id := Stringify(v);
      if id in table then table[id] else Undefined
    else v
  }

  function PatchOver(item: Record, record: Record, keys: seq<string>, tables: map<string, map<string, Value>>): Record
    requires forall k :: k in keys ==> k in tables
    decreases |keys|
  {
    if keys == [] then item
    else
      var k := keys[|keys| - 1];
      PatchOver(item, record, keys[..|keys| - 1], tables)[k := Resolved(tables[k], Get(record, k))]
  }

  function Patched(items: seq<Record>, records: seq<Record>, keys: seq<string>, tables: map<string, map<string, Value>>)
    : (r: seq<Record>)
    requires |items| == |records| && forall k :: k in keys ==> k in tables
    ensures |r| == |items|
  {
    seq(|items|, i requires 0 <= i < |items| => PatchOver(items[i], records[i], keys, tables))
  }

  /** Every gathered field is a Document-typed field with its id list. */
  predicate PlanOK(u: Universe, c: ClassId, refs: RefIds)
    requires c in u
  {
    forall k :: k in refs.fields ==> k in refs.ids && IsRefName(u, c, k)
  }

  /** The records `ListQuery.exec()` fetches, before mapping. */
  function Fetched(u: Universe, st: Store, model: ClassId, collection: CollectionKey, filter: FilterCriteria, drawn: ObjectId)
    : Result<seq<Record>, OrmError>
    requires WellFormed(u) && model in u
  {
    ClassRefsResolve(u, model);
    var select :- CompileFilter(u, u[model].fields, filter, drawn);
    Ok(Find(st, collection, select, ProjectionOf(u[model].fields)))
  }

  /** `ListQuery.exec()` on `collection`. */
  function ListExecSpec(u: Universe, documents: Documents, st: Store, model: ClassId, collection: CollectionKey,
                        filter: FilterCriteria, drawn: ObjectId): Result<seq<Record>, OrmError>
    requires WellFormed(u) && model in u
    decreases model, 3
  {
    var records :- Fetched(u, st, model, collection, filter, drawn);
    var refs := Gather(u, model, records);
    var tables :- FetchTables(u, documents, st, model, refs, refs.fields, drawn);
    Ok(Patched(FirstPassItems(u, model, records), records, refs.fields, tables))
  }

  /** `orm.list(model, filter).exec()`. */
  function ListCall(u: Universe, documents: Documents, st: Store, model: ClassId, filter: FilterCriteria, drawn: ObjectId)
    : Result<seq<Record>, OrmError>
    requires WellFormed(u) && model in u
    decreases model, 4
  {
    var locator :- LocatorOf(u, documents, model);
    ListExecSpec(u, documents, st, model, locator.collection, filter, drawn)
  }

  /** A Document-typed field of `c` is found again by its name. */
  lemma RefFieldNamed(u: Universe, c: ClassId, f: Field)
    requires WellFormed(u) && c in u && f in u[c].fields && f.refModel.Some?
    ensures IsRefName(u, c, f.name) && FieldNamed(u[c].fields, f.name) == Some(f)
  {
    assert WellFormedClass(u, c);
    var i :| 0 <= i < |u[c].fields| && u[c].fields[i] == f;
    FieldNamedFinds(u[c].fields, i);
  }

  lemma {:induction false} GatherOverPlanOK(u: Universe, c: ClassId, fs: seq<Field>, record: Record, refs: RefIds)
    requires WellFormed(u) && c in u && PlanOK(u, c, refs)
    requires forall f :: f in fs ==> f in u[c].fields
    ensures PlanOK(u, c, GatherOver(fs, record, refs))
    decreases |fs|
  {
    if fs != [] {
      var f := fs[|fs| - 1];
      GatherOverPlanOK(u, c, fs[..|fs| - 1], record, refs);
      if f.refModel.Some? {
        RefFieldNamed(u, c, f);
      }
    }
  }

  // ---------------------------------------------------------------------
  // What the first pass gathers
  // ---------------------------------------------------------------------

  predicate NoDup(s: seq<string>) {
    forall i, j :: 0 <= i < j < |s| ==> s[i] != s[j]
  }

  /** Field names are listed once, each has a non-empty list of distinct ids, and nothing else has one. */
  predicate RefIdsOK(refs: RefIds) {
    && NoDup(refs.fields)
    && refs.ids.Keys == (set k | k in refs.fields)
    && forall k :: k in refs.ids ==> NoDup(refs.ids[k])
  }

  /** `id` was gathered for field `k`. */
  predicate Holds(refs: RefIds, k: string, id: string) {
    k in refs.ids && id in refs.ids[k]
  }

  /** Some Document-typed field among `fs` is named `k`. */
  predicate RefNameIn(fs: seq<Field>, k: string) {
    exists f :: f in fs && f.refModel.Some? && f.name == k
  }

  lemma AddRefSpec(refs: RefIds, name: string, id: string)
    requires RefIdsOK(refs)
    ensures var r := AddRef(refs, name, id);
      && RefIdsOK(r)
      && (forall k :: k in r.fields <==> k in refs.fields || k == name)
      && (forall k, x :: Holds(r, k, x) <==> Holds(refs, k, x) || (k == name && x == id))
  {
    var r := AddRef(refs, name, id);
    if name !in refs.ids {
      assert name !in refs.fields;
      assert forall k :: k in r.fields <==> k in refs.fields || k == name;
    }
  }

  lemma {:induction false} GatherOverSpec(fs: seq<Field>, record: Record, refs: RefIds)
    requires RefIdsOK(refs)
    ensures var r := GatherOver(fs, record, refs);
      && RefIdsOK(r)
      && (forall k :: k in r.fields <==> k in refs.fields || (RefNameIn(fs, k) && !IsNullish(Get(record, k))))
      && (forall k, x :: Holds(r, k, x) <==>
            Holds(refs, k, x) || (RefNameIn(fs, k) && !IsNullish(Get(record, k)) && x == Stringify(Get(record, k))))
    decreases |fs|
  {
    if fs != [] {
      var f := fs[|fs| - 1];
      var p := fs[..|fs| - 1];
      GatherOverSpec(p, record, refs);
      var prev := GatherOver(p, record, refs);
      assert forall k :: RefNameIn(fs, k) <==> RefNameIn(p, k) || (f.refModel.Some? && f.name == k) by {
        assert fs == p + [f];
        forall k | RefNameIn(fs, k) ensures RefNameIn(p, k) || (f.refModel.Some? && f.name == k) {
          var g :| g in fs && g.refModel.Some? && g.name == k;
          if g != f { assert g in p; }
        }
      }
      if f.refModel.Some? && !IsNullish(Get(record, f.name)) {
        AddRefSpec(prev, f.name, Stringify(Get(record, f.name)));
      }
    }
  }

  /** Some record has a non-null value under `k`. */
  predicate SeenIn(records: seq<Record>, k: string) {
    exists i :: 0 <= i < |records| && !IsNullish(Get(records[i], k))
  }

  /** Some record has a non-null value under `k` whose string form is `x`. */
  predicate SeenAs(records: seq<Record>, k: string, x: string) {
    exists i :: 0 <= i < |records| && !IsNullish(Get(records[i], k)) && x == Stringify(Get(records[i], k))
  }

  lemma SeenSplit(records: seq<Record>)
    requires records != []
    ensures var n := |records| - 1;
      && (forall k :: SeenIn(records, k) <==> SeenIn(records[..n], k) || !IsNullish(Get(records[n], k)))
      && (forall k, x :: SeenAs(records, k, x) <==>
            SeenAs(records[..n], k, x) || (!IsNullish(Get(records[n], k)) && x == Stringify(Get(records[n], k))))
  {
    var n := |records| - 1;
    var p := records[..n];
    forall k ensures SeenIn(records, k) <==> SeenIn(p, k) || !IsNullish(Get(records[n], k)) {
      if SeenIn(records, k) {
        var i :| 0 <= i < |records| && !IsNullish(Get(records[i], k));
        if i < n { assert p[i] == records[i]; }
      }
      if SeenIn(p, k) {
        var i :| 0 <= i < |p| && !IsNullish(Get(p[i], k));
        assert p[i] == records[i];
      }
    }
    forall k, x ensures SeenAs(records, k, x) <==>
      SeenAs(p, k, x) || (!IsNullish(Get(records[n], k)) && x == Stringify(Get(records[n], k)))
    {
      if SeenAs(records, k, x) {
        var i :| 0 <= i < |records| && !IsNullish(Get(records[i], k)) && x == Stringify(Get(records[i], k));
        if i < n { assert p[i] == records[i]; }
      }
      if SeenAs(p, k, x) {
        var i :| 0 <= i < |p| && !IsNullish(Get(p[i], k)) && x == Stringify(Get(p[i], k));
        assert p[i] == records[i];
      }
    }
  }

  /**
   * After the first pass, `foreignKeys` lists once each Document-typed field
   * that has a non-null value in some fetched record, and for each such field
   * the distinct string forms of its non-null values, each once.
   */
  lemma {:induction false} GatherSpec(u: Universe, c: ClassId, records: seq<Record>)
    requires WellFormed(u) && c in u
    ensures var refs := Gather(u, c, records);
      var fs := OtherFields(u[c].fields);
      && RefIdsOK(refs)
      && (forall k :: k in refs.fields <==> RefNameIn(fs, k) && SeenIn(records, k))
      && (forall k, x :: Holds(refs, k, x) <==> RefNameIn(fs, k) && SeenAs(records, k, x))
    decreases |records|
  {
    if records != [] {
      var n := |records| - 1;
      var p := records[..n];
      GatherSpec(u, c, p);
      GatherOverSpec(OtherFields(u[c].fields), records[n], Gather(u, c, p));
      SeenSplit(records);
    }
  }

  // ---------------------------------------------------------------------
  // Batched resolution and the patched items
  // ---------------------------------------------------------------------

  /** With distinct keys, each key holds its own value. */
  lemma {:induction false} TablesFromPointwise<V>(keys: seq<string>, values: seq<V>)
    requires |values| == |keys| && NoDup(keys)
    ensures forall j :: 0 <= j < |keys| ==> TablesFrom(keys, values)[keys[j]] == values[j]
    decreases |keys|
  {
    if keys != [] {
      var n := |keys| - 1;
      assert forall j :: 0 <= j < n ==> keys[..n][j] == keys[j] && values[..n][j] == values[j];
      TablesFromPointwise(keys[..n], values[..n]);
    }
  }

  /**
   * `foreignObjects` holds, for each gathered field, the table of exactly
   * one list call over that field's ids; it is built iff every call
   * succeeds, and otherwise the first failing call's exception is thrown.
   */
  lemma FetchTablesPointwise(u: Universe, documents: Documents, st: Store, c: ClassId, refs: RefIds,
                             keys: seq<string>, drawn: ObjectId)
    requires WellFormed(u) && c in u && NoDup(keys)
    requires forall k :: k in keys ==> k in refs.ids && IsRefName(u, c, k)
    ensures var r := FetchTables(u, documents, st, c, refs, keys, drawn);
      var calls := ListsFor(u, documents, st, c, refs, keys, drawn);
      && (r.Ok? <==> forall j :: 0 <= j < |keys| ==> calls[j].Ok?)
      && (r.Ok? ==> forall j :: 0 <= j < |keys| ==>
            r.value[keys[j]] == TableOf(TargetKey(u, c, keys[j]), calls[j].value))
  {
    var calls := ListsFor(u, documents, st, c, refs, keys, drawn);
    FetchTablesUnfold(u, documents, st, c, refs, keys, drawn);
    CollectPointwise(calls);
    if Collect(calls).Ok? {
      TablesFromPointwise(keys, TablesOf(u, c, keys, Collect(calls).value));
    }
  }

  /** `foreignObjects` is built from the list calls' results iff they all succeed. */
  lemma FetchTablesUnfold(u: Universe, documents: Documents, st: Store, c: ClassId, refs: RefIds,
                          keys: seq<string>, drawn: ObjectId)
    requires WellFormed(u) && c in u
    requires forall k :: k in keys ==> k in refs.ids && IsRefName(u, c, k)
    ensures var lists := Collect(ListsFor(u, documents, st, c, refs, keys, drawn));
      FetchTables(u, documents, st, c, refs, keys, drawn)
        == if lists.Ok? then Ok(TablesFrom(keys, TablesOf(u, c, keys, lists.value))) else Err(lists.error)
  {
  }


  /** The exception of the batch is the first failing list call's. */
  lemma FetchTablesFirstError(u: Universe, documents: Documents, st: Store, c: ClassId, refs: RefIds,
                              keys: seq<string>, drawn: ObjectId, j: nat)
    requires WellFormed(u) && c in u
    requires forall k :: k in keys ==> k in refs.ids && IsRefName(u, c, k)
    requires var calls := ListsFor(u, documents, st, c, refs, keys, drawn);
      j < |keys| && calls[j].Err? && forall i :: 0 <= i < j ==> calls[i].Ok?
    ensures FetchTables(u, documents, st, c, refs, keys, drawn) == Err(ListsFor(u, documents, st, c, refs, keys, drawn)[j].error)
  {
    CollectFirstError(ListsFor(u, documents, st, c, refs, keys, drawn), j);
  }


  /** A key of the dictionary holds the value of one of its occurrences. */
  lemma {:induction false} TablesFromLookup<V>(keys: seq<string>, values: seq<V>)
    requires |values| == |keys|
    ensures forall k :: k in TablesFrom(keys, values) ==>
      exists j :: 0 <= j < |keys| && keys[j] == k && TablesFrom(keys, values)[k] == values[j]
    decreases |keys|
  {
    if keys != [] {
      var n := |keys| - 1;
      TablesFromLookup(keys[..n], values[..n]);
      forall k | k in TablesFrom(keys, values)
        ensures exists j :: 0 <= j < |keys| && keys[j] == k && TablesFrom(keys, values)[k] == values[j]
      {
        if k != keys[n] {
          var j :| 0 <= j < n && keys[..n][j] == k && TablesFrom(keys[..n], values[..n])[k] == values[..n][j];
          assert keys[j] == k && values[j] == values[..n][j];
        }
      }
    }
  }

  /**
   * The id table answers exactly the ids of the listed objects, each with
   * one of the objects listed under that id.
   */
  lemma TableOfLookup(pk: string, objects: seq<Record>)
    ensures forall id :: id in TableOf(pk, objects) <==> id in IdsOf(pk, objects)
    ensures forall id :: id in TableOf(pk, objects) ==>
      exists i :: 0 <= i < |objects| && Stringify(Get(objects[i], pk)) == id && TableOf(pk, objects)[id] == Obj(objects[i])
  {
    TablesFromLookup(IdsOf(pk, objects), Objects(objects));
  }

  /** Field `k` is not set by the first pass over `fs`. */
  predicate Untouched(fs: seq<Field>, record: Record, k: string) {
    forall j :: 0 <= j < |fs| && fs[j].name == k ==> FirstPassValue(fs[j], Get(record, k)).None?
  }

  /** The first pass sets each field that has a first-pass value to that value. */
  lemma {:induction false} FirstPassOverSets(fs: seq<Field>, record: Record, item: Record)
    requires DistinctNames(fs)
    ensures var r := FirstPassOver(fs, record, item);
      forall j :: 0 <= j < |fs| && FirstPassValue(fs[j], Get(record, fs[j].name)).Some? ==>
        fs[j].name in r && r[fs[j].name] == FirstPassValue(fs[j], Get(record, fs[j].name)).value
    decreases |fs|
  {
    if fs != [] {
      var n := |fs| - 1;
      var p := fs[..n];
      assert DistinctNames(p) by {
        forall a, b | 0 <= a < b < |p| ensures p[a].name != p[b].name {
          assert p[a] == fs[a] && p[b] == fs[b];
        }
      }
      FirstPassOverSets(p, record, item);
      assert forall j :: 0 <= j < n ==> p[j] == fs[j];
    }
  }

  /** The first pass leaves every key it does not set as it was. */
  lemma {:induction false} FirstPassOverKeeps(fs: seq<Field>, record: Record, item: Record)
    ensures var r := FirstPassOver(fs, record, item);
      forall k :: Untouched(fs, record, k) ==> (k in r <==> k in item) && (k in item ==> r[k] == item[k])
    decreases |fs|
  {
    if fs != [] {
      var n := |fs| - 1;
      var p := fs[..n];
      FirstPassOverKeeps(p, record, item);
      forall k | Untouched(fs, record, k) ensures Untouched(p, record, k) {
        assert forall j :: 0 <= j < n ==> p[j] == fs[j];
      }
    }
  }

  lemma {:induction false} PatchOverFields(item: Record, record: Record, keys: seq<string>, tables: map<string, map<string, Value>>)
    requires forall k :: k in keys ==> k in tables
    ensures var r := PatchOver(item, record, keys, tables);
      && (forall k :: k in keys ==> k in r && r[k] == Resolved(tables[k], Get(record, k)))
      && (forall k :: k !in keys ==> (k in r <==> k in item) && (k in item ==> r[k] == item[k]))
    decreases |keys|
  {
    if keys != [] {
      var p := keys[..|keys| - 1];
      PatchOverFields(item, record, p, tables);
      assert keys == p + [keys[|keys| - 1]];
    }
  }

  /**
   * The value a listed item holds for field `f`, given the raw value `v` and
   * the tables built from the batched calls.
   */
  function ListedValue(f: Field, v: Value, tables: map<string, map<string, Value>>): Value {
    if f.primary then v
    else if f.refModel.Some? then
      if f.name in tables then Resolved(tables[f.name], v) else v
    else if f.foreignKey && !IsNullish(v) then Str(Stringify(v))
    else v
  }

  /** The names of `fields`. */
  function Names(fields: seq<Field>): set<string> {
    set f | f in fields :: f.name
  }

  /** What the list query promises of one item built from `record`. */
  predicate ListedItem(fields: seq<Field>, record: Record, tables: map<string, map<string, Value>>, item: Record) {
    && item.Keys == Names(fields)
    && forall f :: f in fields ==> f.name in item && item[f.name] == ListedValue(f, Get(record, f.name), tables)
  }

  /** The patch plan for `record`: each gathered key is a Document-typed field, and each such non-null field is gathered. */
  predicate PatchPlan(fields: seq<Field>, record: Record, keys: seq<string>, tables: map<string, map<string, Value>>) {
    && (forall k :: k in keys ==> k in tables && RefNameIn(OtherFields(fields), k))
    && tables.Keys == (set k | k in keys)
    && forall f :: f in fields && !f.primary && f.refModel.Some? && !IsNullish(Get(record, f.name)) ==> f.name in keys
  }

  /** With distinct names, a gathered key names only a non-primary Document-typed field. */
  lemma KeysAreRefFields(fields: seq<Field>, keys: seq<string>)
    requires DistinctNames(fields) && forall k :: k in keys ==> RefNameIn(OtherFields(fields), k)
    ensures forall f :: f in fields && f.name in keys ==> !f.primary && f.refModel.Some?
  {
    forall f | f in fields && f.name in keys ensures !f.primary && f.refModel.Some? {
      var g :| g in OtherFields(fields) && g.refModel.Some? && g.name == f.name;
      SameNameSameField(fields, f, g);
    }
  }

  /** The patched item holds every field of the class with its listed value. */
  lemma ItemValues(fields: seq<Field>, record: Record, keys: seq<string>, tables: map<string, map<string, Value>>)
    requires DistinctNames(fields) && PrimaryCount(fields) == 1 && PatchPlan(fields, record, keys, tables)
    ensures var item := PatchOver(FirstPassItem(fields, record), record, keys, tables);
      forall f :: f in fields ==> f.name in item && item[f.name] == ListedValue(f, Get(record, f.name), tables)
  {
    var first := FirstPassItem(fields, record);
    var item := PatchOver(first, record, keys, tables);
    KeysAreRefFields(fields, keys);
    PatchOverFields(first, record, keys, tables);
    forall f | f in fields
      ensures f.name in item && item[f.name] == ListedValue(f, Get(record, f.name), tables)
    {
      if f.name !in keys {
        FirstPassFieldValue(fields, record, f);
      }
    }
  }

  /** The first pass gives the primary field its raw value and every other field its first-pass value, if any. */
  lemma FirstPassFieldValue(fields: seq<Field>, record: Record, f: Field)
    requires DistinctNames(fields) && PrimaryCount(fields) == 1 && f in fields
    requires f.primary || FirstPassValue(f, Get(record, f.name)).Some?
    ensures var first := FirstPassItem(fields, record);
      && f.name in first
      && first[f.name] == if f.primary then Get(record, f.name) else FirstPassValue(f, Get(record, f.name)).value
  {
    var fs := OtherFields(fields);
    var pk := PrimaryField(fields);
    OtherFieldsDistinct(fields);
    if f.primary {
      PrimaryFieldUnique(fields, f);
      FirstPassOverKeeps(fs, record, map[pk.name := Get(record, pk.name)]);
      assert Untouched(fs, record, f.name) by {
        forall j | 0 <= j < |fs| && fs[j].name == f.name ensures false {
          assert fs[j] in fs;
          SameNameSameField(fields, f, fs[j]);
        }
      }
    } else {
      FirstPassOverSets(fs, record, map[pk.name := Get(record, pk.name)]);
      assert f in fs;
      var j :| 0 <= j < |fs| && fs[j] == f;
    }
  }

  /** The patched item holds no key other than the class's field names. */
  lemma ItemKeys(fields: seq<Field>, record: Record, keys: seq<string>, tables: map<string, map<string, Value>>)
    requires DistinctNames(fields) && PrimaryCount(fields) == 1 && PatchPlan(fields, record, keys, tables)
    ensures PatchOver(FirstPassItem(fields, record), record, keys, tables).Keys <= Names(fields)
  {
    var fs := OtherFields(fields);
    var pk := PrimaryField(fields);
    OtherFieldsDistinct(fields);
    var first := FirstPassItem(fields, record);
    FirstPassOverSets(fs, record, map[pk.name := Get(record, pk.name)]);
    FirstPassOverKeeps(fs, record, map[pk.name := Get(record, pk.name)]);
    PatchOverFields(first, record, keys, tables);
    var item := PatchOver(first, record, keys, tables);
    forall k | k in item ensures k in Names(fields) {
      if k !in keys {
        assert k in first;
        if k != pk.name {
          assert !Untouched(fs, record, k);
          var j :| 0 <= j < |fs| && fs[j].name == k && FirstPassValue(fs[j], Get(record, k)).Some?;
          assert fs[j] in fields;
        }
      } else {
        var g :| g in fs && g.refModel.Some? && g.name == k;
      }
    }
  }

  /** One item after the first pass and the patch is as `ListedItem` says. */
  lemma ListItemShape(fields: seq<Field>, record: Record, keys: seq<string>, tables: map<string, map<string, Value>>)
    requires DistinctNames(fields) && PrimaryCount(fields) == 1 && PatchPlan(fields, record, keys, tables)
    ensures ListedItem(fields, record, tables, PatchOver(FirstPassItem(fields, record), record, keys, tables))
  {
    ItemValues(fields, record, keys, tables);
    ItemKeys(fields, record, keys, tables);
  }

  /** Each item is the listed form of the record at the same position. */
  predicate ListedItems(fields: seq<Field>, records: seq<Record>, tables: map<string, map<string, Value>>, items: seq<Record>) {
    && |items| == |records|
    && forall i :: 0 <= i < |records| ==> ListedItem(fields, records[i], tables, items[i])
  }

  /** The first pass and the patch, with the gathered keys, build the listed form of every record. */
  lemma PatchedItems(u: Universe, c: ClassId, records: seq<Record>, tables: map<string, map<string, Value>>)
    requires WellFormed(u) && c in u
    requires tables.Keys == set k | k in Gather(u, c, records).fields
    ensures ListedItems(u[c].fields, records, tables,
                        Patched(FirstPassItems(u, c, records), records, Gather(u, c, records).fields, tables))
  {
    var fields := u[c].fields;
    var refs := Gather(u, c, records);
    assert WellFormedClass(u, c);
    GatherSpec(u, c, records);
    var items := Patched(FirstPassItems(u, c, records), records, refs.fields, tables);
    forall i | 0 <= i < |records| ensures ListedItem(fields, records[i], tables, items[i]) {
      forall f | f in fields && !f.primary && f.refModel.Some? && !IsNullish(Get(records[i], f.name))
        ensures f.name in refs.fields
      {
        assert f in OtherFields(fields);
        assert SeenIn(records, f.name);
      }
      ListItemShape(fields, records[i], refs.fields, tables);
    }
  }

  /**
   * `ListQuery.exec()` returns one item per fetched record, in fetch order;
   * each item has exactly the class's fields: the primary value, each
   * non-null Document reference replaced by the object its field's single
   * batched list call returned for that id (undefined if none), each
   * non-null foreign key as a string, and every other value copied.
   */
  lemma ListItems(u: Universe, documents: Documents, st: Store, model: ClassId, collection: CollectionKey,
                  filter: FilterCriteria, drawn: ObjectId)
    requires WellFormed(u) && model in u
    ensures var r := ListExecSpec(u, documents, st, model, collection, filter, drawn);
      r.Ok? ==>
        && Fetched(u, st, model, collection, filter, drawn).Ok?
        && var records := Fetched(u, st, model, collection, filter, drawn).value;
           var refs := Gather(u, model, records);
           && FetchTables(u, documents, st, model, refs, refs.fields, drawn).Ok?
           && ListedItems(u[model].fields, records, FetchTables(u, documents, st, model, refs, refs.fields, drawn).value, r.value)
  {
    var r := ListExecSpec(u, documents, st, model, collection, filter, drawn);
    if r.Ok? {
      var records := Fetched(u, st, model, collection, filter, drawn).value;
      var refs := Gather(u, model, records);
      PatchedItems(u, model, records, FetchTables(u, documents, st, model, refs, refs.fields, drawn).value);
    }
  }

  /** Records whose reference field holds the same id receive the same resolved object. */
  lemma ListSharesResolvedObjects(u: Universe, documents: Documents, st: Store, model: ClassId, collection: CollectionKey,
                                  filter: FilterCriteria, drawn: ObjectId, i: nat, j: nat, f: Field)
    requires WellFormed(u) && model in u
    requires ListExecSpec(u, documents, st, model, collection, filter, drawn).Ok?
    requires f in u[model].fields && !f.primary && f.refModel.Some?
    requires Fetched(u, st, model, collection, filter, drawn).Ok?
    requires var records := Fetched(u, st, model, collection, filter, drawn).value;
      && i < |records| && j < |records|
      && !IsNullish(Get(records[i], f.name)) && !IsNullish(Get(records[j], f.name))
      && Stringify(Get(records[i], f.name)) == Stringify(Get(records[j], f.name))
    ensures var items := ListExecSpec(u, documents, st, model, collection, filter, drawn).value;
      i < |items| && j < |items| && f.name in items[i] && f.name in items[j] && items[i][f.name] == items[j][f.name]
  {
    ListItems(u, documents, st, model, collection, filter, drawn);
    var records := Fetched(u, st, model, collection, filter, drawn).value;
    var refs := Gather(u, model, records);
    var tables := FetchTables(u, documents, st, model, refs, refs.fields, drawn).value;
    GatherSpec(u, model, records);
    assert f in OtherFields(u[model].fields) && SeenIn(records, f.name);
    SharedReferences(u[model].fields, records, tables, ListExecSpec(u, documents, st, model, collection, filter, drawn).value, i, j, f);
  }

  lemma SharedReferences(fields: seq<Field>, records: seq<Record>, tables: map<string, map<string, Value>>, items: seq<Record>,
                         i: nat, j: nat, f: Field)
    requires ListedItems(fields, records, tables, items) && i < |records| && j < |records|
    requires f in fields && !f.primary && f.refModel.Some? && f.name in tables
    requires !IsNullish(Get(records[i], f.name)) && !IsNullish(Get(records[j], f.name))
    requires Stringify(Get(records[i], f.name)) == Stringify(Get(records[j], f.name))
    ensures f.name in items[i] && f.name in items[j] && items[i][f.name] == items[j][f.name]
  {
    assert ListedItem(fields, records[i], tables, items[i]);
    assert ListedItem(fields, records[j], tables, items[j]);
  }
}
