/**
 * The `exec()` methods of the three read queries, written as the source
 * writes them (field loops, the first pass, the batched calls and the patch)
 * and each proved equal to its specification function.
 */
module QueryExec {
  import opened Wrappers
  import opened Values
  import opened Schema
  import opened Filter
  import opened MongoStore
  import opened Orm
  import opened Queries

  /** Writing one more mapped field onto the item extends it by that entry. */
  lemma ItemExtend(base: Record, fs: seq<Field>, vs: seq<Value>, v: Value, i: nat)
    requires i < |fs| && |vs| == i
    ensures base + RecordFrom(fs[..i + 1], vs + [v]) == (base + RecordFrom(fs[..i], vs))[fs[i].name := v]
  {
    RecordFromExtend(fs, vs, v, i);
  }

  /** One field of the item: a non-null Document reference is retrieved, a non-null foreign key turned into a string. */
  method MappedValueExec(u: Universe, documents: Documents, st: Store, c: ClassId, field: Field, record: Record)
    returns (mapped: Result<Value, OrmError>)
    requires WellFormed(u) && c in u && field in u[c].fields
    ensures mapped == MappedValue(u, documents, st, c, field, record)
    decreases c, 1
  {
    var v := Get(record, field.name);
    if field.refModel.Some? {
      if !IsNullish(v) {
        RefBelow(u, c, field);
        var found := RetrieveCallExec(u, documents, st, field.refModel.value, Stringify(v));
        if found.Err? {
          mapped := Err(found.error);
        } else {
          mapped := Ok(if found.value.Some? then Obj(found.value.value) else Undefined);
        }
      } else {
        mapped := Ok(v);
      }
    } else if field.foreignKey {
      if !IsNullish(v) {
        mapped := Ok(Str(Stringify(v)));
      } else {
        mapped := Ok(v);
      }
    } else {
      mapped := Ok(v);
    }
  }

  /** The mapping loop of `RetrieveQuery.exec()` and `LookupQuery.exec()`. */
  method MapRecordExec(u: Universe, documents: Documents, st: Store, c: ClassId, record: Record)
    returns (r: Result<Record, OrmError>)
    requires WellFormed(u) && c in u
    ensures r == MapRecord(u, documents, st, c, record)
    decreases c, 2
  {
    var pk := PrimaryOf(u, c).name;
    var otherFields := OtherFields(u[c].fields);
    ghost var rs := MappedValues(u, documents, st, c, otherFields, record);
    ghost var vs: seq<Value> := [];
    var item: Record := map[pk := Get(record, pk)];
    var i := 0;
    while i < |otherFields|
      invariant 0 <= i <= |otherFields|
      invariant Collect(rs[..i]) == Ok(vs) && |vs| == i
      invariant item == map[pk := Get(record, pk)] + RecordFrom(otherFields[..i], vs)
    {
      var field := otherFields[i];
      var mapped := MappedValueExec(u, documents, st, c, field, record);
      assert mapped == rs[i];
      if mapped.Err? {
        CollectStopsAt(rs, i);
        return Err(mapped.error);
      }
      CollectExtend(rs, i);
      ItemExtend(map[pk := Get(record, pk)], otherFields, vs, mapped.value, i);
      item := item[field.name := mapped.value];
      vs := vs + [mapped.value];
      i := i + 1;
    }
    assert rs[..i] == rs && otherFields[..i] == otherFields;
    r := Ok(item);
  }

  /** `RetrieveQuery.exec()` on `collection`. */
  method RetrieveExec(u: Universe, documents: Documents, st: Store, model: ClassId, collection: CollectionKey, id: string)
    returns (r: Result<Option<Record>, OrmError>)
    requires WellFormed(u) && model in u
    ensures r == RetrieveExecSpec(u, documents, st, model, collection, id)
    decreases model, 3
  {
    var parsed := ParseId(id);
    if parsed.None? {
      return Err(InvalidRecord(id));
    }
    ClassRefsResolve(u, model);
    var projection := BuildProjection(u[model].fields);
    var record := FindOne(st, collection, Single(Clause("_id", Eq, Oid(parsed.value))), projection);
    if record.None? {
      return Ok(None);
    }
    var item := MapRecordExec(u, documents, st, model, record.value);
    if item.Err? {
      return Err(item.error);
    }
    r := Ok(Some(item.value));
  }

  /** `orm.retrieve(model, id).exec()`: the locator, then the query. */
  method RetrieveCallExec(u: Universe, documents: Documents, st: Store, model: ClassId, id: string)
    returns (r: Result<Option<Record>, OrmError>)
    requires WellFormed(u) && model in u
    ensures r == RetrieveCall(u, documents, st, model, id)
    decreases model, 4
  {
    var locator := LocatorOf(u, documents, model);
    if locator.Err? {
      return Err(locator.error);
    }
    r := RetrieveExec(u, documents, st, model, locator.value.collection, id);
  }

  /** `LookupQuery.exec()` on `collection`. */
  method LookupExec(u: Universe, documents: Documents, st: Store, model: ClassId, collection: CollectionKey,
                    filter: FilterCriteria, drawn: ObjectId) returns (r: Result<Option<Record>, OrmError>)
    requires WellFormed(u) && model in u
    ensures r == LookupExecSpec(u, documents, st, model, collection, filter, drawn)
  {
    ClassRefsResolve(u, model);
    var projection := BuildProjection(u[model].fields);
    var select := SelectCriteriaFromFilterCriteria(u, u[model].fields, filter, drawn);
    if select.Err? {
      return Err(select.error);
    }
    var record := FindOne(st, collection, select.value, projection);
    if record.None? {
      return Ok(None);
    }
    var item := MapRecordExec(u, documents, st, model, record.value);
    if item.Err? {
      return Err(item.error);
    }
    r := Ok(Some(item.value));
  }

  // ---------------------------------------------------------------------
  // ListQuery.exec()
  // ---------------------------------------------------------------------

  /** One more field of the first pass: the item gains the field's first-pass value, if any, and `foreignKeys` its id, if any. */
  lemma FirstPassStep(fs: seq<Field>, k: nat, record: Record, base: Record, refs: RefIds)
    requires k < |fs|
    ensures var v := Get(record, fs[k].name);
      && FirstPassOver(fs[..k + 1], record, base)
         == (match FirstPassValue(fs[k], v)
             case None => FirstPassOver(fs[..k], record, base)
             case Some(w) => FirstPassOver(fs[..k], record, base)[fs[k].name := w])
      && GatherOver(fs[..k + 1], record, refs)
         == (if fs[k].refModel.Some? && !IsNullish(v) then AddRef(GatherOver(fs[..k], record, refs), fs[k].name, Stringify(v))
             else GatherOver(fs[..k], record, refs))
  {
    assert fs[..k + 1][..k] == fs[..k];
  }

  /** The inner loop of the first pass: one record's item, and its ids added to `foreignKeys`. */
  method FirstPassRecord(fields: seq<Field>, record: Record, foreignKeys: RefIds) returns (item: Record, keys: RefIds)
    requires PrimaryCount(fields) == 1
    ensures item == FirstPassItem(fields, record)
    ensures keys == GatherOver(OtherFields(fields), record, foreignKeys)
  {
    var primaryField := PrimaryField(fields);
    var otherFields := OtherFields(fields);
    item := map[primaryField.name := Get(record, primaryField.name)];
    keys := foreignKeys;
    var k := 0;
    while k < |otherFields|
      invariant 0 <= k <= |otherFields|
      invariant item == FirstPassOver(otherFields[..k], record, map[primaryField.name := Get(record, primaryField.name)])
      invariant keys == GatherOver(otherFields[..k], record, foreignKeys)
    {
      var field := otherFields[k];
      var v := Get(record, field.name);
      FirstPassStep(otherFields, k, record, map[primaryField.name := Get(record, primaryField.name)], foreignKeys);
      if field.refModel.Some? {
        if !IsNullish(v) {
          keys := AddRef(keys, field.name, Stringify(v));
        } else {
          item := item[field.name := v];
        }
      } else if field.foreignKey {
        if !IsNullish(v) {
          item := item[field.name := Str(Stringify(v))];
        } else {
          item := item[field.name := v];
        }
      } else {
        item := item[field.name := v];
      }
      k := k + 1;
    }
    assert otherFields[..k] == otherFields;
  }

  /** The first pass: one item per record, in order, and the `foreignKeys` dictionary. */
  method FirstPassExec(u: Universe, c: ClassId, records: seq<Record>) returns (items: seq<Record>, foreignKeys: RefIds)
    requires WellFormed(u) && c in u
    ensures items == FirstPassItems(u, c, records)
    ensures foreignKeys == Gather(u, c, records)
  {
    assert WellFormedClass(u, c);
    items := [];
    foreignKeys := RefIds([], map[]);
    var i := 0;
    while i < |records|
      invariant 0 <= i <= |records|
      invariant |items| == i && forall j :: 0 <= j < i ==> items[j] == FirstPassItem(u[c].fields, records[j])
      invariant foreignKeys == Gather(u, c, records[..i])
    {
      GatherStep(u, c, records, i);
      var item;
      item, foreignKeys := FirstPassRecord(u[c].fields, records[i], foreignKeys);
      items := items + [item];
      i := i + 1;
    }
    assert records[..i] == records;
  }

  /** Gathering one more record folds its reference fields into what was gathered before. */
  lemma GatherStep(u: Universe, c: ClassId, records: seq<Record>, i: nat)
    requires WellFormed(u) && c in u && i < |records|
    ensures Gather(u, c, records[..i + 1]) == GatherOver(OtherFields(u[c].fields), records[i], Gather(u, c, records[..i]))
  {
    assert records[..i + 1][..i] == records[..i];
  }

  /** `objectsDict`, built object by object. */
  method TableExec(pk: string, objects: seq<Record>) returns (objectsDict: map<string, Value>)
    ensures objectsDict == TableOf(pk, objects)
  {
    objectsDict := map[];
    var m := 0;
    while m < |objects|
      invariant 0 <= m <= |objects|
      invariant objectsDict == TableOf(pk, objects[..m])
    {
      var o := objects[m];
      var p := objects[..m + 1];
      assert IdsOf(pk, p)[..m] == IdsOf(pk, objects[..m]);
      assert Objects(p)[..m] == Objects(objects[..m]);
      objectsDict := objectsDict[Stringify(Get(o, pk)) := Obj(o)];
      m := m + 1;
    }
    assert objects[..m] == objects;
  }

  /** The tables of the first `j + 1` keys extend those of the first `j`. */
  lemma TablesOfExtend(u: Universe, c: ClassId, keys: seq<string>, lists: seq<seq<Record>>, l: seq<Record>, j: nat)
    requires WellFormed(u) && c in u && j < |keys| && |lists| == j
    requires forall k :: k in keys ==> IsRefName(u, c, k)
    ensures TablesFrom(keys[..j + 1], TablesOf(u, c, keys[..j + 1], lists + [l]))
         == TablesFrom(keys[..j], TablesOf(u, c, keys[..j], lists))[keys[j] := TableOf(TargetKey(u, c, keys[j]), l)]
  {
    var ts := TablesOf(u, c, keys[..j + 1], lists + [l]);
    assert keys[..j + 1][..j] == keys[..j];
    assert ts[..j] == TablesOf(u, c, keys[..j], lists);
  }

  /** `foreignObjects`: for each gathered field, in order, one list call on the ids and its table. */
  method FetchForeignExec(u: Universe, documents: Documents, st: Store, c: ClassId, foreignKeys: RefIds, drawn: ObjectId)
    returns (r: Result<map<string, map<string, Value>>, OrmError>)
    requires WellFormed(u) && c in u && PlanOK(u, c, foreignKeys)
    ensures r == FetchTables(u, documents, st, c, foreignKeys, foreignKeys.fields, drawn)
    decreases c, 2
  {
    var keys := foreignKeys.fields;
    ghost var rs := ListsFor(u, documents, st, c, foreignKeys, keys, drawn);
    ghost var lists: seq<seq<Record>> := [];
    var foreignObjects: map<string, map<string, Value>> := map[];
    var j := 0;
    while j < |keys|
      invariant 0 <= j <= |keys|
      invariant Collect(rs[..j]) == Ok(lists) && |lists| == j
      invariant foreignObjects == TablesFrom(keys[..j], TablesOf(u, c, keys[..j], lists))
    {
      var foreignKeyField := keys[j];
      var d := RefTarget(u, c, foreignKeyField);
      var filterFieldName := PrimaryOf(u, d).name + "__in";
      var objectsList := ListCallExec(u, documents, st, d, InFilter(u, d, foreignKeys.ids[foreignKeyField]), drawn);
      assert objectsList == rs[j];
      if objectsList.Err? {
        CollectStopsAt(rs, j);
        return Err(objectsList.error);
      }
      var objectsDict := TableExec(PrimaryOf(u, d).name, objectsList.value);
      CollectExtend(rs, j);
      TablesOfExtend(u, c, keys, lists, objectsList.value, j);
      foreignObjects := foreignObjects[foreignKeyField := objectsDict];
      lists := lists + [objectsList.value];
      j := j + 1;
    }
    assert rs[..j] == rs && keys[..j] == keys;
    r := Ok(foreignObjects);
  }

  /** The last loop: each gathered field of each item set to the listed object with its id. */
  method PatchExec(items: seq<Record>, records: seq<Record>, keys: seq<string>, foreignObjects: map<string, map<string, Value>>)
    returns (patched: seq<Record>)
    requires |items| == |records| && forall k :: k in keys ==> k in foreignObjects
    ensures patched == Patched(items, records, keys, foreignObjects)
  {
    patched := items;
    var i := 0;
    while i < |records|
      invariant 0 <= i <= |records| && |patched| == |items|
      invariant forall j :: 0 <= j < i ==> patched[j] == PatchOver(items[j], records[j], keys, foreignObjects)
      invariant forall j :: i <= j < |items| ==> patched[j] == items[j]
    {
      var record := records[i];
      var k := 0;
      while k < |keys|
        invariant 0 <= k <= |keys| && |patched| == |items|
        invariant forall j :: 0 <= j < i ==> patched[j] == PatchOver(items[j], records[j], keys, foreignObjects)
        invariant forall j :: i < j < |items| ==> patched[j] == items[j]
        invariant patched[i] == PatchOver(items[i], record, keys[..k], foreignObjects)
      {
        var foreignKeyField := keys[k];
        var foreignObjectId := Get(record, foreignKeyField);
        var value;
        if !IsNullish(foreignObjectId) {
          var table := foreignObjects[foreignKeyField];
          var foreignObjectIdString := Stringify(foreignObjectId);
          value := if foreignObjectIdString in table then table[foreignObjectIdString] else Undefined;
        } else {
          value := foreignObjectId;
        }
        assert keys[..k + 1][..k] == keys[..k];
        patched := patched[i := patched[i][foreignKeyField := value]];
        k := k + 1;
      }
      assert keys[..k] == keys;
      i := i + 1;
    }
  }

  /** `ListQuery.exec()` on `collection`. */
  method ListExec(u: Universe, documents: Documents, st: Store, model: ClassId, collection: CollectionKey,
                  filter: FilterCriteria, drawn: ObjectId) returns (r: Result<seq<Record>, OrmError>)
    requires WellFormed(u) && model in u
    ensures r == ListExecSpec(u, documents, st, model, collection, filter, drawn)
    decreases model, 3
  {
    ClassRefsResolve(u, model);
    var projection := BuildProjection(u[model].fields);
    var select := SelectCriteriaFromFilterCriteria(u, u[model].fields, filter, drawn);
    if select.Err? {
      return Err(select.error);
    }
    var records := Find(st, collection, select.value, projection);
    var items, foreignKeys := FirstPassExec(u, model, records);
    var foreignObjects := FetchForeignExec(u, documents, st, model, foreignKeys, drawn);
    if foreignObjects.Err? {
      return Err(foreignObjects.error);
    }
    var patched := PatchExec(items, records, foreignKeys.fields, foreignObjects.value);
    r := Ok(patched);
  }

  /** `orm.list(model, filter).exec()`: the locator, then the query. */
  method ListCallExec(u: Universe, documents: Documents, st: Store, model: ClassId, filter: FilterCriteria, drawn: ObjectId)
    returns (r: Result<seq<Record>, OrmError>)
    requires WellFormed(u) && model in u
    ensures r == ListCall(u, documents, st, model, filter, drawn)
    decreases model, 4
  {
    var locator := LocatorOf(u, documents, model);
    if locator.Err? {
      return Err(locator.error);
    }
    r := ListExec(u, documents, st, model, locator.value.collection, filter, drawn);
  }
}
