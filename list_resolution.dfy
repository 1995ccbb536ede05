/**
 * Batched reference resolution in `ListQuery.exec()` agrees with direct
 * retrieval: every non-null Document reference of a listed item is the
 * object `orm.retrieve(refModel, id).exec()` returns for that id, or
 * undefined when that retrieval finds nothing. The proof is by induction
 * on the class number, which references strictly decrease.
 */
module ListResolution {
  import opened Wrappers
  import opened Values
  import opened Schema
  import opened Filter
  import opened MongoStore
  import opened Orm
  import opened Queries

  // ---------------------------------------------------------------------
  // What the store and the descriptors must hold
  // ---------------------------------------------------------------------

  /** No two documents of the collection share an `_id`. */
  predicate DistinctIds(docs: seq<Record>) {
    forall i, j :: 0 <= i < j < |docs| ==> Get(docs[i], "_id") != Get(docs[j], "_id")
  }

  /** A store identifier's text is its hex string. */
  lemma OidText(v: Value)
    requires v.Oid?
    ensures Stringify(v) == v.id.hex
  {
  }

  /** A Document reference as the mapper stores it: null, absent, or a store identifier. */
  predicate StoredRef(v: Value) {
    IsNullish(v) || (v.Oid? && ValidId(v.id))
  }

  /** Every record holds each non-primary Document-typed field of `fields` as a stored reference. */
  predicate RefsStored(fields: seq<Field>, records: seq<Record>) {
    forall i, f :: 0 <= i < |records| && f in fields && !f.primary && f.refModel.Some? ==>
      StoredRef(Get(records[i], f.name))
  }

  /**
   * Every collection a class reads from has distinct `_id`s and holds the
   * class's references as the mapper stores them.
   */
  predicate StoreConsistent(u: Universe, documents: Documents, st: Store)
    requires WellFormed(u)
  {
    forall c :: c in u && LocatorOf(u, documents, c).Ok? ==>
      var docs := Contents(st, LocatorOf(u, documents, c).value.collection);
      DistinctIds(docs) && RefsStored(u[c].fields, docs)
  }

  /** A name `name + "__in"` splits back into: no `__` inside, and no trailing `_`. */
  predicate PlainName(s: string) {
    !HasSep(s) && (|s| == 0 || s[|s| - 1] != '_')
  }

  /** Every class's primary field has a plain name. */
  predicate PlainPrimaryNames(u: Universe)
    requires WellFormed(u)
  {
    forall d :: d in u ==> PlainName(PrimaryOf(u, d).name)
  }

  /** The batched key `pk + "__in"` names the primary field under `in`. */
  lemma BatchKeySplit(pk: string)
    requires PlainName(pk)
    ensures SplitKey(pk + "__in") == (pk, "in")
  {
    var key := pk + "__in";
    var n := |pk|;
    assert SepAt(key, n);
    forall j | 0 <= j < n ensures !SepAt(key, j) {
      if j + 1 < n {
        assert key[j] == pk[j] && key[j + 1] == pk[j + 1];
        assert !SepAt(pk, j);
      } else {
        assert key[j] == pk[n - 1];
      }
    }
    var first := FirstSep(key);
    assert first == Some(n);
    assert key[n + 2..] == "in";
  }

  // ---------------------------------------------------------------------
  // The batched call's selector and the projected records
  // ---------------------------------------------------------------------

  /** The `_id` of `doc` is the identifier one of `ids` names. */
  predicate IdAmong(doc: Record, ids: seq<string>) {
    exists k :: 0 <= k < |ids| && IsObjectIdHex(ids[k]) && Get(doc, "_id") == Oid(ObjectId(Canonical(ids[k])))
  }

  /** The filter `{ [primary + '__in']: ids }` compiles to one `_id $in` clause over the ids as identifiers. */
  lemma InSelectorClause(u: Universe, fields: seq<Field>, ids: seq<string>, drawn: ObjectId)
    requires WellFormed(u) && RefsResolve(u, fields) && PrimaryCount(fields) == 1 && DistinctNames(fields)
    requires PlainName(PrimaryField(fields).name)
    ensures var r := CompileFilter(u, fields, Some([(PrimaryField(fields).name + "__in", Arr(IdValues(ids)))]), drawn);
      r.Ok? ==>
        && r.value.Single? && r.value.clause.field == "_id" && r.value.clause.op == In
        && r.value.clause.value.Arr? && |r.value.clause.value.items| == |ids|
        && forall k :: 0 <= k < |ids| ==>
             IsObjectIdHex(ids[k]) && r.value.clause.value.items[k] == Oid(ObjectId(Canonical(ids[k])))
  {
    var pk := PrimaryField(fields);
    var key := pk.name + "__in";
    var xs := IdValues(ids);
    var filter := Some([(key, Arr(xs))]);
    BatchKeySplit(pk.name);
    var n := IndexOf(fields, pk);
    FieldNamedFinds(fields, n);
    PrimaryInCoerces(u, fields, key, xs, drawn);
    CompileFilterShape(u, fields, filter, drawn);
  }

  /** An `_id $in` clause over the ids as identifiers matches exactly the documents `IdAmong` names. */
  lemma InClauseMatches(st: Store, c: Clause, ids: seq<string>, doc: Record)
    requires c.field == "_id" && c.op == In && c.value.Arr? && |c.value.items| == |ids|
    requires forall k :: 0 <= k < |ids| ==> IsObjectIdHex(ids[k]) && c.value.items[k] == Oid(ObjectId(Canonical(ids[k])))
    ensures ClauseMatches(st, c, doc) <==> IdAmong(doc, ids)
  {
    if ClauseMatches(st, c, doc) {
      var k :| 0 <= k < |c.value.items| && EqualsOperand(Get(doc, "_id"), c.value.items[k]);
      assert Get(doc, "_id") == Oid(ObjectId(Canonical(ids[k])));
    }
    if IdAmong(doc, ids) {
      var k :| 0 <= k < |ids| && IsObjectIdHex(ids[k]) && Get(doc, "_id") == Oid(ObjectId(Canonical(ids[k])));
      assert EqualsOperand(Get(doc, "_id"), c.value.items[k]);
    }
  }

  /**
   * The filter `{ [primary + '__in']: ids }`, when it compiles, selects exactly
   * the documents whose `_id` one of the ids names.
   */
  lemma InSelectorMatches(u: Universe, fields: seq<Field>, st: Store, ids: seq<string>, drawn: ObjectId)
    requires WellFormed(u) && RefsResolve(u, fields) && PrimaryCount(fields) == 1 && DistinctNames(fields)
    requires PlainName(PrimaryField(fields).name)
    ensures var r := CompileFilter(u, fields, Some([(PrimaryField(fields).name + "__in", Arr(IdValues(ids)))]), drawn);
      r.Ok? ==> forall doc :: Matches(st, r.value, doc) <==> IdAmong(doc, ids)
  {
    InSelectorClause(u, fields, ids, drawn);
    var r := CompileFilter(u, fields, Some([(PrimaryField(fields).name + "__in", Arr(IdValues(ids)))]), drawn);
    if r.Ok? {
      forall doc ensures Matches(st, r.value, doc) <==> IdAmong(doc, ids) {
        MatchesSingle(st, r.value.clause, doc);
        InClauseMatches(st, r.value.clause, ids, doc);
      }
    }
  }

  /** A projected record holds a non-primary field exactly as the document does. */
  lemma ProjectedField(fields: seq<Field>, f: Field, doc: Record)
    requires PrimaryCount(fields) == 1 && DistinctNames(fields) && f in fields && !f.primary
    ensures Get(Project(ProjectionOf(fields), doc), f.name) == Get(doc, f.name)
  {
    var pk := PrimaryField(fields);
    var fs := OtherFields(fields);
    assert f in fs;
    IncludeAllKeys(map["_id" := Exclude][pk.name := IdString], fs);
  }

  /** The records a list over a consistent store fetches hold their references as identifiers. */
  lemma FetchedRefsStored(u: Universe, documents: Documents, st: Store, c: ClassId, filter: FilterCriteria, drawn: ObjectId)
    requires WellFormed(u) && c in u && StoreConsistent(u, documents, st) && LocatorOf(u, documents, c).Ok?
    requires Fetched(u, st, c, LocatorOf(u, documents, c).value.collection, filter, drawn).Ok?
    ensures RefsStored(u[c].fields, Fetched(u, st, c, LocatorOf(u, documents, c).value.collection, filter, drawn).value)
  {
    var coll := LocatorOf(u, documents, c).value.collection;
    var docs := Contents(st, coll);
    assert WellFormedClass(u, c);
    ClassRefsResolve(u, c);
    var select := CompileFilter(u, u[c].fields, filter, drawn).value;
    var p := ProjectionOf(u[c].fields);
    var chosen := Select(st, select, docs);
    var records := Fetched(u, st, c, coll, filter, drawn).value;
    assert records == ProjectAll(p, chosen);
    forall i, f | 0 <= i < |records| && f in u[c].fields && !f.primary && f.refModel.Some?
      ensures StoredRef(Get(records[i], f.name))
    {
      assert chosen[i] in chosen;
      var j := IndexOf(docs, chosen[i]);
      ProjectedField(u[c].fields, f, chosen[i]);
    }
  }

  /** Two items that are both the listed form of one record are the same item. */
  lemma ListedItemUnique(fields: seq<Field>, record: Record, tables: map<string, map<string, Value>>, a: Record, b: Record)
    requires ListedItem(fields, record, tables, a) && ListedItem(fields, record, tables, b)
    ensures a == b
  {
    forall k | k in a ensures a[k] == b[k] {
      var f :| f in fields && f.name == k;
    }
  }

  /** A successful list call: its locator, its fetched records, its tables and its listed items. */
  lemma ListCallParts(u: Universe, documents: Documents, st: Store, d: ClassId, filter: FilterCriteria, drawn: ObjectId)
    requires WellFormed(u) && d in u && ListCall(u, documents, st, d, filter, drawn).Ok?
    ensures LocatorOf(u, documents, d).Ok?
    ensures var coll := LocatorOf(u, documents, d).value.collection;
      && ListCall(u, documents, st, d, filter, drawn) == ListExecSpec(u, documents, st, d, coll, filter, drawn)
      && Fetched(u, st, d, coll, filter, drawn).Ok?
      && var records := Fetched(u, st, d, coll, filter, drawn).value;
         var refs := Gather(u, d, records);
         && FetchTables(u, documents, st, d, refs, refs.fields, drawn).Ok?
         && ListedItems(u[d].fields, records, FetchTables(u, documents, st, d, refs, refs.fields, drawn).value,
                        ListCall(u, documents, st, d, filter, drawn).value)
  {
    ListItems(u, documents, st, d, LocatorOf(u, documents, d).value.collection, filter, drawn);
  }

  /**
   * The records of the batched call are the projections of the documents it
   * selected; an item is keyed by `w`'s string iff its document's `_id` is `w`.
   */
  lemma ListedKeys(fields: seq<Field>, chosen: seq<Record>, records: seq<Record>, tables: map<string, map<string, Value>>,
                   items: seq<Record>, ids: seq<string>, w: ObjectId)
    requires PrimaryCount(fields) == 1 && DistinctNames(fields)
    requires records == ProjectAll(ProjectionOf(fields), chosen) && forall m :: 0 <= m < |chosen| ==> IdAmong(chosen[m], ids)
    requires ListedItems(fields, records, tables, items)
    ensures forall m :: 0 <= m < |items| ==>
      (Stringify(Get(items[m], PrimaryField(fields).name)) == w.hex <==> Get(chosen[m], "_id") == Oid(w))
  {
    var pk := PrimaryField(fields);
    ProjectionPrimary(fields);
    forall m | 0 <= m < |items|
      ensures Stringify(Get(items[m], pk.name)) == w.hex <==> Get(chosen[m], "_id") == Oid(w)
    {
      assert ListedItem(fields, records[m], tables, items[m]);
      var k :| 0 <= k < |ids| && IsObjectIdHex(ids[k]) && Get(chosen[m], "_id") == Oid(ObjectId(Canonical(ids[k])));
      assert Get(items[m], pk.name) == Str(Canonical(ids[k]));
    }
  }

  /**
   * The id table has no entry for `w`'s string when no document has `_id` `w`;
   * when the selected document `docs[q]` has it, the entry is the item built
   * from that document.
   */
  lemma TableEntry(pk: string, items: seq<Record>, chosen: seq<Record>, docs: seq<Record>, w: ObjectId, q: int)
    returns (m: nat)
    requires |chosen| == |items| && DistinctIds(docs)
    requires forall n :: 0 <= n < |chosen| ==> chosen[n] in docs
    requires forall n :: 0 <= n < |items| ==> (Stringify(Get(items[n], pk)) == w.hex <==> Get(chosen[n], "_id") == Oid(w))
    requires 0 <= q < |docs| ==> docs[q] in chosen
    ensures q < 0 || |docs| <= q ==>
      (forall n :: 0 <= n < |docs| ==> Get(docs[n], "_id") != Oid(w)) ==> w.hex !in TableOf(pk, items)
    ensures 0 <= q < |docs| && Get(docs[q], "_id") == Oid(w) ==>
      && m < |items| && chosen[m] == docs[q]
      && w.hex in TableOf(pk, items) && TableOf(pk, items)[w.hex] == Obj(items[m])
  {
    TableOfLookup(pk, items);
    if 0 <= q < |docs| && Get(docs[q], "_id") == Oid(w) {
      var n := IndexOf(chosen, docs[q]);
      assert w.hex in IdsOf(pk, items) by {
        assert IdsOf(pk, items)[n] == w.hex;
      }
      var m2 :| 0 <= m2 < |items| && Stringify(Get(items[m2], pk)) == w.hex && TableOf(pk, items)[w.hex] == Obj(items[m2]);
      var q2 := IndexOf(docs, chosen[m2]);
      assert q2 == q;
      m := m2;
    } else {
      m := 0;
      if w.hex in TableOf(pk, items) && forall n :: 0 <= n < |docs| ==> Get(docs[n], "_id") != Oid(w) {
        var m2 :| 0 <= m2 < |items| && Stringify(Get(items[m2], pk)) == w.hex && TableOf(pk, items)[w.hex] == Obj(items[m2]);
        var q2 := IndexOf(docs, chosen[m2]);
      }
    }
  }

  /** `orm.retrieve(d, id).exec()` for a store identifier: a `findOne` on `_id`, mapped. */
  lemma RetrieveById(u: Universe, documents: Documents, st: Store, d: ClassId, w: ObjectId)
    requires WellFormed(u) && d in u && LocatorOf(u, documents, d).Ok? && ValidId(w)
    ensures PrimaryCount(u[d].fields) == 1
    ensures var found := FindOne(st, LocatorOf(u, documents, d).value.collection, Single(Clause("_id", Eq, Oid(w))),
                           ProjectionOf(u[d].fields));
      RetrieveCall(u, documents, st, d, w.hex)
        == match found
           case None => Ok(None)
           case Some(record) =>
             match MapRecord(u, documents, st, d, record)
             case Ok(x) => Ok(Some(x))
             case Err(e) => Err(e)
  {
    ClassRefsResolve(u, d);
    assert ParseId(w.hex) == Some(w);
  }

  // ---------------------------------------------------------------------
  // The induction
  // ---------------------------------------------------------------------

  /**
   * For records whose batch of list calls succeeds, mapping each record as
   * `retrieve` does succeeds and gives the item the list query builds.
   */
  lemma {:induction false} ListedAsMapped(u: Universe, documents: Documents, st: Store, c: ClassId,
                                          records: seq<Record>, drawn: ObjectId, i: nat)
    requires WellFormed(u) && c in u && StoreConsistent(u, documents, st) && PlainPrimaryNames(u)
    requires RefsStored(u[c].fields, records) && i < |records|
    requires var refs := Gather(u, c, records); FetchTables(u, documents, st, c, refs, refs.fields, drawn).Ok?
    decreases c, 1
    ensures MapRecord(u, documents, st, c, records[i]).Ok?
    ensures var refs := Gather(u, c, records);
      ListedItem(u[c].fields, records[i], FetchTables(u, documents, st, c, refs, refs.fields, drawn).value,
                 MapRecord(u, documents, st, c, records[i]).value)
  {
    var fields := u[c].fields;
    var record := records[i];
    var refs := Gather(u, c, records);
    var tables := FetchTables(u, documents, st, c, refs, refs.fields, drawn).value;
    assert WellFormedClass(u, c);
    forall f | f in fields && !f.primary
      ensures MappedValue(u, documents, st, c, f, record) == Ok(ListedValue(f, Get(record, f.name), tables))
    {
      if f.refModel.None? {
        PlainFieldsMapAlike(u, documents, st, c, f, record, tables);
      } else if !IsNullish(Get(record, f.name)) {
        RefMappedAsListed(u, documents, st, c, records, drawn, i, f);
      }
    }
    MapRecordFields(u, documents, st, c, record);
    var item := MapRecord(u, documents, st, c, record).value;
    forall f | f in fields ensures f.name in item && item[f.name] == ListedValue(f, Get(record, f.name), tables) {
      if f.primary {
        PrimaryFieldUnique(fields, f);
      }
    }
  }

  /** A non-null reference of a record is gathered under its field's name. */
  lemma GatheredRef(u: Universe, c: ClassId, records: seq<Record>, i: nat, f: Field)
    requires WellFormed(u) && c in u && i < |records|
    requires f in u[c].fields && !f.primary && f.refModel.Some? && !IsNullish(Get(records[i], f.name))
    ensures var refs := Gather(u, c, records);
      && RefIdsOK(refs)
      && f.name in refs.fields && f.name in refs.ids
      && Stringify(Get(records[i], f.name)) in refs.ids[f.name]
  {
    var fields := u[c].fields;
    GatherSpec(u, c, records);
    assert f in OtherFields(fields);
    assert RefNameIn(OtherFields(fields), f.name);
    assert SeenAs(records, f.name, Stringify(Get(records[i], f.name)));
    assert SeenIn(records, f.name);
  }

  /** The table of a gathered reference field is that of its one list call, which succeeded. */
  lemma RefTable(u: Universe, documents: Documents, st: Store, c: ClassId, refs: RefIds, drawn: ObjectId, f: Field)
    requires WellFormed(u) && c in u && PlanOK(u, c, refs) && RefIdsOK(refs)
    requires f in u[c].fields && f.refModel.Some? && f.name in refs.fields
    requires FetchTables(u, documents, st, c, refs, refs.fields, drawn).Ok?
    ensures f.refModel.value in u && f.refModel.value < c
    ensures ListCall(u, documents, st, f.refModel.value, InFilter(u, f.refModel.value, refs.ids[f.name]), drawn).Ok?
    ensures FetchTables(u, documents, st, c, refs, refs.fields, drawn).value[f.name]
      == TableOf(PrimaryOf(u, f.refModel.value).name,
                 ListCall(u, documents, st, f.refModel.value, InFilter(u, f.refModel.value, refs.ids[f.name]), drawn).value)
  {
    RefBelow(u, c, f);
    RefFieldNamed(u, c, f);
    var calls := ListsFor(u, documents, st, c, refs, refs.fields, drawn);
    FetchTablesPointwise(u, documents, st, c, refs, refs.fields, drawn);
    var j := IndexOf(refs.fields, f.name);
    assert calls[j] == ListCall(u, documents, st, f.refModel.value, InFilter(u, f.refModel.value, refs.ids[f.name]), drawn);
  }

  /**
   * A non-null reference: `retrieve` on its id succeeds, and the object it
   * returns (or undefined) is the batched table's entry for that id.
   */
  lemma {:induction false} RefMappedAsListed(u: Universe, documents: Documents, st: Store, c: ClassId,
                                             records: seq<Record>, drawn: ObjectId, i: nat, f: Field)
    requires WellFormed(u) && c in u && StoreConsistent(u, documents, st) && PlainPrimaryNames(u)
    requires RefsStored(u[c].fields, records) && i < |records|
    requires var refs := Gather(u, c, records); FetchTables(u, documents, st, c, refs, refs.fields, drawn).Ok?
    requires f in u[c].fields && !f.primary && f.refModel.Some? && !IsNullish(Get(records[i], f.name))
    decreases c, 0
    ensures var refs := Gather(u, c, records);
      MappedValue(u, documents, st, c, f, records[i])
        == Ok(ListedValue(f, Get(records[i], f.name), FetchTables(u, documents, st, c, refs, refs.fields, drawn).value))
  {
    var v := Get(records[i], f.name);
    assert StoredRef(v);
    var w := v.id;
    var refs := Gather(u, c, records);
    var d := f.refModel.value;
    RefBelow(u, c, f);
    GatheredRef(u, c, records, i, f);
    RefTable(u, documents, st, c, refs, drawn, f);
    var ids := refs.ids[f.name];
    var listed := ListCall(u, documents, st, d, InFilter(u, d, ids), drawn);
    assert listed.Ok?;
    OidText(v);
    assert w.hex in ids;
    ListedAsRetrieved(u, documents, st, d, ids, drawn, w);
    var tables := FetchTables(u, documents, st, c, refs, refs.fields, drawn).value;
    var table := TableOf(PrimaryOf(u, d).name, listed.value);
    assert tables[f.name] == table;
    assert ListedValue(f, v, tables) == Resolved(table, v);
    var r := RetrieveCall(u, documents, st, d, w.hex);
    assert MappedValue(u, documents, st, c, f, records[i]) == Ok(if r.value.Some? then Obj(r.value.value) else Undefined);
  }

  /**
   * What a successful list over `ids` selected: the documents whose `_id` one
   * of the ids names, projected into its records, and listed as items keyed
   * by those `_id`s.
   */
  lemma ListedSelection(u: Universe, documents: Documents, st: Store, d: ClassId, ids: seq<string>, drawn: ObjectId,
                        w: ObjectId)
    returns (chosen: seq<Record>)
    requires WellFormed(u) && d in u && PlainPrimaryNames(u)
    requires ListCall(u, documents, st, d, InFilter(u, d, ids), drawn).Ok?
    ensures LocatorOf(u, documents, d).Ok? && PrimaryCount(u[d].fields) == 1
    ensures Fetched(u, st, d, LocatorOf(u, documents, d).value.collection, InFilter(u, d, ids), drawn).Ok?
    ensures var coll := LocatorOf(u, documents, d).value.collection;
      var items := ListCall(u, documents, st, d, InFilter(u, d, ids), drawn).value;
      var records := Fetched(u, st, d, coll, InFilter(u, d, ids), drawn).value;
      && (forall doc :: doc in chosen <==> doc in Contents(st, coll) && IdAmong(doc, ids))
      && records == ProjectAll(ProjectionOf(u[d].fields), chosen) && |items| == |chosen|
      && forall n :: 0 <= n < |items| ==>
           (Stringify(Get(items[n], PrimaryOf(u, d).name)) == w.hex <==> Get(chosen[n], "_id") == Oid(w))
  {
    var fields := u[d].fields;
    assert WellFormedClass(u, d);
    ClassRefsResolve(u, d);
    var filter := InFilter(u, d, ids);
    ListCallParts(u, documents, st, d, filter, drawn);
    var coll := LocatorOf(u, documents, d).value.collection;
    var items := ListCall(u, documents, st, d, filter, drawn).value;
    var records := Fetched(u, st, d, coll, filter, drawn).value;
    var refs := Gather(u, d, records);
    var tables := FetchTables(u, documents, st, d, refs, refs.fields, drawn).value;
    var sel := CompileFilter(u, fields, filter, drawn).value;
    chosen := Select(st, sel, Contents(st, coll));
    assert records == ProjectAll(ProjectionOf(fields), chosen);
    InSelectorMatches(u, fields, st, ids, drawn);
    ListedKeys(fields, chosen, records, tables, items, ids, w);
  }

  /**
   * The id table of a successful list over ids including `w.hex` has no entry
   * for it when no document has `_id` `w`; otherwise its entry is the item
   * listed from the record `findOne` on `_id` `w` returns.
   */
  lemma ListedTable(u: Universe, documents: Documents, st: Store, d: ClassId, ids: seq<string>, drawn: ObjectId, w: ObjectId)
    returns (m: nat)
    requires WellFormed(u) && d in u && StoreConsistent(u, documents, st) && PlainPrimaryNames(u)
    requires ValidId(w) && w.hex in ids
    requires ListCall(u, documents, st, d, InFilter(u, d, ids), drawn).Ok?
    ensures LocatorOf(u, documents, d).Ok? && PrimaryCount(u[d].fields) == 1
    ensures Fetched(u, st, d, LocatorOf(u, documents, d).value.collection, InFilter(u, d, ids), drawn).Ok?
    ensures var coll := LocatorOf(u, documents, d).value.collection;
      var found := FindOne(st, coll, Single(Clause("_id", Eq, Oid(w))), ProjectionOf(u[d].fields));
      var items := ListCall(u, documents, st, d, InFilter(u, d, ids), drawn).value;
      var records := Fetched(u, st, d, coll, InFilter(u, d, ids), drawn).value;
      var table := TableOf(PrimaryOf(u, d).name, items);
      && (found.None? ==> w.hex !in table)
      && (found.Some? ==>
            && m < |records| && m < |items| && found.value == records[m]
            && w.hex in table && table[w.hex] == Obj(items[m]))
  {
    var chosen := ListedSelection(u, documents, st, d, ids, drawn, w);
    var coll := LocatorOf(u, documents, d).value.collection;
    var filter := InFilter(u, d, ids);
    assert DistinctIds(Contents(st, coll));
    m := FoundInTable(st, coll, ProjectionOf(u[d].fields), ids, w, PrimaryOf(u, d).name, chosen,
                      Fetched(u, st, d, coll, filter, drawn).value, ListCall(u, documents, st, d, filter, drawn).value);
  }

  /**
   * The selection side of `ListedTable`: from the documents the batched call
   * chose and the items keyed by their `_id`s to `findOne` on `_id` `w`.
   */
  lemma FoundInTable(st: Store, coll: CollectionKey, p: Projection, ids: seq<string>, w: ObjectId, pk: string,
                     chosen: seq<Record>, records: seq<Record>, items: seq<Record>)
    returns (m: nat)
    requires ValidId(w) && w.hex in ids && DistinctIds(Contents(st, coll))
    requires forall doc :: doc in chosen <==> doc in Contents(st, coll) && IdAmong(doc, ids)
    requires records == ProjectAll(p, chosen) && |items| == |chosen|
    requires forall n :: 0 <= n < |items| ==> (Stringify(Get(items[n], pk)) == w.hex <==> Get(chosen[n], "_id") == Oid(w))
    ensures var found := FindOne(st, coll, Single(Clause("_id", Eq, Oid(w))), p);
      var table := TableOf(pk, items);
      && (found.None? ==> w.hex !in table)
      && (found.Some? ==>
            && m < |records| && m < |items| && found.value == records[m]
            && w.hex in table && table[w.hex] == Obj(items[m]))
  {
    var docs := Contents(st, coll);
    var byId := Single(Clause("_id", Eq, Oid(w)));
    FindOneIsFirstMatch(st, coll, byId, p);
    forall n | 0 <= n < |docs| ensures Matches(st, byId, docs[n]) <==> Get(docs[n], "_id") == Oid(w) {
      MatchesSingle(st, Clause("_id", Eq, Oid(w)), docs[n]);
    }
    if FindOne(st, coll, byId, p).None? {
      m := TableEntry(pk, items, chosen, docs, w, -1);
    } else {
      var q :| 0 <= q < |docs| && Matches(st, byId, docs[q]) && FirstMatchAt(st, byId, docs, q);
      var k := IndexOf(ids, w.hex);
      assert IdAmong(docs[q], ids);
      m := TableEntry(pk, items, chosen, docs, w, q);
    }
  }

  /**
   * For a list over ids including `w.hex` that succeeds, retrieving `w.hex`
   * succeeds; it finds nothing iff the list's id table has no entry for it,
   * and otherwise the entry is the object retrieved.
   */
  lemma {:induction false} ListedAsRetrieved(u: Universe, documents: Documents, st: Store, d: ClassId,
                                             ids: seq<string>, drawn: ObjectId, w: ObjectId)
    requires WellFormed(u) && d in u && StoreConsistent(u, documents, st) && PlainPrimaryNames(u)
    requires ValidId(w) && w.hex in ids
    requires ListCall(u, documents, st, d, InFilter(u, d, ids), drawn).Ok?
    decreases d, 2
    ensures var r := RetrieveCall(u, documents, st, d, w.hex);
      var table := TableOf(PrimaryOf(u, d).name, ListCall(u, documents, st, d, InFilter(u, d, ids), drawn).value);
      && r.Ok?
      && (r.value.None? ==> w.hex !in table)
      && (r.value.Some? ==> w.hex in table && table[w.hex] == Obj(r.value.value))
  {
    var filter := InFilter(u, d, ids);
    ListCallParts(u, documents, st, d, filter, drawn);
    var m := ListedTable(u, documents, st, d, ids, drawn, w);
    RetrieveById(u, documents, st, d, w);
    var coll := LocatorOf(u, documents, d).value.collection;
    FetchedRefsStored(u, documents, st, d, filter, drawn);
    var found := FindOne(st, coll, Single(Clause("_id", Eq, Oid(w))), ProjectionOf(u[d].fields));
    if found.Some? {
      var items := ListCall(u, documents, st, d, filter, drawn).value;
      var records := Fetched(u, st, d, coll, filter, drawn).value;
      var refs := Gather(u, d, records);
      var tables := FetchTables(u, documents, st, d, refs, refs.fields, drawn).value;
      ListedAsMapped(u, documents, st, d, records, drawn, m);
      var x := MapRecord(u, documents, st, d, records[m]).value;
      assert ListedItem(u[d].fields, records[m], tables, items[m]);
      ListedItemUnique(u[d].fields, records[m], tables, items[m], x);
    }
  }

  // ---------------------------------------------------------------------
  // The property
  // ---------------------------------------------------------------------

  /** The records `orm.list(model, filter).exec()` fetched, one per item. */
  function ListedRecords(u: Universe, documents: Documents, st: Store, c: ClassId, filter: FilterCriteria,
                         drawn: ObjectId): (records: seq<Record>)
    requires WellFormed(u) && c in u && ListCall(u, documents, st, c, filter, drawn).Ok?
    ensures |records| == |ListCall(u, documents, st, c, filter, drawn).value|
  {
    var coll := LocatorOf(u, documents, c).value.collection;
    ListItems(u, documents, st, c, coll, filter, drawn);
    Fetched(u, st, c, coll, filter, drawn).value
  }

  /**
   * Batched dereference is correct: in every item of a successful list, a
   * non-null Document reference holds exactly what retrieving the referenced
   * class by that id returns, or undefined when that retrieval finds
   * nothing; and that retrieval succeeds.
   */
  lemma ListResolvesLikeRetrieve(u: Universe, documents: Documents, st: Store, c: ClassId, filter: FilterCriteria,
                                 drawn: ObjectId, i: nat, f: Field)
    requires WellFormed(u) && c in u && StoreConsistent(u, documents, st) && PlainPrimaryNames(u)
    requires ListCall(u, documents, st, c, filter, drawn).Ok?
    requires i < |ListedRecords(u, documents, st, c, filter, drawn)|
    requires f in u[c].fields && !f.primary && f.refModel.Some?
    requires !IsNullish(Get(ListedRecords(u, documents, st, c, filter, drawn)[i], f.name))
    ensures (RefBelow(u, c, f);
      var v := Get(ListedRecords(u, documents, st, c, filter, drawn)[i], f.name);
      var item := ListCall(u, documents, st, c, filter, drawn).value[i];
      var r := RetrieveCall(u, documents, st, f.refModel.value, Stringify(v));
      && r.Ok?
      && f.name in item
      && item[f.name] == if r.value.Some? then Obj(r.value.value) else Undefined)
  {
    RefBelow(u, c, f);
    var coll := LocatorOf(u, documents, c).value.collection;
    var records := ListedRecords(u, documents, st, c, filter, drawn);
    var items := ListCall(u, documents, st, c, filter, drawn).value;
    var refs := Gather(u, c, records);
    var tables := FetchTables(u, documents, st, c, refs, refs.fields, drawn).value;
    ListItems(u, documents, st, c, coll, filter, drawn);
    FetchedRefsStored(u, documents, st, c, filter, drawn);
    RefMappedAsListed(u, documents, st, c, records, drawn, i, f);
    assert ListedItem(u[c].fields, records[i], tables, items[i]);
  }
}
