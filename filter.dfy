/**
 * The filter compiler and the write-side record coercion
 * (`selectCriteriaFromFilterCriteria`, `itemToRecord`,
 * `documentAndViewFromModelParam`).
 */
module Filter {
  import opened Wrappers
  import opened Values
  import opened Schema

  /** One filter entry `"field"` or `"field__op"` with its value. */
  type Entry = (string, Value)

  /** A filter object, its entries in the order `Object.keys` yields them; `None` is an absent filter. */
  type FilterCriteria = Option<seq<Entry>>

  /** The store operators a clause can use (`$eq`, `$ne`, `$in`, `$regex`, `$gt`, ...). */
  datatype Op = Eq | Ne | In | RegexOp | Gt | Gte | Lt | Lte

  /** `{ field: { $op: value } }`. */
  datatype Clause = Clause(field: string, op: Op, value: Value)

  /** `{}`, a single clause, or `{ $and: [clauses] }`. */
  datatype Selector = Empty | Single(clause: Clause) | And(clauses: seq<Clause>)

  function Clauses(s: Selector): seq<Clause> {
    match s
    case Empty => []
    case Single(c) => [c]
    case And(cs) => cs
  }

  // ---------------------------------------------------------------------
  // Splitting a key at `__`
  // ---------------------------------------------------------------------

  /** `s` has the separator `__` starting at index `i`. */
  predicate SepAt(s: string, i: int) {
    0 <= i && i + 1 < |s| && s[i] == '_' && s[i + 1] == '_'
  }

  predicate HasSep(s: string) {
    exists i :: 0 <= i < |s| && SepAt(s, i)
  }

  /** The index of the first `__` in `s`, if any. */
  function FirstSep(s: string): (r: Option<nat>)
    ensures r.Some? ==> SepAt(s, r.value) && forall j :: 0 <= j < r.value ==> !SepAt(s, j)
    ensures r.None? ==> forall j :: !SepAt(s, j)
  {
    if |s| < 2 then None
    else if s[0] == '_' && s[1] == '_' then Some(0)
    else
      var r := FirstSep(s[1..]);
      assert forall j :: 1 <= j ==> (SepAt(s, j) <==> SepAt(s[1..], j - 1));
      match r
      case None => None
      case Some(k) => Some(k + 1)
  }

  /**
   * The field name and operator of a key: `"field"` is `("field", "eq")`,
   * otherwise the first two parts of `key.split("__")`.
   */
  function SplitKey(key: string): (string, string) {
    match FirstSep(key)
    case None => (key, "eq")
    case Some(i) =>
      var rest := key[i + 2..];
      (key[..i], match FirstSep(rest) case None => rest case Some(j) => rest[..j])
  }

  /**
   * A key without `__` names a field under `eq`; a key with one is
   * `name + "__" + op`, possibly followed by further `__`-separated parts
   * that are ignored, and neither name nor op contains `__`.
   */
  lemma SplitKeyParts(key: string)
    ensures !HasSep(key) ==> SplitKey(key) == (key, "eq")
    ensures HasSep(key) ==>
      var (name, op) := SplitKey(key);
      var n := |name| + 2 + |op|;
      && n <= |key|
      && key[..|name|] == name && key[|name|..|name| + 2] == "__" && key[|name| + 2..n] == op
      && !HasSep(name) && !HasSep(op)
      && (n == |key| || SepAt(key, n))
  {
    match FirstSep(key)
    case None =>
    case Some(i) =>
      var rest := key[i + 2..];
      assert forall k :: SepAt(key[..i], k) ==> SepAt(key, k);
      match FirstSep(rest)
      case None =>
      case Some(j) =>
        assert forall k :: SepAt(rest[..j], k) ==> SepAt(rest, k);
        assert SepAt(key, i + 2 + j);
  }

  // ---------------------------------------------------------------------
  // Value coercion
  // ---------------------------------------------------------------------

  /** Every Document-typed field refers to a described class. */
  predicate RefsResolve(u: Universe, fields: seq<Field>) {
    forall f :: f in fields && f.refModel.Some? ==> f.refModel.value in u
  }

  /** `typeof v[0] === 'string'`, for a value that is not null or undefined. */
  predicate FirstIsString(v: Value) {
    match v
    case Str(s) => |s| > 0
    case Arr(xs) => |xs| > 0 && xs[0].Str?
    case Obj(m) => "0" in m && m["0"].Str?
    case _ => false
  }

  /** `primaryField.getValue(v)` for the primary field of class `d`. */
  function PrimaryValue(u: Universe, d: ClassId, v: Value): Value
    requires WellFormed(u) && d in u
  {
    if v.Obj? then Get(v.fields, PrimaryOf(u, d).name) else Undefined
  }

  function ToOidValue(v: Value, drawn: ObjectId): Result<Value, OrmError> {
    var id :- NewObjectId(v, drawn);
    Ok(Oid(id))
  }

  /** `vs.map(x => new ObjectId(x))`, failing at the first rejected element. */
  function ToOidValues(vs: seq<Value>, drawn: ObjectId): (r: Result<seq<Value>, OrmError>)
    ensures r.Ok? ==> |r.value| == |vs|
  {
    if vs == [] then Ok([])
    else
      var h :- ToOidValue(vs[0], drawn);
      var t :- ToOidValues(vs[1..], drawn);
      Ok([h] + t)
  }

  function PrimaryValues(u: Universe, d: ClassId, vs: seq<Value>): seq<Value>
    requires WellFormed(u) && d in u
  {
    seq(|vs|, i requires 0 <= i < |vs| => PrimaryValue(u, d, vs[i]))
  }

  /** The operand of an `eq` or `ne` clause on field `f`. */
  function EqualityOperand(u: Universe, f: Field, v: Value, drawn: ObjectId): Result<Value, OrmError>
    requires WellFormed(u) && (f.refModel.Some? ==> f.refModel.value in u)
  {
    if f.primary then ToOidValue(v, drawn)
    else if f.refModel.Some? then
      if IsNullish(v) then Err(NullishIndex)
      else if FirstIsString(v) then ToOidValue(v, drawn)
      else ToOidValue(PrimaryValue(u, f.refModel.value, v), drawn)
    else if f.foreignKey then
      if IsNullish(v) then Ok(v) else ToOidValue(v, drawn)
    else Ok(v)
  }

  /** `v.map(...)`, or the TypeError a non-array raises. */
  function MapIds(vs: Value, drawn: ObjectId): Result<Value, OrmError> {
    if vs.Arr? then
      var ids :- ToOidValues(vs.items, drawn);
      Ok(Arr(ids))
    else Err(NotAnArray)
  }

  /** The operand of an `in` clause on field `f`. */
  function InOperand(u: Universe, f: Field, v: Value, drawn: ObjectId): Result<Value, OrmError>
    requires WellFormed(u) && (f.refModel.Some? ==> f.refModel.value in u)
  {
    if f.primary then MapIds(v, drawn)
    else if f.refModel.Some? then
      if IsNullish(v) then Err(NullishIndex)
      else if FirstIsString(v) then MapIds(v, drawn)
      else if v.Arr? then MapIds(Arr(PrimaryValues(u, f.refModel.value, v.items)), drawn)
      else Err(NotAnArray)
    else Ok(v)
  }

  /** `new RegExp(v)` (keeps a RegExp's own flag) or `new RegExp(v, 'i')`. */
  function SearchPattern(v: Value, ignoreCase: bool): Pattern {
    if v.Regex? then
      if ignoreCase then Pattern(v.pattern.source, true) else v.pattern
    else Pattern(v, ignoreCase)
  }

  /** The clause for one filter entry, or the exception compiling it throws. */
  function CompileEntry(u: Universe, fields: seq<Field>, key: string, v: Value, drawn: ObjectId): Result<Clause, OrmError>
    requires WellFormed(u) && RefsResolve(u, fields)
  {
    var (name, op) := SplitKey(key);
    match FieldNamed(fields, name)
    case None => Err(UnknownField(name))
    case Some(f) =>
      var target := if f.primary then "_id" else name;
      if op == "eq" || op == "ne" then
        var operand :- EqualityOperand(u, f, v, drawn);
        var storeOp := if op == "ne" then Ne else if operand.Regex? then RegexOp else Eq;
        Ok(Clause(target, storeOp, operand))
      else if op == "in" then
        var operand :- InOperand(u, f, v, drawn);
        Ok(Clause(target, In, operand))
      else if op == "search" || op == "searchi" then
        if f.primary then Err(CannotSearchOnPrimaryKey)
        else Ok(Clause(target, RegexOp, Regex(SearchPattern(v, op == "searchi"))))
      else if op == "gt" then Ok(Clause(target, Gt, v))
      else if op == "gte" then Ok(Clause(target, Gte, v))
      else if op == "lt" then Ok(Clause(target, Lt, v))
      else if op == "lte" then Ok(Clause(target, Lte, v))
      else Err(InvalidOperator(op, key))
  }

  /** The outcome of compiling each entry, in key order. */
  function EntryResults(u: Universe, fields: seq<Field>, es: seq<Entry>, drawn: ObjectId): (rs: seq<Result<Clause, OrmError>>)
    requires WellFormed(u) && RefsResolve(u, fields)
    ensures |rs| == |es|
    ensures forall i :: 0 <= i < |es| ==> rs[i] == CompileEntry(u, fields, es[i].0, es[i].1, drawn)
  {
    seq(|es|, i requires 0 <= i < |es| => CompileEntry(u, fields, es[i].0, es[i].1, drawn))
  }

  /** No clause is `{}`, one is unwrapped, several are joined under `$and`. */
  function Combine(cs: seq<Clause>): (s: Selector)
    ensures Clauses(s) == cs
    ensures (|cs| == 0 <==> s.Empty?) && (|cs| == 1 <==> s.Single?) && (|cs| >= 2 <==> s.And?)
  {
    if |cs| == 0 then Empty
    else if |cs| == 1 then Single(cs[0])
    else And(cs)
  }

  /** `selectCriteriaFromFilterCriteria(descriptor, filterCriteria)` as a function. */
  function CompileFilter(u: Universe, fields: seq<Field>, filter: FilterCriteria, drawn: ObjectId): Result<Selector, OrmError>
    requires WellFormed(u) && RefsResolve(u, fields)
  {
    match filter
    case None => Ok(Empty)
    case Some(es) =>
      var cs :- Collect(EntryResults(u, fields, es, drawn));
      Ok(Combine(cs))
  }

  /** `selectCriteriaFromFilterCriteria`: the loop over the filter's keys. */
  method SelectCriteriaFromFilterCriteria(u: Universe, fields: seq<Field>, filter: FilterCriteria, drawn: ObjectId)
    returns (r: Result<Selector, OrmError>)
    requires WellFormed(u) && RefsResolve(u, fields)
    ensures r == CompileFilter(u, fields, filter, drawn)
  {
    if filter.None? {
      return Ok(Empty);
    }
    var es := filter.value;
    ghost var rs := EntryResults(u, fields, es, drawn);
    var criterias: seq<Clause> := [];
    var i := 0;
    while i < |es|
      invariant 0 <= i <= |es|
      invariant Collect(rs[..i]) == Ok(criterias)
    {
      var criteria := CompileEntry(u, fields, es[i].0, es[i].1, drawn);
      if criteria.Err? {
        CollectStopsAt(rs, i);
        return Err(criteria.error);
      }
      CollectExtend(rs, i);
      criterias := criterias + [criteria.value];
      i := i + 1;
    }
    assert rs[..i] == rs;
    r := Ok(Combine(criterias));
  }

  // ---------------------------------------------------------------------
  // Properties of the compiler
  // ---------------------------------------------------------------------

  /**
   * The compiled selector: `{}` for an absent or empty filter, the lone
   * clause for one entry, `$and` of the clauses in key order for more; and
   * the exception of the first failing entry when one fails.
   */
  lemma CompileFilterShape(u: Universe, fields: seq<Field>, filter: FilterCriteria, drawn: ObjectId)
    requires WellFormed(u) && RefsResolve(u, fields)
    ensures filter.None? ==> CompileFilter(u, fields, filter, drawn) == Ok(Empty)
    ensures filter.Some? ==>
      var es := filter.value;
      var r := CompileFilter(u, fields, filter, drawn);
      && (r.Ok? <==> forall i :: 0 <= i < |es| ==> CompileEntry(u, fields, es[i].0, es[i].1, drawn).Ok?)
      && (r.Ok? ==>
            && |Clauses(r.value)| == |es|
            && (|es| == 0 <==> r.value.Empty?)
            && (|es| == 1 <==> r.value.Single?)
            && (|es| >= 2 <==> r.value.And?)
            && forall i :: 0 <= i < |es| ==> Clauses(r.value)[i] == CompileEntry(u, fields, es[i].0, es[i].1, drawn).value)
  {
    if filter.Some? {
      var es := filter.value;
      var rs := EntryResults(u, fields, es, drawn);
      CollectPointwise(rs);
      CompileFilterUnfold(u, fields, es, drawn);
    }
  }

  /** `CompileFilter` of a present filter, in terms of the collected entry results. */
  lemma CompileFilterUnfold(u: Universe, fields: seq<Field>, es: seq<Entry>, drawn: ObjectId)
    requires WellFormed(u) && RefsResolve(u, fields)
    ensures var c := Collect(EntryResults(u, fields, es, drawn));
      CompileFilter(u, fields, Some(es), drawn) == if c.Ok? then Ok(Combine(c.value)) else Err(c.error)
  {
  }

  /** A filter holding only a well-formed id under the primary key selects that `_id`. */
  lemma PrimaryIdFilter(u: Universe, fields: seq<Field>, id: string, drawn: ObjectId)
    requires WellFormed(u) && RefsResolve(u, fields) && DistinctNames(fields) && PrimaryCount(fields) == 1
    requires IsObjectIdHex(id) && !HasSep(PrimaryField(fields).name)
    ensures CompileFilter(u, fields, Some([(PrimaryField(fields).name, Str(id))]), drawn)
         == Ok(Single(Clause("_id", Eq, Oid(ObjectId(Canonical(id))))))
  {
    var pk := PrimaryField(fields);
    SplitKeyParts(pk.name);
    var i :| 0 <= i < |fields| && fields[i] == pk;
    FieldNamedFinds(fields, i);
    PrimaryEqualityCoerces(u, fields, pk.name, Str(id), drawn);
    var c := Clause("_id", Eq, Oid(ObjectId(Canonical(id))));
    assert CompileEntry(u, fields, pk.name, Str(id), drawn) == Ok(c);
    CompileFilterShape(u, fields, Some([(pk.name, Str(id))]), drawn);
  }

  /** The exception a failing filter throws is the first failing entry's. */
  lemma CompileFilterFirstError(u: Universe, fields: seq<Field>, es: seq<Entry>, i: nat, drawn: ObjectId)
    requires WellFormed(u) && RefsResolve(u, fields)
    requires i < |es| && forall j :: 0 <= j < i ==> CompileEntry(u, fields, es[j].0, es[j].1, drawn).Ok?
    requires CompileEntry(u, fields, es[i].0, es[i].1, drawn).Err?
    ensures CompileFilter(u, fields, Some(es), drawn) == Err(CompileEntry(u, fields, es[i].0, es[i].1, drawn).error)
  {
    CollectFirstError(EntryResults(u, fields, es, drawn), i);
  }

  /** The clause targets `_id` for the primary field and the field's own name otherwise. */
  lemma EntryTarget(u: Universe, fields: seq<Field>, key: string, v: Value, drawn: ObjectId)
    requires WellFormed(u) && RefsResolve(u, fields)
    requires CompileEntry(u, fields, key, v, drawn).Ok?
    ensures FieldNamed(fields, SplitKey(key).0).Some?
    ensures var f := FieldNamed(fields, SplitKey(key).0).value;
      CompileEntry(u, fields, key, v, drawn).value.field == if f.primary then "_id" else SplitKey(key).0
  {
  }

  /** `eq`/`ne` on the primary key: the value becomes an ObjectId, or its rejection is the error. */
  lemma PrimaryEqualityCoerces(u: Universe, fields: seq<Field>, key: string, v: Value, drawn: ObjectId)
    requires WellFormed(u) && RefsResolve(u, fields)
    requires SplitKey(key).1 in {"eq", "ne"}
    requires FieldNamed(fields, SplitKey(key).0).Some? && FieldNamed(fields, SplitKey(key).0).value.primary
    ensures CompileEntry(u, fields, key, v, drawn) ==
      match NewObjectId(v, drawn)
      case Ok(id) => Ok(Clause("_id", if SplitKey(key).1 == "eq" then Eq else Ne, Oid(id)))
      case Err(e) => Err(e)
  {
  }

  /**
   * `eq`/`ne` on a Document-typed field: an id string is converted directly,
   * a record through its primary value; null or undefined is a TypeError.
   */
  lemma ReferenceEqualityCoerces(u: Universe, fields: seq<Field>, key: string, v: Value, drawn: ObjectId)
    requires WellFormed(u) && RefsResolve(u, fields)
    requires SplitKey(key).1 in {"eq", "ne"}
    requires FieldNamed(fields, SplitKey(key).0).Some?
    requires var f := FieldNamed(fields, SplitKey(key).0).value; !f.primary && f.refModel.Some?
    ensures var f := FieldNamed(fields, SplitKey(key).0).value;
      var op := if SplitKey(key).1 == "eq" then Eq else Ne;
      && (IsNullish(v) ==> CompileEntry(u, fields, key, v, drawn) == Err(NullishIndex))
      && (v.Str? && v.s != "" ==>
            CompileEntry(u, fields, key, v, drawn) ==
            (match NewObjectId(v, drawn)
             case Ok(id) => Ok(Clause(SplitKey(key).0, op, Oid(id)))
             case Err(e) => Err(e)))
      && (v.Obj? && !FirstIsString(v) ==>
            CompileEntry(u, fields, key, v, drawn) ==
            (match NewObjectId(Get(v.fields, PrimaryOf(u, f.refModel.value).name), drawn)
             case Ok(id) => Ok(Clause(SplitKey(key).0, op, Oid(id)))
             case Err(e) => Err(e)))
  {
  }

  /** `ToOidValues` converts every element or fails on the first it cannot convert. */
  lemma {:induction false} ToOidValuesPointwise(vs: seq<Value>, drawn: ObjectId)
    ensures ToOidValues(vs, drawn).Ok? <==> forall i :: 0 <= i < |vs| ==> NewObjectId(vs[i], drawn).Ok?
    ensures ToOidValues(vs, drawn).Ok? ==>
      forall i :: 0 <= i < |vs| ==> ToOidValues(vs, drawn).value[i] == Oid(NewObjectId(vs[i], drawn).value)
  {
    if vs != [] {
      ToOidValuesPointwise(vs[1..], drawn);
      assert forall i :: 1 <= i < |vs| ==> vs[1..][i - 1] == vs[i];
    }
  }

  /** `in` on the primary key converts the array element-wise. */
  lemma PrimaryInCoerces(u: Universe, fields: seq<Field>, key: string, xs: seq<Value>, drawn: ObjectId)
    requires WellFormed(u) && RefsResolve(u, fields)
    requires SplitKey(key).1 == "in"
    requires FieldNamed(fields, SplitKey(key).0).Some? && FieldNamed(fields, SplitKey(key).0).value.primary
    ensures var r := CompileEntry(u, fields, key, Arr(xs), drawn);
      && (r.Ok? <==> forall i :: 0 <= i < |xs| ==> NewObjectId(xs[i], drawn).Ok?)
      && (r.Ok? ==>
            && r.value.field == "_id" && r.value.op == In && r.value.value.Arr?
            && |r.value.value.items| == |xs|
            && forall i :: 0 <= i < |xs| ==> r.value.value.items[i] == Oid(NewObjectId(xs[i], drawn).value))
  {
    ToOidValuesPointwise(xs, drawn);
  }

  /**
   * A foreign-key field is converted only under `eq`/`ne`, where null and
   * undefined pass through; under `in` and the ordering operators its value
   * passes unchanged. A plain field's value is never converted.
   */
  lemma UnreferencedFieldsKeepValues(u: Universe, fields: seq<Field>, key: string, v: Value, drawn: ObjectId)
    requires WellFormed(u) && RefsResolve(u, fields)
    requires FieldNamed(fields, SplitKey(key).0).Some?
    requires var f := FieldNamed(fields, SplitKey(key).0).value; !f.primary && f.refModel.None?
    ensures var f := FieldNamed(fields, SplitKey(key).0).value;
      var op := SplitKey(key).1;
      var r := CompileEntry(u, fields, key, v, drawn);
      && (op in {"in", "gt", "gte", "lt", "lte"} ==> r.Ok? && r.value.value == v)
      && (op in {"eq", "ne"} && (!f.foreignKey || IsNullish(v)) ==> r.Ok? && r.value.value == v)
      && (op in {"eq", "ne"} && f.foreignKey && !IsNullish(v) ==>
            r == match NewObjectId(v, drawn)
                 case Ok(id) => Ok(Clause(SplitKey(key).0, if op == "eq" then Eq else Ne, Oid(id)))
                 case Err(e) => Err(e))
  {
  }

  /** A RegExp under `eq` on a plain field becomes `$regex`; under `ne` it stays `$ne`. */
  lemma RegexEquality(u: Universe, fields: seq<Field>, key: string, p: Pattern, drawn: ObjectId)
    requires WellFormed(u) && RefsResolve(u, fields)
    requires FieldNamed(fields, SplitKey(key).0).Some?
    requires var f := FieldNamed(fields, SplitKey(key).0).value;
      !f.primary && f.refModel.None? && !f.foreignKey
    ensures SplitKey(key).1 == "eq" ==>
      CompileEntry(u, fields, key, Regex(p), drawn) == Ok(Clause(SplitKey(key).0, RegexOp, Regex(p)))
    ensures SplitKey(key).1 == "ne" ==>
      CompileEntry(u, fields, key, Regex(p), drawn) == Ok(Clause(SplitKey(key).0, Ne, Regex(p)))
  {
  }

  /**
   * `search`/`searchi` fail on the primary key; elsewhere they give a
   * `$regex` clause whose pattern has the `i` flag exactly for `searchi`
   * (a string value; a RegExp value keeps its own flag under `search`).
   */
  lemma SearchRules(u: Universe, fields: seq<Field>, key: string, v: Value, drawn: ObjectId)
    requires WellFormed(u) && RefsResolve(u, fields)
    requires SplitKey(key).1 in {"search", "searchi"}
    requires FieldNamed(fields, SplitKey(key).0).Some?
    ensures var f := FieldNamed(fields, SplitKey(key).0).value;
      var r := CompileEntry(u, fields, key, v, drawn);
      && (f.primary ==> r == Err(CannotSearchOnPrimaryKey))
      && (!f.primary ==> r.Ok? && r.value.field == SplitKey(key).0 && r.value.op == RegexOp && r.value.value.Regex?)
      && (!f.primary && v.Str? ==> r.value.value == Regex(Pattern(v, SplitKey(key).1 == "searchi")))
  {
  }

  /** Any operator other than eq, ne, in, search, searchi, gt, gte, lt, lte (`nin` included) is rejected. */
  lemma UnknownOperatorRejected(u: Universe, fields: seq<Field>, key: string, v: Value, drawn: ObjectId)
    requires WellFormed(u) && RefsResolve(u, fields)
    requires FieldNamed(fields, SplitKey(key).0).Some?
    requires SplitKey(key).1 !in {"eq", "ne", "in", "search", "searchi", "gt", "gte", "lt", "lte"}
    ensures CompileEntry(u, fields, key, v, drawn) == Err(InvalidOperator(SplitKey(key).1, key))
  {
  }

  /** An entry naming no described field fails before its operator is looked at. */
  lemma UnknownFieldRejected(u: Universe, fields: seq<Field>, key: string, v: Value, drawn: ObjectId)
    requires WellFormed(u) && RefsResolve(u, fields)
    requires FieldNamed(fields, SplitKey(key).0).None?
    ensures CompileEntry(u, fields, key, v, drawn) == Err(UnknownField(SplitKey(key).0))
  {
  }

  // ---------------------------------------------------------------------
  // itemToRecord
  // ---------------------------------------------------------------------

  /** What the descriptor layer guarantees of one class's fields. */
  lemma ClassRefsResolve(u: Universe, c: ClassId)
    requires WellFormed(u) && c in u
    ensures RefsResolve(u, u[c].fields) && RefsResolve(u, OtherFields(u[c].fields))
    ensures PrimaryCount(u[c].fields) == 1 && DistinctNames(u[c].fields)
  {
    forall f | f in u[c].fields && f.refModel.Some?
      ensures f.refModel.value in u
    {
      RefBelow(u, c, f);
    }
    assert WellFormedClass(u, c);
  }

  /** The non-primary fields of a described class refer only to described classes. */
  lemma OtherFieldsResolve(u: Universe, c: ClassId)
    requires WellFormed(u) && c in u
    ensures RefsResolve(u, OtherFields(u[c].fields))
  {
    ClassRefsResolve(u, c);
  }

  /** The stored value of field `f` of `item`. */
  function StoredValue(u: Universe, f: Field, item: Record, drawn: ObjectId): Result<Value, OrmError>
    requires WellFormed(u) && (f.refModel.Some? ==> f.refModel.value in u)
  {
    var v := Get(item, f.name);
    if f.refModel.Some? then
      if !IsNullish(v) then ToOidValue(PrimaryValue(u, f.refModel.value, v), drawn) else Ok(v)
    else if f.foreignKey then
      if !IsNullish(v) then ToOidValue(v, drawn) else Ok(v)
    else Ok(v)
  }

  /** The stored value of each field, in field order. */
  function StoredValues(u: Universe, fields: seq<Field>, item: Record, drawn: ObjectId): (rs: seq<Result<Value, OrmError>>)
    requires WellFormed(u) && RefsResolve(u, fields)
    ensures |rs| == |fields|
    ensures forall i :: 0 <= i < |fields| ==> rs[i] == StoredValue(u, fields[i], item, drawn)
  {
    seq(|fields|, i requires 0 <= i < |fields| => StoredValue(u, fields[i], item, drawn))
  }

  /** The record writing `vs[i]` under `fields[i].name`, in field order. */
  function RecordFrom(fields: seq<Field>, vs: seq<Value>): Record
    requires |vs| == |fields|
    decreases |fields|
  {
    if fields == [] then map[]
    else RecordFrom(fields[..|fields| - 1], vs[..|vs| - 1])[fields[|fields| - 1].name := vs[|vs| - 1]]
  }

  /** The record's keys are the fields' names. */
  lemma {:induction false} RecordFromKeys(fields: seq<Field>, vs: seq<Value>)
    requires |vs| == |fields|
    ensures RecordFrom(fields, vs).Keys == (set f | f in fields :: f.name)
    decreases |fields|
  {
    if fields != [] {
      var n := |fields| - 1;
      var p, q, last := fields[..n], vs[..n], fields[n];
      RecordFromKeys(p, q);
      assert fields == p + [last];
      assert (set f | f in fields :: f.name) == (set f | f in p :: f.name) + {last.name};
    }
  }

  /** With distinct names, each field's name holds its own value. */
  lemma {:induction false} RecordFromValues(fields: seq<Field>, vs: seq<Value>)
    requires |vs| == |fields| && DistinctNames(fields)
    ensures forall i :: 0 <= i < |fields| ==>
      fields[i].name in RecordFrom(fields, vs) && RecordFrom(fields, vs)[fields[i].name] == vs[i]
    decreases |fields|
  {
    if fields != [] {
      var n := |fields| - 1;
      var p, q, last := fields[..n], vs[..n], fields[n];
      assert DistinctNames(p) by {
        forall a, b | 0 <= a < b < |p| ensures p[a].name != p[b].name {
          assert p[a] == fields[a] && p[b] == fields[b];
        }
      }
      RecordFromValues(p, q);
      var r := RecordFrom(fields, vs);
      assert r == RecordFrom(p, q)[last.name := vs[n]];
      forall i | 0 <= i < |fields| ensures fields[i].name in r && r[fields[i].name] == vs[i] {
        if i < n {
          assert fields[i].name != last.name;
          assert p[i] == fields[i] && q[i] == vs[i];
        }
      }
    }
  }

  /** Writing one more field extends the record by that field's entry. */
  lemma RecordFromExtend(fields: seq<Field>, vs: seq<Value>, v: Value, i: nat)
    requires i < |fields| && |vs| == i
    ensures RecordFrom(fields[..i + 1], vs + [v]) == RecordFrom(fields[..i], vs)[fields[i].name := v]
  {
    assert fields[..i + 1][..i] == fields[..i];
    assert (vs + [v])[..i] == vs;
  }

  /** `itemToRecord(model, item)` as a function. */
  function ItemRecord(u: Universe, model: ClassId, item: Record, drawn: ObjectId): Result<Record, OrmError>
    requires WellFormed(u) && model in u
  {
    ClassRefsResolve(u, model);
    var fields := OtherFields(u[model].fields);
    var vs :- Collect(StoredValues(u, fields, item, drawn));
    Ok(RecordFrom(fields, vs))
  }

  /** `itemToRecord`: the loop over the non-primary fields. */
  method ItemToRecord(u: Universe, model: ClassId, item: Record, drawn: ObjectId) returns (r: Result<Record, OrmError>)
    requires WellFormed(u) && model in u
    ensures r == ItemRecord(u, model, item, drawn)
  {
    OtherFieldsResolve(u, model);
    var fields := OtherFields(u[model].fields);
    ghost var rs := StoredValues(u, fields, item, drawn);
    ghost var vs: seq<Value> := [];
    var record: Record := map[];
    var i := 0;
    while i < |fields|
      invariant 0 <= i <= |fields|
      invariant Collect(rs[..i]) == Ok(vs) && |vs| == i
      invariant record == RecordFrom(fields[..i], vs)
    {
      var field := fields[i];
      var v := StoredValue(u, field, item, drawn);
      if v.Err? {
        CollectStopsAt(rs, i);
        return Err(v.error);
      }
      CollectExtend(rs, i);
      RecordFromExtend(fields, vs, v.value, i);
      record := record[field.name := v.value];
      vs := vs + [v.value];
      i := i + 1;
    }
    assert rs[..i] == rs && fields[..i] == fields;
    r := Ok(record);
  }

  lemma {:induction false} OtherFieldsDistinct(fields: seq<Field>)
    requires DistinctNames(fields)
    ensures DistinctNames(OtherFields(fields))
  {
    if fields != [] {
      assert DistinctNames(fields[1..]) by {
        forall a, b | 0 <= a < b < |fields[1..]|
          ensures fields[1..][a].name != fields[1..][b].name
        {
          assert fields[1..][a] == fields[a + 1] && fields[1..][b] == fields[b + 1];
        }
      }
      OtherFieldsDistinct(fields[1..]);
      assert forall f :: f in OtherFields(fields[1..]) ==> f in fields[1..];
    }
  }

  /** `itemToRecord` fails iff the conversion of some non-primary field does. */
  lemma ItemRecordFails(u: Universe, model: ClassId, item: Record, drawn: ObjectId)
    requires WellFormed(u) && model in u
    ensures (ClassRefsResolve(u, model);
      var r := ItemRecord(u, model, item, drawn);
      r.Ok? <==> forall f :: f in u[model].fields && !f.primary ==> StoredValue(u, f, item, drawn).Ok?)
  {
    ClassRefsResolve(u, model);
    var fs := OtherFields(u[model].fields);
    var rs := StoredValues(u, fs, item, drawn);
    CollectPointwise(rs);
    forall f | f in u[model].fields && !f.primary
      ensures exists i :: 0 <= i < |fs| && rs[i] == StoredValue(u, f, item, drawn)
    {
      var i :| 0 <= i < |fs| && fs[i] == f;
    }
  }

  /** When it succeeds, `itemToRecord` writes exactly the non-primary fields. */
  lemma ItemRecordKeys(u: Universe, model: ClassId, item: Record, drawn: ObjectId)
    requires WellFormed(u) && model in u
    ensures var r := ItemRecord(u, model, item, drawn);
      r.Ok? ==> r.value.Keys == (set f | f in u[model].fields && !f.primary :: f.name)
  {
    ClassRefsResolve(u, model);
    var fs := OtherFields(u[model].fields);
    var rs := StoredValues(u, fs, item, drawn);
    if Collect(rs).Ok? {
      RecordFromKeys(fs, Collect(rs).value);
      assert (set f | f in fs :: f.name) == (set f | f in u[model].fields && !f.primary :: f.name);
    }
  }

  /** When it succeeds, `itemToRecord` writes each non-primary field with its stored value. */
  lemma ItemRecordValues(u: Universe, model: ClassId, item: Record, drawn: ObjectId)
    requires WellFormed(u) && model in u
    ensures (ClassRefsResolve(u, model);
      var r := ItemRecord(u, model, item, drawn);
      r.Ok? ==> forall f :: f in u[model].fields && !f.primary ==>
        && f.name in r.value
        && StoredValue(u, f, item, drawn).Ok?
        && r.value[f.name] == StoredValue(u, f, item, drawn).value)
  {
    ClassRefsResolve(u, model);
    var fs := OtherFields(u[model].fields);
    var rs := StoredValues(u, fs, item, drawn);
    if Collect(rs).Ok? {
      OtherFieldsDistinct(u[model].fields);
      CollectPointwise(rs);
      var vs := Collect(rs).value;
      RecordFromValues(fs, vs);
      var rec := RecordFrom(fs, vs);
      forall f | f in u[model].fields && !f.primary
        ensures f.name in rec && StoredValue(u, f, item, drawn).Ok? && rec[f.name] == StoredValue(u, f, item, drawn).value
      {
        var i := IndexOf(fs, f);
        assert rs[i] == StoredValue(u, f, item, drawn);
      }
    }
  }





  /**
   * The stored value of a field: a non-null Document reference becomes the
   * ObjectId of the referenced record's primary value, a non-null foreign
   * key the ObjectId of its value; null, undefined and plain values are copied.
   */
  lemma StoredValueCoercion(u: Universe, f: Field, item: Record, drawn: ObjectId)
    requires WellFormed(u) && (f.refModel.Some? ==> f.refModel.value in u)
    ensures var v := Get(item, f.name);
      var r := StoredValue(u, f, item, drawn);
      && (f.refModel.None? && !f.foreignKey ==> r == Ok(v))
      && (IsNullish(v) ==> r == Ok(v))
      && (f.refModel.Some? && !IsNullish(v) ==>
            r == match NewObjectId(PrimaryValue(u, f.refModel.value, v), drawn)
                 case Ok(id) => Ok(Oid(id))
                 case Err(e) => Err(e))
      && (f.refModel.None? && f.foreignKey && !IsNullish(v) ==>
            r == match NewObjectId(v, drawn)
                 case Ok(id) => Ok(Oid(id))
                 case Err(e) => Err(e))
  {
  }

  // ---------------------------------------------------------------------
  // documentAndViewFromModelParam
  // ---------------------------------------------------------------------

  /** A model argument: a class, an array `[document, view]`, or `{document, view}`. */
  datatype ModelParam = ClassParam(model: ClassId) | ArrayParam(items: seq<ClassId>) | ObjectParam(document: ClassId, view: ClassId)

  /** `documentAndViewFromModelParam`; a missing array element is undefined (`None`). */
  function DocumentAndView(m: ModelParam): (r: (Option<ClassId>, Option<ClassId>))
    ensures m.ClassParam? ==> r == (Some(m.model), Some(m.model))
    ensures m.ObjectParam? ==> r == (Some(m.document), Some(m.view))
    ensures m.ArrayParam? ==>
      && (r.0.Some? <==> |m.items| >= 1) && (r.0.Some? ==> r.0.value == m.items[0])
      && (r.1.Some? <==> |m.items| >= 2) && (r.1.Some? ==> r.1.value == m.items[1])
  {
    match m
    case ArrayParam(items) =>
      (if |items| >= 1 then Some(items[0]) else None, if |items| >= 2 then Some(items[1]) else None)
    case ClassParam(c) => (Some(c), Some(c))
    case ObjectParam(d, v) => (Some(d), Some(v))
  }
}
