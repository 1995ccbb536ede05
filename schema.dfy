/**
 * Model descriptors, as the metadata layer derives them from decorated
 * classes. Classes are named by `ClassId`; a `Universe` gives the descriptor
 * of every class the program declares.
 */
module Schema {
  import opened Wrappers

  /** A class, numbered in declaration order. */
  type ClassId = nat

  /**
   * One described field: `refModel` is the field's design type when that type
   * is a Document class, `foreignKey` marks a raw-id field.
   */
  datatype Field = Field(name: string, primary: bool, refModel: Option<ClassId>, foreignKey: bool)

  /**
   * A class as the metadata layer sees it: whether it extends Document, the
   * model it is a View of (if it has a view descriptor), and its fields in order.
   */
  datatype ClassInfo = ClassInfo(name: string, extendsDocument: bool, viewOf: Option<ClassId>, fields: seq<Field>)

  type Universe = map<ClassId, ClassInfo>

  predicate DistinctNames(fields: seq<Field>) {
    forall i, j :: 0 <= i < j < |fields| ==> fields[i].name != fields[j].name
  }

  function PrimaryCount(fields: seq<Field>): nat {
    if fields == [] then 0
    else (if fields[0].primary then 1 else 0) + PrimaryCount(fields[1..])
  }

  /**
   * What the descriptor layer guarantees of a class: field names are unique,
   * exactly one field is primary, and a class can only refer to (or be a view
   * of) classes declared before it, so references are acyclic.
   */
  predicate WellFormedClass(u: Universe, c: ClassId)
    requires c in u
  {
    var fs := u[c].fields;
    && DistinctNames(fs)
    && PrimaryCount(fs) == 1
    && (forall i :: 0 <= i < |fs| && fs[i].refModel.Some? ==>
          fs[i].refModel.value in u && fs[i].refModel.value < c)
    && (u[c].viewOf.Some? ==> u[c].viewOf.value in u && u[c].viewOf.value < c)
  }

  predicate WellFormed(u: Universe) {
    forall c {:trigger WellFormedClass(u, c)} :: c in u ==> WellFormedClass(u, c)
  }

  /** `fields.all().find(f => f.primary)`. */
  function PrimaryField(fields: seq<Field>): (f: Field)
    requires PrimaryCount(fields) >= 1
    ensures f.primary && f in fields
  {
    if fields[0].primary then fields[0] else PrimaryField(fields[1..])
  }

  /** `fields.all().filter(f => !f.primary)`. */
  function OtherFields(fields: seq<Field>): (r: seq<Field>)
    ensures forall f :: f in r <==> f in fields && !f.primary
    ensures |r| + PrimaryCount(fields) == |fields|
  {
    if fields == [] then []
    else (if fields[0].primary then [] else [fields[0]]) + OtherFields(fields[1..])
  }

  /** `fields.get(name)`. */
  function FieldNamed(fields: seq<Field>, name: string): (r: Option<Field>)
    ensures r.Some? ==> r.value in fields && r.value.name == name
    ensures r.None? ==> forall f :: f in fields ==> f.name != name
  {
    if fields == [] then None
    else if fields[0].name == name then Some(fields[0])
    else FieldNamed(fields[1..], name)
  }

  /** The primary field of a well-formed class. */
  function PrimaryOf(u: Universe, c: ClassId): Field
    requires WellFormed(u) && c in u
  {
    assert WellFormedClass(u, c);
    PrimaryField(u[c].fields)
  }

  /** With distinct names, looking a field up by its own name finds that field. */
  lemma {:induction false} FieldNamedFinds(fields: seq<Field>, i: nat)
    requires DistinctNames(fields) && i < |fields|
    ensures FieldNamed(fields, fields[i].name) == Some(fields[i])
  {
    if i > 0 {
      assert fields[0].name != fields[i].name;
      assert DistinctNames(fields[1..]) by {
        forall a, b | 0 <= a < b < |fields[1..]|
          ensures fields[1..][a].name != fields[1..][b].name
        {
          assert fields[1..][a] == fields[a + 1] && fields[1..][b] == fields[b + 1];
        }
      }
      FieldNamedFinds(fields[1..], i - 1);
    }
  }

  /** The primary field is the only primary field. */
  lemma {:induction false} PrimaryFieldUnique(fields: seq<Field>, f: Field)
    requires PrimaryCount(fields) == 1 && f in fields && f.primary
    ensures f == PrimaryField(fields)
  {
    if !fields[0].primary {
      assert f in fields[1..];
      PrimaryFieldUnique(fields[1..], f);
    } else if f != fields[0] {
      assert f in fields[1..];
      PrimaryCountPositive(fields[1..], f);
    }
  }

  lemma {:induction false} PrimaryCountPositive(fields: seq<Field>, f: Field)
    requires f in fields && f.primary
    ensures PrimaryCount(fields) >= 1
  {
    if fields[0] != f {
      assert f in fields[1..];
      PrimaryCountPositive(fields[1..], f);
    }
  }

  /** With distinct names, a name identifies a field. */
  lemma SameNameSameField(fields: seq<Field>, a: Field, b: Field)
    requires DistinctNames(fields) && a in fields && b in fields && a.name == b.name
    ensures a == b
  {
    var i :| 0 <= i < |fields| && fields[i] == a;
    var j :| 0 <= j < |fields| && fields[j] == b;
  }

  /** A Document-typed field of a well-formed class refers to an earlier described class. */
  lemma RefBelow(u: Universe, c: ClassId, f: Field)
    requires WellFormed(u) && c in u && f in u[c].fields && f.refModel.Some?
    ensures f.refModel.value in u && f.refModel.value < c
  {
    assert WellFormedClass(u, c);
    var i :| 0 <= i < |u[c].fields| && u[c].fields[i] == f;
  }
}
