/**
 * The document store the queries read: collections of raw documents in
 * natural order, with the selector matching, projection, `find` and
 * `findOne` semantics the queries rely on. Pattern matching is left
 * uninterpreted: the store carries it as a function.
 */
module MongoStore {
  import opened Wrappers
  import opened Values
  import opened Filter

  /** A collection of a database on the server. */
  datatype CollectionKey = CollectionKey(database: string, collection: string)

  /** The collections and the server's (uninterpreted) pattern test. */
  datatype Store = Store(collections: map<CollectionKey, seq<Record>>, regexTest: (Pattern, string) -> bool)

  /** A collection that was never written is empty. */
  function Contents(st: Store, key: CollectionKey): seq<Record> {
    if key in st.collections then st.collections[key] else []
  }

  /** `$eq`: equal values; a null operand also matches a missing field. */
  predicate EqualsOperand(x: Value, v: Value) {
    x == v || (v.Null? && x.Undefined?)
  }

  /** Code-point order on strings. */
  predicate StrLess(a: string, b: string) {
    if a == [] then b != []
    else if b == [] then false
    else if a[0] != b[0] then a[0] < b[0]
    else StrLess(a[1..], b[1..])
  }

  /** The ordering the comparison operators use; values of different kinds are unordered. */
  predicate Less(x: Value, y: Value) {
    match (x, y)
    case (Num(a), Num(b)) => a < b
    case (Str(a), Str(b)) => StrLess(a, b)
    case (Oid(a), Oid(b)) => StrLess(a.hex, b.hex)
    case _ => false
  }

  predicate ClauseMatches(st: Store, c: Clause, doc: Record) {
    var x := Get(doc, c.field);
    match c.op
    case Eq => EqualsOperand(x, c.value)
    case Ne => !EqualsOperand(x, c.value)
    case In => c.value.Arr? && exists i :: 0 <= i < |c.value.items| && EqualsOperand(x, c.value.items[i])
    case RegexOp => c.value.Regex? && x.Str? && st.regexTest(c.value.pattern, x.s)
    case Gt => Less(c.value, x)
    case Gte => Less(c.value, x) || x == c.value
    case Lt => Less(x, c.value)
    case Lte => Less(x, c.value) || x == c.value
  }

  /** A document matches a selector when it matches every clause. */
  predicate Matches(st: Store, s: Selector, doc: Record) {
    forall i :: 0 <= i < |Clauses(s)| ==> ClauseMatches(st, Clauses(s)[i], doc)
  }

  /** A one-clause selector matches exactly what its clause matches. */
  lemma MatchesSingle(st: Store, c: Clause, doc: Record)
    ensures Matches(st, Single(c), doc) <==> ClauseMatches(st, c, doc)
  {
    var cs := Clauses(Single(c));
    assert cs == [c] && cs[0] == c;
    if !Matches(st, Single(c), doc) {
      var i :| 0 <= i < |cs| && !ClauseMatches(st, cs[i], doc);
    }
  }

  /** The matching documents, in natural order. */
  function Select(st: Store, s: Selector, docs: seq<Record>): (r: seq<Record>)
    ensures |r| <= |docs|
    ensures forall d :: d in r <==> d in docs && Matches(st, s, d)
  {
    if docs == [] then []
    else (if Matches(st, s, docs[0]) then [docs[0]] else []) + Select(st, s, docs[1..])
  }

  /** What a projection does with one output key. */
  datatype ProjSpec = Exclude | IdString | Include

  type Projection = map<string, ProjSpec>

  /** An `IdString` key holds `_id` as a string; an `Include` key copies the document's own value. */
  function Project(p: Projection, doc: Record): (r: Record)
    ensures forall k :: k in r <==> k in p && ((p[k] == IdString && "_id" in doc) || (p[k] == Include && k in doc))
    ensures forall k :: k in r ==> r[k] == if p[k] == IdString then Str(Stringify(doc["_id"])) else doc[k]
  {
    map k | k in p && ((p[k] == IdString && "_id" in doc) || (p[k] == Include && k in doc)) ::
      if p[k] == IdString then Str(Stringify(doc["_id"])) else doc[k]
  }

  function ProjectAll(p: Projection, docs: seq<Record>): (r: seq<Record>)
    ensures |r| == |docs| && forall i :: 0 <= i < |docs| ==> r[i] == Project(p, docs[i])
  {
    seq(|docs|, i requires 0 <= i < |docs| => Project(p, docs[i]))
  }

  /** `collection.find(selector, { projection }).toArray()`. */
  function Find(st: Store, key: CollectionKey, s: Selector, p: Projection): seq<Record> {
    ProjectAll(p, Select(st, s, Contents(st, key)))
  }

  /** `collection.findOne(selector, { projection })`: the first match, or none. */
  function FindOne(st: Store, key: CollectionKey, s: Selector, p: Projection): Option<Record> {
    var found := Select(st, s, Contents(st, key));
    if found == [] then None else Some(Project(p, found[0]))
  }

  /** No document before index `i` matches. */
  predicate FirstMatchAt(st: Store, s: Selector, docs: seq<Record>, i: nat) {
    forall j :: 0 <= j < i && j < |docs| ==> !Matches(st, s, docs[j])
  }

  /** `Select` keeps the first matching document at its head. */
  lemma {:induction false} SelectFirst(st: Store, s: Selector, docs: seq<Record>, i: nat)
    requires i < |docs| && Matches(st, s, docs[i])
    requires forall j :: 0 <= j < i ==> !Matches(st, s, docs[j])
    ensures Select(st, s, docs) != [] && Select(st, s, docs)[0] == docs[i]
  {
    if i > 0 {
      SelectFirst(st, s, docs[1..], i - 1);
    }
  }

  /**
   * `findOne` answers with the projection of the first document in
   * natural order that matches, and with none iff no document matches.
   */
  lemma FindOneIsFirstMatch(st: Store, key: CollectionKey, s: Selector, p: Projection)
    ensures var docs := Contents(st, key);
      && (FindOne(st, key, s, p).None? <==> forall j :: 0 <= j < |docs| ==> !Matches(st, s, docs[j]))
      && forall i :: 0 <= i < |docs| && Matches(st, s, docs[i]) && FirstMatchAt(st, s, docs, i) ==>
           FindOne(st, key, s, p) == Some(Project(p, docs[i]))
  {
    var docs := Contents(st, key);
    forall i | 0 <= i < |docs| && Matches(st, s, docs[i]) && FirstMatchAt(st, s, docs, i)
      ensures FindOne(st, key, s, p) == Some(Project(p, docs[i]))
    {
      SelectFirst(st, s, docs, i);
    }
    if FindOne(st, key, s, p).None? {
      forall j | 0 <= j < |docs| ensures !Matches(st, s, docs[j]) {
        assert docs[j] in docs;
      }
    } else {
      assert Select(st, s, docs)[0] in Select(st, s, docs);
    }
  }

  /** The empty selector matches every document, so `find` returns the whole collection. */
  lemma {:induction false} SelectEmpty(st: Store, docs: seq<Record>)
    ensures Select(st, Empty, docs) == docs
  {
    if docs != [] {
      SelectEmpty(st, docs[1..]);
    }
  }
}
