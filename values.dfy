/**
 * The JavaScript values the document mapper handles: filter values, record
 * field values and the store's own ObjectId and RegExp values, plus the
 * exceptions the mapper throws.
 */
module Values {
  import opened Wrappers

  /** A store identifier, held as its canonical lower-case 24-digit hex string. */
  datatype ObjectId = ObjectId(hex: string)

  /** A RegExp, kept opaque: the value it was built from and whether it has the `i` flag. */
  datatype Pattern = Pattern(source: Value, ignoreCase: bool)

  datatype Value =
    | Undefined
    | Null
    | Bool(b: bool)
    | Num(n: int)
    | Str(s: string)
    | Oid(id: ObjectId)
    | Regex(pattern: Pattern)
    | Arr(items: seq<Value>)
    | Obj(fields: map<string, Value>)

  /** A plain object: field name to value. */
  type Record = map<string, Value>

  /** The exceptions the mapper throws, one constructor per distinct message. */
  datatype OrmError =
    | UnknownField(name: string)                 // reading `.primary` of an undescribed field
    | NullishIndex                               // reading `[0]` of null or undefined
    | NotAnArray                                 // calling `.map` on a non-array
    | InvalidObjectId(given: Value)              // `new ObjectId(...)` rejects its argument
    | CannotSearchOnPrimaryKey
    | InvalidOperator(op: string, key: string)
    | NotADocument(model: string)
    | CollectionInUse(collection: string, database: string)
    | UnknownDatabase(model: string, database: string)
    | NotRegistered(view: string, model: string)
    | InvalidRecord(id: string)

  /** `obj[key]`: an absent key reads as undefined. */
  function Get(r: Record, key: string): Value {
    if key in r then r[key] else Undefined
  }

  predicate IsNullish(v: Value) {
    v.Undefined? || v.Null?
  }

  /** JavaScript truthiness. */
  predicate Truthy(v: Value) {
    match v
    case Undefined => false
    case Null => false
    case Bool(b) => b
    case Num(n) => n != 0
    case Str(s) => s != ""
    case _ => true
  }

  predicate IsHexDigit(c: char) {
    ('0' <= c <= '9') || ('a' <= c <= 'f') || ('A' <= c <= 'F')
  }

  /** The string form `new ObjectId(s)` accepts: 24 hex digits. */
  predicate IsObjectIdHex(s: string) {
    |s| == 24 && forall i :: 0 <= i < |s| ==> IsHexDigit(s[i])
  }

  function LowerHexDigit(c: char): char {
    if 'A' <= c <= 'F' then (c as int + 32) as char else c
  }

  function Canonical(s: string): (r: string)
    ensures |r| == |s|
  {
    seq(|s|, i requires 0 <= i < |s| => LowerHexDigit(s[i]))
  }

  /** An identifier as the store hands it out: canonical 24-digit hex. */
  predicate ValidId(id: ObjectId) {
    IsObjectIdHex(id.hex) && Canonical(id.hex) == id.hex
  }

  /**
   * `new ObjectId(v)`. Undefined, null and numbers make the driver draw a new
   * identifier; that draw is the parameter `drawn`.
   */
  function NewObjectId(v: Value, drawn: ObjectId): (r: Result<ObjectId, OrmError>)
    ensures v.Str? ==> (r.Ok? <==> IsObjectIdHex(v.s))
    ensures r.Ok? && v.Str? ==> ValidId(r.value) && r.value.hex == Canonical(v.s)
    ensures r.Err? ==> r.error == InvalidObjectId(v)
  {
    match v
    case Undefined => Ok(drawn)
    case Null => Ok(drawn)
    case Num(_) => Ok(drawn)
    case Oid(id) => Ok(id)
    case Str(s) =>
      if IsObjectIdHex(s) then
        assert forall i :: 0 <= i < 24 ==> IsHexDigit(Canonical(s)[i]);
        Ok(ObjectId(Canonical(s)))
      else Err(InvalidObjectId(v))
    case _ => Err(InvalidObjectId(v))
  }

  function DigitChar(d: nat): char
    requires d < 10
  {
    "0123456789"[d]
  }

  function NatToString(n: nat): string
    decreases n
  {
    if n < 10 then [DigitChar(n)] else NatToString(n / 10) + [DigitChar(n % 10)]
  }

  /** The text a RegExp is built from (`new RegExp(undefined)` is the empty pattern). */
  function PatternText(v: Value): string
    decreases v, 1
  {
    match v
    case Undefined => ""
    case Regex(p) => PatternText(p.source)
    case _ => Stringify(v)
  }

  function JoinWithComma(parts: seq<Value>): string
    decreases parts, 0
  {
    if parts == [] then ""
    else
      var head := if IsNullish(parts[0]) then "" else Stringify(parts[0]);
      if |parts| == 1 then head else head + "," + JoinWithComma(parts[1..])
  }

  /** `String(v)`, which is also `v.toString()` for every non-nullish value. */
  function Stringify(v: Value): string
    decreases v, 0
  {
    match v
    case Undefined => "undefined"
    case Null => "null"
    case Bool(b) => if b then "true" else "false"
    case Num(n) => if n < 0 then "-" + NatToString(-n) else NatToString(n)
    case Str(s) => s
    case Oid(id) => id.hex
    case Regex(p) => "/" + PatternText(p.source) + "/" + (if p.ignoreCase then "i" else "")
    case Arr(items) => JoinWithComma(items)
    case Obj(_) => "[object Object]"
  }

  /** Parsing the string form of a store identifier gives back that identifier. */
  lemma IdRoundTrip(id: ObjectId, drawn: ObjectId)
    requires ValidId(id)
    ensures NewObjectId(Str(Stringify(Oid(id))), drawn) == Ok(id)
  {
  }

  /** Only 24-digit hex strings name an identifier, whatever case their letters are in. */
  lemma StringIdsAreCaseInsensitive(s: string, t: string, drawn: ObjectId)
    requires IsObjectIdHex(s) && IsObjectIdHex(t) && Canonical(s) == Canonical(t)
    ensures NewObjectId(Str(s), drawn) == NewObjectId(Str(t), drawn)
  {
  }
}
