/**
 * The document store as the catalog service sees it: loosely-typed product
 * documents keyed by the store's native identifier, and the textual codec
 * for that identifier.
 */
module Documents {
  import opened Wrappers

  /** The store's native identifier (a BSON ObjectId): its raw bytes. */
  datatype ObjectId = ObjectId(bytes: seq<bv8>)

  /** A value stored under a key; Null is a stored null (Python None). */
  datatype Value = Null | Text(s: string) | Number(x: real) | Flag(b: bool)

  /**
   * A stored product document: the `_id` the store assigned on insertion and
   * every other key with its value. A key missing from `fields` is absent,
   * which is not the same as being present with value Null.
   */
  datatype Doc = Doc(oid: ObjectId, fields: map<string, Value>)

  /** The product collection: find_one({"_id": oid}) is a lookup here. */
  type Store = map<ObjectId, Doc>

  /** Every document is filed under its own `_id`. */
  predicate Coherent(store: Store)
  {
    forall k :: k in store ==> store[k].oid == k
  }

  /** `doc.get(key)`: the stored value, None when the key is absent. */
  function Get(d: Doc, key: string): Value
  {
    if key in d.fields then d.fields[key] else Null
  }

  /** `doc.get(key, default)`: the default applies only to an absent key. */
  function GetOr(d: Doc, key: string, default: Value): Value
  {
    if key in d.fields then d.fields[key] else default
  }

  /** Python's `bool(v)`: only None, False, zero and the empty string are false. */
  function Truthy(v: Value): (t: bool)
    ensures !t <==> v in {Null, Flag(false), Number(0.0), Text("")}
  {
    match v
    case Null => false
    case Text(s) => s != ""
    case Number(x) => x != 0.0
    case Flag(b) => b
  }

  /** Python's `float(v)`, None where it raises. */
  function ToFloat(v: Value): (r: Option<real>)
    ensures r.Some? <==> v.Number? || v.Flag?
    ensures v.Number? ==> r == Some(v.x)
  {
    match v
    case Number(x) => Some(x)
    case Flag(b) => Some(if b then 1.0 else 0.0)
    case _ => None
  }

  /**
   * The identifier codec of the BSON library, left abstract: which strings
   * `ObjectId(s)` accepts, what it parses them to, and `str(oid)`.
   */
  datatype IdCodec = IdCodec(valid: string -> bool, parse: string -> ObjectId, show: ObjectId -> string)

  /** The library's round trip: the text of an id is accepted and parses back to it. */
  ghost predicate Lawful(c: IdCodec)
  {
    forall o :: c.valid(c.show(o)) && c.parse(c.show(o)) == o
  }
}
