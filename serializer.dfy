/**
 * The outbound mapping of a stored document to the fixed eight-field
 * product record (serialize_product).
 */
module Serializer {
  import opened Wrappers
  import opened Documents

  /** The wire record: `id` plus the seven product fields. */
  datatype ProductOut = ProductOut(
    id: string,
    title: Value,
    description: Value,
    price: real,
    category: Value,
    inStock: bool,
    imageUrl: Value,
    brand: Value)

  /** `float(doc.get("price", 0))` raised on the value it was given. */
  datatype Fault = PriceNotNumeric(price: Value)

  /** The keys the serializer reads besides `_id`. */
  const ReadKeys: set<string> :=
    {"title", "description", "price", "category", "in_stock", "image_url", "brand"}

  /** Two documents agree on `keys`: each key is absent from both or stored with the same value. */
  predicate AgreeOn(d1: Doc, d2: Doc, keys: set<string>)
  {
    forall k :: k in keys ==>
      (k in d1.fields <==> k in d2.fields) &&
      (k in d1.fields ==> d1.fields[k] == d2.fields[k])
  }

  /** serialize_product: absent price is 0, absent in_stock is true, the rest passes through. */
  function Serialize(c: IdCodec, d: Doc): Result<ProductOut, Fault>
  {
    match ToFloat(GetOr(d, "price", Number(0.0)))
    case None => Err(PriceNotNumeric(Get(d, "price")))
    case Some(price) =>
      Ok(ProductOut(
        id := c.show(d.oid),
        title := Get(d, "title"),
        description := Get(d, "description"),
        price := price,
        category := Get(d, "category"),
        inStock := Truthy(GetOr(d, "in_stock", Flag(true))),
        imageUrl := Get(d, "image_url"),
        brand := Get(d, "brand")))
  }

  /** Serialization fails exactly when a price is stored that float() rejects. */
  lemma SerializeFails(c: IdCodec, d: Doc)
    ensures Serialize(c, d).Err? <==>
      "price" in d.fields && !(d.fields["price"].Number? || d.fields["price"].Flag?)
    ensures Serialize(c, d).Err? ==> Serialize(c, d).error == PriceNotNumeric(d.fields["price"])
  {
  }

  /** The default policy: an absent price is 0 and an absent in_stock is true. */
  lemma SerializeDefaults(c: IdCodec, d: Doc)
    ensures "price" !in d.fields ==> Serialize(c, d).Ok? && Serialize(c, d).value.price == 0.0
    ensures Serialize(c, d).Ok? && "in_stock" !in d.fields ==> Serialize(c, d).value.inStock
    ensures Serialize(c, d).Ok? && "in_stock" in d.fields && d.fields["in_stock"].Flag? ==>
      Serialize(c, d).value.inStock == d.fields["in_stock"].b
    ensures Serialize(c, d).Ok? && "price" in d.fields && d.fields["price"].Number? ==>
      Serialize(c, d).value.price == d.fields["price"].x
  {
  }

  /** Defaults apply to absent keys only: a stored null does not get them. */
  lemma SerializeNullIsNotAbsent(c: IdCodec, d: Doc)
    ensures "price" in d.fields && d.fields["price"] == Null ==> Serialize(c, d).Err?
    ensures Serialize(c, d).Ok? && "in_stock" in d.fields && d.fields["in_stock"] == Null ==>
      !Serialize(c, d).value.inStock
  {
  }

  /** The five text fields are copied unchanged (Null when absent) and `id` is the text of `_id`. */
  lemma SerializeCopies(c: IdCodec, d: Doc, p: ProductOut)
    requires Serialize(c, d) == Ok(p)
    ensures p.id == c.show(d.oid)
    ensures p.title == Get(d, "title") && p.description == Get(d, "description")
    ensures p.category == Get(d, "category") && p.imageUrl == Get(d, "image_url")
    ensures p.brand == Get(d, "brand")
    ensures "title" !in d.fields ==> p.title == Null
    ensures "description" !in d.fields ==> p.description == Null
    ensures "category" !in d.fields ==> p.category == Null
    ensures "image_url" !in d.fields ==> p.imageUrl == Null
    ensures "brand" !in d.fields ==> p.brand == Null
  {
  }

  /** With the library's codec, the outbound `id` parses back to the document's `_id`. */
  lemma SerializeIdRoundTrip(c: IdCodec, d: Doc, p: ProductOut)
    requires Lawful(c)
    requires Serialize(c, d) == Ok(p)
    ensures c.valid(p.id) && c.parse(p.id) == d.oid
  {
  }

  /** Every key other than `_id` and the seven read ones is ignored. */
  lemma SerializeIgnoresOtherKeys(c: IdCodec, d1: Doc, d2: Doc)
    requires d1.oid == d2.oid
    requires AgreeOn(d1, d2, ReadKeys)
    ensures Serialize(c, d1) == Serialize(c, d2)
  {
  }

  /**
   * The list comprehension `[serialize_product(d) for d in docs]`: products
   * in the order of the documents, or the fault of the first document that
   * cannot be serialized.
   */
  function SerializeAll(c: IdCodec, docs: seq<Doc>): (r: Result<seq<ProductOut>, Fault>)
    ensures r.Ok? <==> forall i :: 0 <= i < |docs| ==> Serialize(c, docs[i]).Ok?
    ensures r.Ok? ==> |r.value| == |docs|
    ensures r.Ok? ==> forall i :: 0 <= i < |docs| ==> Serialize(c, docs[i]) == Ok(r.value[i])
    ensures r.Err? ==> exists i :: 0 <= i < |docs| && Serialize(c, docs[i]) == Err(r.error) &&
                                 (forall j :: 0 <= j < i ==> Serialize(c, docs[j]).Ok?)
  {
    if docs == [] then Ok([])
    else
      match Serialize(c, docs[0])
      case Err(e) => Err(e)
      case Ok(p) =>
        match SerializeAll(c, docs[1..])
        case Err(e) => Err(e)
        case Ok(ps) => Ok([p] + ps)
  }
}
