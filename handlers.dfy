/**
 * The two read endpoints of the product API: the listing with its search
 * filter and limit, and the point lookup by id.
 */
module Handlers {
  import opened Wrappers
  import opened Documents
  import opened Serializer
  import opened Filters

  /** The `limit` query parameter: its default and its accepted range. */
  const DefaultLimit: int := 50
  const MinLimit: int := 1
  const MaxLimit: int := 100

  function EffectiveLimit(limit: Option<int>): int
  {
    if limit.Some? then limit.value else DefaultLimit
  }

  predicate ValidLimit(n: int)
  {
    MinLimit <= n <= MaxLimit
  }

  /**
   * get_documents("product", filters, limit), a call into code outside this
   * model: the documents the store returns for a native filter and a bound.
   */
  type Fetch = (Query, int) -> seq<Doc>

  /** Assumption about the fetch: for an accepted limit it returns at most `limit` documents. */
  ghost predicate HonoursBound(fetch: Fetch)
  {
    forall query, n :: ValidLimit(n) ==> |fetch(query, n)| <= n
  }

  /** Assumption about the fetch: every document it returns satisfies the filter. */
  ghost predicate HonoursFilter(fetch: Fetch, m: Matcher)
  {
    forall query, n, i :: 0 <= i < |fetch(query, n)| ==> Holds(query, fetch(query, n)[i], m)
  }

  /** The fetch that returns nothing meets both assumptions, so neither is vacuous. */
  lemma AssumptionsSatisfiable(m: Matcher)
    ensures HonoursBound((query: Query, n: int) => [])
    ensures HonoursFilter((query: Query, n: int) => [], m)
  {
  }

  /** Outcome of GET /api/products. */
  datatype Listing =
    | LimitRejected                      // request validation, HTTP 422
    | Listed(products: seq<ProductOut>)  // HTTP 200
    | ListFailed(fault: Fault)           // a document could not be serialized, HTTP 500

  /** What a listed product must satisfy, stated on the outbound record. */
  predicate ProductSelected(q: Option<string>, category: Option<string>, p: ProductOut, m: Matcher)
  {
    (Present(q) ==>
       TextMatches(p.title, q.value, m) || TextMatches(p.description, q.value, m) ||
       TextMatches(p.brand, q.value, m)) &&
    (Present(category) ==> p.category == Text(category.value))
  }

  /** The listing for the comprehension's outcome: the products, or the fault that was raised. */
  function ListingOf(out: Result<seq<ProductOut>, Fault>): Listing
  {
    match out
    case Ok(ps) => Listed(ps)
    case Err(e) => ListFailed(e)
  }

  /** A selected document serializes to a selected product. */
  lemma SelectedSerializes(c: IdCodec, q: Option<string>, category: Option<string>, d: Doc, p: ProductOut, m: Matcher)
    requires Selected(q, category, d, m)
    requires Serialize(c, d) == Ok(p)
    ensures ProductSelected(q, category, p, m)
  {
  }

  /**
   * list_products: validate the limit, build the filter dictionary, fetch
   * at most `limit` documents and serialize each of them.
   */
  method ListProducts(c: IdCodec, fetch: Fetch, ghost m: Matcher,
                      q: Option<string>, category: Option<string>, limit: Option<int>)
    returns (r: Listing)
    ensures r.LimitRejected? <==> !ValidLimit(EffectiveLimit(limit))
    ensures limit.None? ==> !r.LimitRejected?
    ensures ValidLimit(EffectiveLimit(limit)) ==>
      r == ListingOf(SerializeAll(c, fetch(NativeFilters(q, category), EffectiveLimit(limit))))
    ensures HonoursBound(fetch) && r.Listed? ==> |r.products| <= EffectiveLimit(limit)
    ensures HonoursFilter(fetch, m) && r.Listed? ==>
      forall i :: 0 <= i < |r.products| ==> ProductSelected(q, category, r.products[i], m)
  {
    var n := EffectiveLimit(limit);
    if !ValidLimit(n) {
      return LimitRejected;
    }
    var filters := ListFilters(q, category);
    var docs := fetch(filters, n);
    var out := SerializeAll(c, docs);
    match out {
      case Err(e) =>
        r := ListFailed(e);
      case Ok(ps) =>
        r := Listed(ps);
        assert |ps| == |docs|;
        if HonoursFilter(fetch, m) {
          forall i | 0 <= i < |ps| ensures ProductSelected(q, category, ps[i], m) {
            assert Holds(filters, docs[i], m);
            BuildSelects(q, category, docs[i], m);
            SelectedSerializes(c, q, category, docs[i], ps[i], m);
          }
        }
    }
  }

  /** Outcome of GET /api/products/{id}. */
  datatype Lookup =
    | BadId                 // the id does not parse, HTTP 400
    | NotFound              // no document has that id, HTTP 404
    | Found(product: ProductOut)
    | Corrupt(fault: Fault) // the stored document could not be serialized, HTTP 500

  /** get_product: parse the id, look it up, serialize the document. */
  function GetProduct(c: IdCodec, store: Store, productId: string): Lookup
  {
    if !c.valid(productId) then BadId
    else
      var oid := c.parse(productId);
      if oid !in store then NotFound
      else
        match Serialize(c, store[oid])
        case Ok(p) => Found(p)
        case Err(e) => Corrupt(e)
  }

  /** A malformed id is rejected before the store is consulted: the answer is the same for every store. */
  lemma GetProductBadId(c: IdCodec, store: Store, other: Store, productId: string)
    requires !c.valid(productId)
    ensures GetProduct(c, store, productId) == BadId
    ensures GetProduct(c, store, productId) == GetProduct(c, other, productId)
  {
  }

  /** The outcomes in order: BadId, then NotFound, then the serialized document. */
  lemma GetProductCases(c: IdCodec, store: Store, productId: string)
    ensures GetProduct(c, store, productId) == BadId <==> !c.valid(productId)
    ensures GetProduct(c, store, productId) == NotFound <==>
      c.valid(productId) && c.parse(productId) !in store
    ensures (c.valid(productId) && c.parse(productId) in store &&
             Serialize(c, store[c.parse(productId)]).Ok?) ==>
      GetProduct(c, store, productId) == Found(Serialize(c, store[c.parse(productId)]).value)
    ensures GetProduct(c, store, productId).Found? ==>
      c.valid(productId) && c.parse(productId) in store &&
      Serialize(c, store[c.parse(productId)]) == Ok(GetProduct(c, store, productId).product)
    ensures GetProduct(c, store, productId).Corrupt? ==>
      c.valid(productId) && c.parse(productId) in store &&
      Serialize(c, store[c.parse(productId)]) == Err(GetProduct(c, store, productId).fault)
  {
  }

  /** Looking up the id of a stored product returns that product. */
  lemma GetStoredProduct(c: IdCodec, store: Store, oid: ObjectId, p: ProductOut)
    requires Lawful(c)
    requires Coherent(store)
    requires oid in store
    requires Serialize(c, store[oid]) == Ok(p)
    ensures GetProduct(c, store, p.id) == Found(p)
  {
  }
}
