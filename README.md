# Hardware store catalog: search filter, serializer and point lookup

A Dafny model of the read path of a small FastAPI catalog service backed by
MongoDB (`main.py`). Three pieces of logic are modelled and proved:

- **Search filter construction** (`list_products`). An optional text query
  `q` and an optional `category` become a store filter. A non-empty `q` adds
  an OR group of case-insensitive pattern matches on `title`, `description`
  and `brand`. A non-empty `category` adds an exact equality. With neither,
  the filter is empty and matches everything. Module `Filters` has three
  parts: the tagged filter `Filter` (`MatchAll`, `Matches`, `Equals`, `And`,
  `Or`) with its meaning `Eval`; the pure `Build`; and the method
  `ListFilters`, which assigns the native filter dictionary key by key as the
  handler does. The method is proved equal in meaning to `Build`, and `Build`
  is proved equal to `Selected`, a reference predicate written without
  filters.
- **Outbound serialisation** (`serialize_product`). A loosely-typed document
  becomes a fixed eight-field record. An absent `price` becomes 0 and an
  absent `in_stock` becomes true. The five text fields pass through
  unchanged, and `id` is the text of `_id` (module `Serializer`).
- **The two read endpoints** (module `Handlers`). `ListProducts` checks the
  limit (default 50, range 1 to 100), builds the filter, fetches and
  serialises. `GetProduct` parses the id (bad id: 400), looks it up (missing:
  404) and serialises the document.

Modelling choices:

- A document is `Doc(oid, fields)`. `oid` is the `_id` the store assigned.
  `fields` maps every other key to a `Value` (`Null`, `Text`, `Number`,
  `Flag`). An absent key is kept distinct from a stored null, because
  `doc.get("price", 0)` only defaults an absent key.
- The BSON identifier codec is a parameter `IdCodec(valid, parse, show)`.
  `Lawful` states the library's round trip (`ObjectId(str(oid)) == oid`).
- The regular-expression engine is an uninterpreted `Matcher` parameter.
  `q` is a raw, unescaped pattern, so no substring meaning is claimed.
- `get_documents` is a `Fetch` parameter. Two explicit assumptions about it,
  `HonoursBound` and `HonoursFilter`, are stated as predicates and used only
  where a contract names them.
- `bool(...)` on `in_stock` follows Python truthiness for the four value
  kinds of the model. `float(...)` on `price` accepts numbers and booleans.
- A `float()` failure inside `serialize_product` raises an exception, which
  FastAPI turns into HTTP 500. It is therefore modelled as an outcome:
  `ListFailed` for the listing and `Corrupt` for the lookup.

Notes on what the code does:

- An empty-string `category` is treated as absent, because the code tests
  truthiness (main.py:100).
- Text search is a raw regex with the `i` option, not substring containment
  (main.py:96-98).
- An `_id` that is missing or not an ObjectId is not reported as a corrupt
  record: `str(doc.get("_id"))` formats whatever is there (main.py:76).

## Model

| member | source | states |
|---|---|---|
| `Documents.Truthy` | main.py:81 | `bool()` of a stored value is false exactly for null, `False`, zero and the empty string |
| `Documents.ToFloat` | main.py:79 | `float()` succeeds exactly on numbers and booleans; a number keeps its value |
| `Serializer.SerializeFails` | main.py:79 | serialisation fails iff a `price` is stored that `float()` rejects; the fault carries that value |
| `Serializer.SerializeDefaults` | main.py:79-81 | absent `price` gives 0 and never fails; absent `in_stock` gives true; a stored boolean `in_stock` and a stored numeric `price` are kept |
| `Serializer.SerializeNullIsNotAbsent` | main.py:79-81 | the defaults apply only to absent keys: a stored null price fails and a stored null in_stock gives false |
| `Serializer.SerializeCopies` | main.py:76-83 | `title`, `description`, `category`, `image_url`, `brand` are copied unchanged (null when absent) and `id` is the text of `_id` |
| `Serializer.SerializeIdRoundTrip` | main.py:76 | with the library's codec, the outbound `id` is a valid id that parses back to the document's `_id` |
| `Serializer.SerializeIgnoresOtherKeys` | main.py:74-84 | two documents with the same `_id` that agree on the seven read keys serialise identically: every other key is ignored |
| `Serializer.SerializeAll` | main.py:104 | the comprehension succeeds iff every document serialises, keeps their number and order, and otherwise reports the first failing document's fault |
| `Filters.TextGroupSelects` | main.py:95-99 | a document passes the OR group iff its `title`, `description` or `brand` is text that matches `q` case-insensitively |
| `Filters.BuildSelects` | main.py:93-101 | a document passes the built filter iff it passes the text group (when `q` is non-empty) and has exactly the given category (when `category` is non-empty) |
| `Filters.BuildMatchAll` | main.py:93 | with neither `q` nor `category` the filter is empty and every document passes it |
| `Filters.EmptyIsAbsent` | main.py:94-100 | an empty `q` or `category` builds the same filter as an absent one |
| `Filters.ListFilters` | main.py:93-101 | the dictionary has `"$or"` iff `q` is non-empty, holding exactly three case-insensitive matches of `q` on `title`, `description` and `brand`; it has `"category"` iff the category is non-empty, holding an equality; it has no other keys; it equals `NativeFilters` and selects the same documents as `Build` |
| `Filters.NativeFiltersMeanBuild` | main.py:93-101 | the filter dictionary holds of a document iff the tagged filter `Build` does, in each of the four cases of `q` and `category` |
| `Handlers.SelectedSerializes` | main.py:94-104 | a document that satisfies the request serialises to a product whose text fields and category satisfy it too |
| `Handlers.ListProducts` | main.py:87-104 | the request is rejected iff the limit (default 50) is outside 1..100; otherwise the result is the serialisation of exactly what the fetch returns for the built filter dictionary and the unchanged limit; if the fetch honours its bound, at most `limit` products are returned; if it honours the filter, every product satisfies the query and category |
| `Handlers.AssumptionsSatisfiable` | main.py:103 | the two assumptions about `get_documents` can both hold (the empty fetch meets them) |
| `Handlers.GetProductBadId` | main.py:115-118 | a malformed id gives `BadId` whatever the store holds: the store is not consulted |
| `Handlers.GetProductCases` | main.py:114-123 | `BadId` iff the id is malformed; `NotFound` iff it is valid and absent; a valid stored id whose document serialises gives `Found` with that serialisation; `Found` or `Corrupt` only for a stored document, with its serialisation or its fault |
| `Handlers.GetStoredProduct` | main.py:116-123 | with the library's codec and a coherent store, looking up the `id` of a serialised stored product returns that same product |

## Left out

- App creation, routing decorators, CORS middleware, the liveness route and uvicorn startup (main.py:11-32, 126-129): framework plumbing with no logic.
- The `/test` diagnostic (main.py:35-69): environment variables and database introspection, which is I/O only.
- `create_product` (main.py:107-110): it only forwards to `create_document`. `database.py` (`create_document`, `get_documents`) is not part of this model, and neither is `schemas.py` (`Product`). The fetch is a parameter, and its two properties are explicit assumptions.
- Pydantic validation of `ProductOut`: `schemas.py` is not modelled. The text fields are passed through as stored values, with no type check.
- BSON ObjectId parsing and formatting: a foreign library, modelled as the abstract `IdCodec`.
- The MongoDB regex engine: modelled as the uninterpreted `Matcher`. A non-text value never matches a pattern.
- Documents.Truthy: `Value` covers only null, string, number and boolean. Arrays, embedded documents, dates and ObjectIds stored in a field are not modelled, so neither is their truthiness, nor MongoDB's element-wise matching of `$regex` and equality against array fields.
- Documents.ToFloat: Python's `float()` also parses numeric text. The model treats a text `price` as a failure, and it uses exact reals instead of floating point.
- Serializer.SerializeCopies: `str(doc.get("_id"))` is modelled only for an ObjectId `_id`. The store always assigns one, so a missing or non-ObjectId `_id` is not modelled.
- Handlers.ListProducts: the fetch and the store never fail in the model. An invalid regular expression in `q` (such as `(`), which makes the store reject the query, and store connectivity failures at main.py:103 and main.py:120 all give HTTP 500 in the service; these outcomes are not modelled.
- Handlers.ListProducts: the store's result order is left to the fetch. FastAPI's rejection of a non-integer `limit` is not modelled.
