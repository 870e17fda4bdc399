/**
 * The search filter of list_products: a tagged filter expression, what it
 * selects, the filter a request builds, and the store-native filter
 * document the handler assembles key by key.
 */
module Filters {
  import opened Wrappers
  import opened Documents

  /** A store-level filter expression. */
  datatype Filter =
    | MatchAll
    | Matches(field: string, pattern: string, ignoreCase: bool)
    | Equals(field: string, value: string)
    | And(parts: seq<Filter>)
    | Or(alternatives: seq<Filter>)

  /**
   * The store's regular-expression engine, left uninterpreted: whether a
   * text matches a pattern, with or without the case-insensitive option.
   * The pattern is the client's raw query, not a literal substring.
   */
  type Matcher = (string, string, bool) -> bool

  /** A stored value matches a pattern only when it is text. */
  predicate TextMatches(v: Value, pattern: string, m: Matcher)
  {
    v.Text? && m(v.s, pattern, true)
  }

  /** Whether document `d` satisfies filter `f`. */
  predicate Eval(f: Filter, d: Doc, m: Matcher)
  {
    match f
    case MatchAll => true
    case Matches(k, p, i) => Get(d, k).Text? && m(Get(d, k).s, p, i)
    case Equals(k, x) => Get(d, k) == Text(x)
    case And(ps) => forall j :: 0 <= j < |ps| ==> Eval(ps[j], d, m)
    case Or(ps) => exists j :: 0 <= j < |ps| && Eval(ps[j], d, m)
  }

  /** Python truthiness of an optional string: None and "" are both absent. */
  predicate Present(o: Option<string>)
  {
    o.Some? && o.value != ""
  }

  /** The fields a text query searches, in the order the OR group lists them. */
  const SearchFields: seq<string> := ["title", "description", "brand"]

  /** The OR group of a text query: a case-insensitive match on each search field. */
  function TextGroup(q: string): Filter
  {
    Or([Matches("title", q, true), Matches("description", q, true), Matches("brand", q, true)])
  }

  /** The filter a search request builds. */
  function Build(q: Option<string>, category: Option<string>): Filter
  {
    if Present(q) && Present(category) then And([TextGroup(q.value), Equals("category", category.value)])
    else if Present(q) then TextGroup(q.value)
    else if Present(category) then Equals("category", category.value)
    else MatchAll
  }

  /** Reference meaning of a request, written without filters. */
  predicate Selected(q: Option<string>, category: Option<string>, d: Doc, m: Matcher)
  {
    (Present(q) ==> exists i :: 0 <= i < |SearchFields| && TextMatches(Get(d, SearchFields[i]), q.value, m)) &&
    (Present(category) ==> Get(d, "category") == Text(category.value))
  }

  lemma TextGroupSelects(q: string, d: Doc, m: Matcher)
    ensures Eval(TextGroup(q), d, m) <==>
      exists i :: 0 <= i < |SearchFields| && TextMatches(Get(d, SearchFields[i]), q, m)
  {
    var alts := TextGroup(q).alternatives;
    forall i | 0 <= i < 3
      ensures Eval(alts[i], d, m) <==> TextMatches(Get(d, SearchFields[i]), q, m)
    {
    }
  }

  /** A document is selected iff it passes the text group (when q is given) and the category (when given). */
  lemma BuildSelects(q: Option<string>, category: Option<string>, d: Doc, m: Matcher)
    ensures Eval(Build(q, category), d, m) <==> Selected(q, category, d, m)
  {
    if Present(q) {
      TextGroupSelects(q.value, d, m);
      if Present(category) {
        var parts := Build(q, category).parts;
        assert Eval(Build(q, category), d, m) <==> Eval(parts[0], d, m) && Eval(parts[1], d, m);
      }
    }
  }

  /** Without q and category the filter is empty and selects every document. */
  lemma BuildMatchAll(q: Option<string>, category: Option<string>, d: Doc, m: Matcher)
    requires !Present(q) && !Present(category)
    ensures Build(q, category) == MatchAll
    ensures Eval(Build(q, category), d, m)
  {
  }

  /** An empty string counts as absent, for the query and for the category. */
  lemma EmptyIsAbsent(q: Option<string>, category: Option<string>)
    ensures Build(Some(""), category) == Build(None, category)
    ensures Build(q, Some("")) == Build(q, None)
  {
  }

  /**
   * The store-native filter document: a dictionary whose entries must all
   * hold ("$or" holds an OR group, any other key an equality on that field).
   */
  type Query = map<string, Filter>

  /** A native filter document holds of `d` when every entry does. */
  predicate Holds(query: Query, d: Doc, m: Matcher)
  {
    forall k :: k in query ==> Eval(query[k], d, m)
  }

  /** The filter dictionary a request yields: one entry per non-empty input. */
  function NativeFilters(q: Option<string>, category: Option<string>): Query
  {
    (if Present(q) then map["$or" := TextGroup(q.value)] else map[]) +
    (if Present(category) then map["category" := Equals("category", category.value)] else map[])
  }

  /** The filter dictionary selects the same documents as the tagged filter `Build`. */
  lemma NativeFiltersMeanBuild(q: Option<string>, category: Option<string>, d: Doc, m: Matcher)
    ensures Holds(NativeFilters(q, category), d, m) <==> Eval(Build(q, category), d, m)
  {
    var filters := NativeFilters(q, category);
    if Present(q) && Present(category) {
      assert filters.Keys == {"$or", "category"};
      assert Holds(filters, d, m) <==> Eval(filters["$or"], d, m) && Eval(filters["category"], d, m);
      var parts := Build(q, category).parts;
      assert parts == [filters["$or"], filters["category"]];
      assert Eval(Build(q, category), d, m) <==> Eval(parts[0], d, m) && Eval(parts[1], d, m);
    } else if Present(q) {
      assert filters.Keys == {"$or"};
      assert Holds(filters, d, m) <==> Eval(filters["$or"], d, m);
      assert filters["$or"] == Build(q, category);
    } else if Present(category) {
      assert filters.Keys == {"category"};
      assert Holds(filters, d, m) <==> Eval(filters["category"], d, m);
      assert filters["category"] == Build(q, category);
    } else {
      assert filters == map[];
    }
  }

  /**
   * The filter dictionary of list_products, assigned key by key: an OR
   * group under "$or" for a non-empty q, an equality under "category" for a
   * non-empty category.
   */
  method ListFilters(q: Option<string>, category: Option<string>) returns (filters: Query)
    ensures filters == NativeFilters(q, category)
    ensures "$or" in filters <==> Present(q)
    ensures Present(q) ==> filters["$or"].Or? && |filters["$or"].alternatives| == |SearchFields|
    ensures Present(q) ==> forall i :: 0 <= i < |SearchFields| ==>
      filters["$or"].alternatives[i] == Matches(SearchFields[i], q.value, true)
    ensures "category" in filters <==> Present(category)
    ensures Present(category) ==> filters["category"] == Equals("category", category.value)
    ensures filters.Keys <= {"$or", "category"}
    ensures forall d, m :: Holds(filters, d, m) <==> Eval(Build(q, category), d, m)
  {
    filters := map[];
    if Present(q) {
      filters := filters["$or" := TextGroup(q.value)];
    }
    if Present(category) {
      filters := filters["category" := Equals("category", category.value)];
    }
    assert filters == NativeFilters(q, category);
    forall d, m ensures Holds(filters, d, m) <==> Eval(Build(q, category), d, m) {
      NativeFiltersMeanBuild(q, category, d, m);
    }
  }
}
