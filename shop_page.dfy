/**
 * The shop listing (src/app/shop/page.tsx): the metal filter and search text
 * start from the URL, the product query narrows the catalogue on the server,
 * and the page then keeps the loaded products that match both the metal
 * filter and the search text.
 */
module ShopPage {
  import opened Wrappers
  import opened Types
  import opened JsStrings
  import opened JsArrays

  /** `searchParams.get('metal') || 'all'` */
  function InitialFilter(metalParam: Option<string>): (filter: string)
    ensures Truthy(metalParam) ==> filter == metalParam.value
    ensures !Truthy(metalParam) ==> filter == "all"
  {
    OrDefault(metalParam, "all")
  }

  /** `searchParams.get('search') || ''` */
  function InitialSearch(searchParam: Option<string>): (query: string)
    ensures Truthy(searchParam) ==> query == searchParam.value
    ensures !Truthy(searchParam) ==> query == ""
  {
    OrDefault(searchParam, "")
  }

  /** `s?.toLowerCase().includes(t)` on a nullable string: null never matches. */
  predicate OptIncludes(s: Option<string>, t: string) {
    s.Some? && Includes(ToLower(s.value), t)
  }

  /**
   * The metal filter: everything for "all", the products of that metal, and
   * for "diamond" also the gold products whose description mentions diamond.
   */
  predicate MatchesType(p: Product, filter: string) {
    filter == "all" || p.metal_type == filter
      || (filter == "diamond" && p.metal_type == "gold" && OptIncludes(p.description, "diamond"))
  }

  /** The search: no text matches all; otherwise the name or the description must contain it, ignoring case. */
  predicate MatchesSearch(p: Product, query: string) {
    query != "" ==> Includes(ToLower(p.name), ToLower(query)) || OptIncludes(p.description, ToLower(query))
  }

  function Keep(filter: string, query: string): Product -> bool {
    (p: Product) => MatchesType(p, filter) && MatchesSearch(p, query)
  }

  /** `filteredProducts`: the loaded products that match both, in their order. */
  function FilteredProducts(products: seq<Product>, filter: string, query: string): (shown: seq<Product>)
    ensures |shown| <= |products|
  {
    Filter(Keep(filter, query), products)
  }

  /** The result keeps the loaded order and drops only non-matching products. */
  lemma FilteredIsSubsequence(products: seq<Product>, filter: string, query: string)
    ensures IsSubsequence(FilteredProducts(products, filter, query), products)
  {
    FilterIsSubsequence(Keep(filter, query), products);
  }

  /** A product is shown exactly when it was loaded and matches both the type and the search. */
  lemma FilteredMembership(products: seq<Product>, filter: string, query: string, p: Product)
    ensures p in FilteredProducts(products, filter, query) <==>
      p in products && MatchesType(p, filter) && MatchesSearch(p, query)
  {
    FilterMembership(Keep(filter, query), products, p);
  }

  /** With the default filter and no search text, every loaded product is shown. */
  lemma DefaultsShowEverything(products: seq<Product>)
    ensures FilteredProducts(products, InitialFilter(None), InitialSearch(None)) == products
  {
    FilterKeepsAll(Keep("all", ""), products);
  }

  /** A product without a description matches a search only through its name. */
  lemma NullDescriptionSearchesName(p: Product, query: string)
    requires p.description.None? && query != ""
    ensures MatchesSearch(p, query) <==> Includes(ToLower(p.name), ToLower(query))
  {
  }

  /**
   * The product query as sent: `eq('metal_type', filter)` unless the filter
   * is "all", and `ilike('name', '%query%')` when there is search text.
   */
  predicate QueryMatches(p: Product, filter: string, query: string) {
    (filter == "all" || p.metal_type == filter)
      && (query != "" ==> Includes(ToLower(p.name), ToLower(query)))
  }

  function QueryKeep(filter: string, query: string): Product -> bool {
    (p: Product) => QueryMatches(p, filter, query)
  }

  /** What the page shows for catalogue `catalogue` with the query as written. */
  function ShownAsWritten(catalogue: seq<Product>, filter: string, query: string): seq<Product> {
    FilteredProducts(Filter(QueryKeep(filter, query), catalogue), filter, query)
  }

  /**
   * With the "diamond" filter the query already asks for metal "diamond", so a
   * gold product whose description mentions diamond is never loaded, although
   * the page's own filter accepts it.
   */
  lemma DiamondGoldNeverShown(p: Product)
    requires p.metal_type == "gold" && p.description == Some("diamond ring")
    ensures MatchesType(p, "diamond") && MatchesSearch(p, "")
    ensures ShownAsWritten([p], "diamond", "") == []
  {
    LowerCaseUnchanged("diamond ring");
    assert Includes("diamond ring", "diamond");
    assert !QueryMatches(p, "diamond", "");
    assert Filter(QueryKeep("diamond", ""), [p]) == [];
  }

  /**
   * The query searches names only, so a product whose description alone
   * contains the search text is never loaded, although the page's search accepts it.
   */
  lemma DescriptionMatchNeverShown(p: Product)
    requires p.name == "ring" && p.description == Some("bridal") && p.metal_type == "gold"
    ensures MatchesType(p, "all") && MatchesSearch(p, "bridal")
    ensures ShownAsWritten([p], "all", "bridal") == []
  {
    LowerCaseUnchanged("bridal");
    LowerCaseUnchanged("ring");
    assert Includes("bridal", "bridal");
    assert !Includes("ring", "bridal");
    assert !QueryMatches(p, "all", "bridal");
    assert Filter(QueryKeep("all", "bridal"), [p]) == [];
  }

  /**
   * A query that does not narrow past the page's own filter: for "diamond"
   * it asks for diamond and gold products, and the search covers the
   * description as well as the name.
   */
  predicate QueryMatchesFixed(p: Product, filter: string, query: string) {
    (filter == "all" || p.metal_type == filter || (filter == "diamond" && p.metal_type == "gold"))
      && MatchesSearch(p, query)
  }

  function QueryKeepFixed(filter: string, query: string): Product -> bool {
    (p: Product) => QueryMatchesFixed(p, filter, query)
  }

  function Shown(catalogue: seq<Product>, filter: string, query: string): seq<Product> {
    FilteredProducts(Filter(QueryKeepFixed(filter, query), catalogue), filter, query)
  }

  /** With the corrected query the page shows exactly the catalogue products its filter accepts. */
  lemma ShownIsFilteredCatalogue(catalogue: seq<Product>, filter: string, query: string)
    ensures Shown(catalogue, filter, query) == FilteredProducts(catalogue, filter, query)
  {
    FilterAfterWeaker(Keep(filter, query), QueryKeepFixed(filter, query), catalogue);
  }
}
