/** The product research page (`app/research/page.tsx`): the default criteria,
    `applyFilters` (text search, range and score filters, platform and category
    selections, then one of six sorts) and the reset handler. */
module Research {
  import opened Seqs
  import opened Text
  import opened Sorting
  import opened Types
  import opened Wrappers
  import MockData

  const DefaultFilters: FilterOptions :=
    FilterOptions((0.0, 200.0), (0.0, 10000.0), [], [], [], 0.0)

  /** The case-insensitive search over title, seller and category. */
  predicate MatchesQuery(p: Product, query: string) {
    || Contains(Lower(p.title), Lower(query))
    || Contains(Lower(p.seller), Lower(query))
    || Contains(Lower(p.category), Lower(query))
  }

  /** The inclusive price and review ranges and the score floor. */
  predicate WithinRanges(p: Product, f: FilterOptions) {
    && f.priceRange.0 <= p.price <= f.priceRange.1
    && f.reviewRange.0 <= p.reviewCount as real <= f.reviewRange.1
    && p.winningScore as real >= f.minScore
  }

  /** A selection list constrains only when it is non-empty. */
  predicate Selected(selection: seq<string>, value: string) {
    |selection| == 0 || value in selection
  }

  /** Everything a product must satisfy to survive the filter stage; an empty
      query constrains nothing. */
  predicate Admitted(p: Product, query: string, f: FilterOptions) {
    && (query == "" || MatchesQuery(p, query))
    && WithinRanges(p, f)
    && Selected(f.platform, PlatformName(p.platform))
    && Selected(f.category, p.category)
  }

  /** The search pass: it runs only for a non-empty query, so it keeps the
      products that an empty query or a match admits. */
  function SearchPass(ps: seq<Product>, query: string): (r: seq<Product>)
    ensures r == Filter(ps, (p: Product) => query == "" || MatchesQuery(p, query))
  {
    var keep := (p: Product) => query == "" || MatchesQuery(p, query);
    if query != "" then
      var matches := (p: Product) => MatchesQuery(p, query);
      FilterExtensional(ps, matches, keep);
      Filter(ps, matches)
    else
      FilterAll(ps, keep);
      ps
  }

  /** The platform pass: it runs only for a non-empty selection. */
  function PlatformPass(ps: seq<Product>, f: FilterOptions): (r: seq<Product>)
    ensures r == Filter(ps, (p: Product) => Selected(f.platform, PlatformName(p.platform)))
  {
    var keep := (p: Product) => Selected(f.platform, PlatformName(p.platform));
    if |f.platform| > 0 then
      var member := (p: Product) => PlatformName(p.platform) in f.platform;
      FilterExtensional(ps, member, keep);
      Filter(ps, member)
    else
      FilterAll(ps, keep);
      ps
  }

  /** The category pass: it runs only for a non-empty selection. */
  function CategoryPass(ps: seq<Product>, f: FilterOptions): (r: seq<Product>)
    ensures r == Filter(ps, (p: Product) => Selected(f.category, p.category))
  {
    var keep := (p: Product) => Selected(f.category, p.category);
    if |f.category| > 0 then
      var member := (p: Product) => p.category in f.category;
      FilterExtensional(ps, member, keep);
      Filter(ps, member)
    else
      FilterAll(ps, keep);
      ps
  }

  /** The filter stage of `applyFilters`, one pass per source statement. Its
      result is the single filter by `Admitted`: exactly the admitted products,
      in their original order. */
  function FilterStage(products: seq<Product>, query: string, f: FilterOptions): (r: seq<Product>)
    ensures r == Filter(products, (p: Product) => Admitted(p, query, f))
  {
    FilterStageIsAdmitted(products, query, f);
    Passes(products, query, f)
  }

  /** The four passes in the order the page applies them. */
  function Passes(products: seq<Product>, query: string, f: FilterOptions): seq<Product> {
    var searched := SearchPass(products, query);
    var ranged := Filter(searched, (p: Product) => WithinRanges(p, f));
    CategoryPass(PlatformPass(ranged, f), f)
  }

  /** The proof that the four passes compose into one filter by `Admitted`. */
  lemma FilterStageIsAdmitted(products: seq<Product>, query: string, f: FilterOptions)
    ensures Passes(products, query, f) == Filter(products, (p: Product) => Admitted(p, query, f))
  {
    var search: Product -> bool := (p: Product) => query == "" || MatchesQuery(p, query);
    var range: Product -> bool := (p: Product) => WithinRanges(p, f);
    var platform: Product -> bool := (p: Product) => Selected(f.platform, PlatformName(p.platform));
    var category: Product -> bool := (p: Product) => Selected(f.category, p.category);
    var s1: Product -> bool := (p: Product) => search(p) && range(p);
    var s2: Product -> bool := (p: Product) => s1(p) && platform(p);
    var s3: Product -> bool := (p: Product) => s2(p) && category(p);

    var searched := SearchPass(products, query);
    assert searched == Filter(products, search);
    FilterFilter(products, search, range, s1);
    var ranged := Filter(searched, range);
    assert ranged == Filter(products, s1);
    var platforms := PlatformPass(ranged, f);
    assert platforms == Filter(ranged, platform);
    FilterFilter(products, s1, platform, s2);
    var categories := CategoryPass(platforms, f);
    assert categories == Filter(platforms, category);
    FilterFilter(products, s2, category, s3);
    FilterExtensional(products, s3, (p: Product) => Admitted(p, query, f));
  }

  /** Re-applying the filter stage to its own output changes nothing. */
  lemma FilterStageIdempotent(products: seq<Product>, query: string, f: FilterOptions)
    ensures FilterStage(FilterStage(products, query, f), query, f) == FilterStage(products, query, f)
  {
    FilterIdempotent(products, (p: Product) => Admitted(p, query, f));
  }

  /** An empty platform selection filters exactly as no platform filter: the
      result does not depend on which other selection would be empty. */
  lemma EmptySelectionImposesNothing(products: seq<Product>, query: string, f: FilterOptions)
    requires f.platform == [] && f.category == []
    ensures FilterStage(products, query, f) ==
            Filter(products, (p: Product) => (query == "" || MatchesQuery(p, query)) && WithinRanges(p, f))
  {
    FilterExtensional(products, (p: Product) => Admitted(p, query, f),
                      (p: Product) => (query == "" || MatchesQuery(p, query)) && WithinRanges(p, f));
  }

  function NegScore(p: Product): real { -(p.winningScore as real) }
  function NegReviews(p: Product): real { -(p.reviewCount as real) }
  function NegSales(p: Product): real { -(p.estimatedSales as real) }
  function PriceKey(p: Product): real { p.price }
  function NegPrice(p: Product): real { -p.price }
  function AgeKey(p: Product): real { p.listingAge as real }

  /** The sort key chosen by `sortBy`; `None` for a value the `switch` does not
      list, which leaves the order as filtered. */
  function SortKey(sortBy: string): Option<Product -> real> {
    if sortBy == "score" then Some(NegScore)
    else if sortBy == "reviews" then Some(NegReviews)
    else if sortBy == "sales" then Some(NegSales)
    else if sortBy == "price-low" then Some(PriceKey)
    else if sortBy == "price-high" then Some(NegPrice)
    else if sortBy == "newest" then Some(AgeKey)
    else None
  }

  /** `applyFilters`: the filter stage followed by the selected stable sort.
      The result is a sorted permutation of the filtered products. */
  function ApplyFilters(products: seq<Product>, query: string, f: FilterOptions, sortBy: string)
    : (r: seq<Product>)
    ensures multiset(r) == multiset(FilterStage(products, query, f))
    ensures forall p :: p in r ==> p in products && Admitted(p, query, f)
    ensures SortKey(sortBy).Some? ==> SortedBy(r, SortKey(sortBy).value)
    ensures SortKey(sortBy).None? ==> r == FilterStage(products, query, f)
  {
    var filtered := FilterStage(products, query, f);
    match SortKey(sortBy)
    case Some(key) =>
      var r := SortByKey(filtered, key);
      SameMultisetSameElements(r, filtered);
      r
    case None => filtered
  }

  /** The sort orders of the six keys, spelled out on the product fields. */
  lemma SortDirections(products: seq<Product>, query: string, f: FilterOptions, sortBy: string)
    ensures var r := ApplyFilters(products, query, f, sortBy);
            forall i, j :: 0 <= i < j < |r| ==>
              && (sortBy == "score" ==> r[i].winningScore >= r[j].winningScore)
              && (sortBy == "reviews" ==> r[i].reviewCount >= r[j].reviewCount)
              && (sortBy == "sales" ==> r[i].estimatedSales >= r[j].estimatedSales)
              && (sortBy == "price-low" ==> r[i].price <= r[j].price)
              && (sortBy == "price-high" ==> r[i].price >= r[j].price)
              && (sortBy == "newest" ==> r[i].listingAge <= r[j].listingAge)
  {
    var r := ApplyFilters(products, query, f, sortBy);
    forall i, j | 0 <= i < j < |r|
      ensures sortBy == "score" ==> r[i].winningScore >= r[j].winningScore
      ensures sortBy == "reviews" ==> r[i].reviewCount >= r[j].reviewCount
      ensures sortBy == "sales" ==> r[i].estimatedSales >= r[j].estimatedSales
    {
      if sortBy == "score" {
        assert NegScore(r[i]) <= NegScore(r[j]);
      } else if sortBy == "reviews" {
        assert NegReviews(r[i]) <= NegReviews(r[j]);
      } else if sortBy == "sales" {
        assert NegSales(r[i]) <= NegSales(r[j]);
      }
    }
  }

  /** Products that compare equal under the chosen key keep their filtered
      order (the sort is stable). */
  lemma ApplyFiltersStable(products: seq<Product>, query: string, f: FilterOptions, sortBy: string, v: real)
    requires SortKey(sortBy).Some?
    ensures var key := SortKey(sortBy).value;
            KeyClass(ApplyFilters(products, query, f, sortBy), key, v) ==
            KeyClass(FilterStage(products, query, f), key, v)
  {
    SortIsStable(FilterStage(products, query, f), SortKey(sortBy).value, v);
  }

  /** The page state the reset handler touches. */
  datatype View = View(filters: FilterOptions, query: string, sortBy: string)

  /** `handleResetFilters`: default criteria and an empty query; the chosen
      sort survives. */
  function ResetFilters(v: View): (r: View)
    ensures r.filters == DefaultFilters && r.query == "" && r.sortBy == v.sortBy
  {
    View(DefaultFilters, "", v.sortBy)
  }

  /** After a reset, every generated product is shown: generated prices
      (at most 75), review counts (at most 5000) and scores (at least 10) all
      pass the default criteria. */
  lemma ResetShowsAllGenerated(products: seq<Product>, v: View)
    requires forall i :: 0 <= i < |products| ==> MockData.GeneratedProduct(products[i])
    ensures var w := ResetFilters(v);
            FilterStage(products, w.query, w.filters) == products
  {
    FilterAll(products, (p: Product) => Admitted(p, "", DefaultFilters));
  }
}
