/** The product grid component (`components/product-grid.tsx`): its own search
    (title and category only), a single five-way filter, and a sort whose
    default comparator answers 0. The products are those the generator
    returned for the grid. */
module ProductGrid {
  import opened Seqs
  import opened Text
  import opened Sorting
  import opened Types
  import Research
  import MockData

  /** The grid's search ignores the seller. */
  predicate GridMatchesQuery(p: Product, query: string) {
    || Contains(Lower(p.title), Lower(query))
    || Contains(Lower(p.category), Lower(query))
  }

  /** The filter callback with its early `return false`s: platform, category,
      price range, review range, score floor, in that order. A product passes
      exactly when it meets all five conditions. */
  function Passes(p: Product, f: FilterOptions): (ok: bool)
    ensures ok <==>
      && Research.Selected(f.platform, PlatformName(p.platform))
      && Research.Selected(f.category, p.category)
      && Research.WithinRanges(p, f)
  {
    if |f.platform| > 0 && PlatformName(p.platform) !in f.platform then false
    else if |f.category| > 0 && p.category !in f.category then false
    else if p.price < f.priceRange.0 || p.price > f.priceRange.1 then false
    else if (p.reviewCount as real) < f.reviewRange.0 || (p.reviewCount as real) > f.reviewRange.1 then false
    else if (p.winningScore as real) < f.minScore then false
    else true
  }

  /** The two filter passes of the effect. */
  function GridFilter(products: seq<Product>, query: string, f: FilterOptions): (r: seq<Product>)
    ensures IsSubsequence(r, products)
    ensures forall p :: p in r ==> Passes(p, f) && (query == "" || GridMatchesQuery(p, query))
    ensures forall p :: p in products && Passes(p, f) && (query == "" || GridMatchesQuery(p, query)) ==> p in r
    ensures |r| == Count(products, (p: Product) => Passes(p, f) && (query == "" || GridMatchesQuery(p, query)))
  {
    var keep := (p: Product) => Passes(p, f) && (query == "" || GridMatchesQuery(p, query));
    var passes := (p: Product) => Passes(p, f);
    var searched := if query != "" then Filter(products, (p: Product) => GridMatchesQuery(p, query)) else products;
    var r := Filter(searched, passes);
    if query != "" then
      SubsequenceTransitive(r, searched, products);
      FilterFilter(products, (p: Product) => GridMatchesQuery(p, query), passes, keep);
      r
    else
      FilterExtensional(products, passes, keep);
      r
  }

  /** The grid's other sort keys: rating descending, and the rest as on the
      research page. */
  function NegRating(p: Product): real { -p.rating }

  /** The `default: return 0` comparator. */
  function NoKey(p: Product): real { 0.0 }

  function GridSortKey(sortBy: string): Product -> real {
    if sortBy == "score" then Research.NegScore
    else if sortBy == "sales" then Research.NegSales
    else if sortBy == "reviews" then Research.NegReviews
    else if sortBy == "price" then Research.NegPrice
    else if sortBy == "rating" then NegRating
    else NoKey
  }

  /** The whole effect: filter, then sort. The result is a permutation of the
      filtered list, ordered by the chosen key. */
  function GridProducts(products: seq<Product>, query: string, f: FilterOptions, sortBy: string)
    : (r: seq<Product>)
    ensures multiset(r) == multiset(GridFilter(products, query, f))
    ensures SortedBy(r, GridSortKey(sortBy))
  {
    SortByKey(GridFilter(products, query, f), GridSortKey(sortBy))
  }

  /** Products the chosen comparator ranks equal keep their filtered order. */
  lemma GridProductsStable(products: seq<Product>, query: string, f: FilterOptions, sortBy: string, v: real)
    ensures KeyClass(GridProducts(products, query, f, sortBy), GridSortKey(sortBy), v) ==
            KeyClass(GridFilter(products, query, f), GridSortKey(sortBy), v)
  {
    SortIsStable(GridFilter(products, query, f), GridSortKey(sortBy), v);
  }

  /** The grid shows fifty generated products, filtered and sorted. */
  function LoadGrid(query: string, f: FilterOptions, sortBy: string, draws: nat -> MockData.ProductDraws)
    : (r: seq<Product>)
    ensures |r| <= 50
    ensures forall p :: p in r ==> MockData.GeneratedProduct(p) && Passes(p, f)
  {
    var all := MockData.GenerateProducts(50, draws);
    GridKeepsFrom(all, query, f, sortBy);
    GridProducts(all, query, f, sortBy)
  }

  /** The grid shows at most its input, and only what passes the filter. */
  lemma GridKeepsFrom(products: seq<Product>, query: string, f: FilterOptions, sortBy: string)
    ensures var r := GridProducts(products, query, f, sortBy);
      && |r| <= |products|
      && forall p :: p in r ==> p in products && Passes(p, f)
  {
    var g := GridFilter(products, query, f);
    var r := GridProducts(products, query, f, sortBy);
    assert |r| == |g| by {
      assert |multiset(r)| == |multiset(g)|;
    }
    SubsequenceLength(g, products);
    SubsequenceElements(g, products);
    forall p | p in r ensures p in products && Passes(p, f) {
      assert p in multiset(g);
    }
  }

  /** Every known key sorts high to low, `price` and `rating` included. */
  lemma KnownKeysDescend(products: seq<Product>, query: string, f: FilterOptions, sortBy: string)
    ensures var r := GridProducts(products, query, f, sortBy);
            forall i, j :: 0 <= i < j < |r| ==>
              && (sortBy == "score" ==> r[i].winningScore >= r[j].winningScore)
              && (sortBy == "sales" ==> r[i].estimatedSales >= r[j].estimatedSales)
              && (sortBy == "reviews" ==> r[i].reviewCount >= r[j].reviewCount)
              && (sortBy == "price" ==> r[i].price >= r[j].price)
              && (sortBy == "rating" ==> r[i].rating >= r[j].rating)
  {
    var r := GridProducts(products, query, f, sortBy);
    forall i, j | 0 <= i < j < |r|
      ensures sortBy == "score" ==> r[i].winningScore >= r[j].winningScore
      ensures sortBy == "sales" ==> r[i].estimatedSales >= r[j].estimatedSales
      ensures sortBy == "reviews" ==> r[i].reviewCount >= r[j].reviewCount
      ensures sortBy == "price" ==> r[i].price >= r[j].price
      ensures sortBy == "rating" ==> r[i].rating >= r[j].rating
    {
      if sortBy == "score" {
        assert Research.NegScore(r[i]) <= Research.NegScore(r[j]);
      } else if sortBy == "sales" {
        assert Research.NegSales(r[i]) <= Research.NegSales(r[j]);
      } else if sortBy == "reviews" {
        assert Research.NegReviews(r[i]) <= Research.NegReviews(r[j]);
      } else if sortBy == "price" {
        assert Research.NegPrice(r[i]) <= Research.NegPrice(r[j]);
      } else if sortBy == "rating" {
        assert NegRating(r[i]) <= NegRating(r[j]);
      }
    }
  }

  /** An unrecognised sort key keeps the filtered order: the comparator
      answers 0 and the sort is stable. */
  lemma UnknownSortKeepsOrder(products: seq<Product>, query: string, f: FilterOptions, sortBy: string)
    requires sortBy !in {"score", "sales", "reviews", "price", "rating"}
    ensures GridProducts(products, query, f, sortBy) == GridFilter(products, query, f)
  {
    SortByConstantKey(GridFilter(products, query, f), NoKey, 0.0);
  }

  /** Without a query the grid filters exactly as the research page does. */
  lemma AgreesWithResearchWithoutQuery(products: seq<Product>, f: FilterOptions)
    ensures GridFilter(products, "", f) == Research.FilterStage(products, "", f)
  {
    FilterExtensional(products, (p: Product) => Passes(p, f), (p: Product) => Research.Admitted(p, "", f));
  }

  /** Whatever the query, everything the grid shows the research page would
      also show: a title or category match is a research match. */
  lemma GridWithinResearch(products: seq<Product>, query: string, f: FilterOptions)
    ensures forall p :: p in GridFilter(products, query, f) ==>
              p in Research.FilterStage(products, query, f)
  {
    SubsequenceElements(GridFilter(products, query, f), products);
  }
}
