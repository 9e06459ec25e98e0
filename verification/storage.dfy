/** The browser-storage layer (`lib/storage.ts`). Each collection lives under
    its own key as JSON text; this model keeps, per key, what a read would
    find there: nothing, text that does not parse, or a parsed value. Without
    a window (server-side rendering) every read yields the empty collection
    and every write is dropped. */
module Storage {
  import opened Wrappers
  import opened Seqs
  import opened Types

  /** What a key holds. A missing key and an empty string are both `Empty`
      (`item ? … : defaultValue` treats them alike). */
  datatype Slot<T> = Empty | Unparsable | Holds(value: T)

  datatype Store = Store(
    hasWindow: bool,
    products: Slot<seq<Product>>,
    keywords: Slot<seq<Keyword>>,
    competitors: Slot<seq<CompetitorShop>>,
    trends: Slot<seq<TrendData>>,
    savedSearches: Slot<seq<SavedSearch>>,
    favorites: Slot<seq<string>>)

  /** `getFromStorage(key, [])`: the stored collection, or the empty one when
      there is no window, nothing stored, or unparsable text. */
  function Get<T>(hasWindow: bool, slot: Slot<seq<T>>): (r: seq<T>)
    ensures hasWindow && slot.Holds? ==> r == slot.value
    ensures !hasWindow || !slot.Holds? ==> r == []
  {
    if hasWindow && slot.Holds? then slot.value else []
  }

  /** `setToStorage(key, value)`: a no-op without a window. */
  function Put<T>(hasWindow: bool, slot: Slot<seq<T>>, value: seq<T>): (r: Slot<seq<T>>)
    ensures hasWindow ==> Get(hasWindow, r) == value
    ensures !hasWindow ==> r == slot
  {
    if hasWindow then Holds(value) else slot
  }

  function AllProducts(s: Store): seq<Product> { Get(s.hasWindow, s.products) }
  function AllKeywords(s: Store): seq<Keyword> { Get(s.hasWindow, s.keywords) }
  function AllCompetitors(s: Store): seq<CompetitorShop> { Get(s.hasWindow, s.competitors) }
  function AllTrends(s: Store): seq<TrendData> { Get(s.hasWindow, s.trends) }
  function AllSavedSearches(s: Store): seq<SavedSearch> { Get(s.hasWindow, s.savedSearches) }
  function AllFavorites(s: Store): seq<string> { Get(s.hasWindow, s.favorites) }

  /** Saving a collection rewrites its own key and no other. */
  function SaveProducts(s: Store, ps: seq<Product>): (r: Store)
    ensures s.hasWindow ==> AllProducts(r) == ps
    ensures r == s.(products := r.products)
    ensures !s.hasWindow ==> r == s
  {
    s.(products := Put(s.hasWindow, s.products, ps))
  }

  function SaveKeywords(s: Store, ks: seq<Keyword>): (r: Store)
    ensures s.hasWindow ==> AllKeywords(r) == ks
    ensures r == s.(keywords := r.keywords)
    ensures !s.hasWindow ==> r == s
  {
    s.(keywords := Put(s.hasWindow, s.keywords, ks))
  }

  function SaveCompetitors(s: Store, cs: seq<CompetitorShop>): (r: Store)
    ensures s.hasWindow ==> AllCompetitors(r) == cs
    ensures r == s.(competitors := r.competitors)
    ensures !s.hasWindow ==> r == s
  {
    s.(competitors := Put(s.hasWindow, s.competitors, cs))
  }

  function SaveTrends(s: Store, ts: seq<TrendData>): (r: Store)
    ensures s.hasWindow ==> AllTrends(r) == ts
    ensures r == s.(trends := r.trends)
    ensures !s.hasWindow ==> r == s
  {
    s.(trends := Put(s.hasWindow, s.trends, ts))
  }

  function SaveSavedSearches(s: Store, ss: seq<SavedSearch>): (r: Store)
    ensures s.hasWindow ==> AllSavedSearches(r) == ss
    ensures r == s.(savedSearches := r.savedSearches)
    ensures !s.hasWindow ==> r == s
  {
    s.(savedSearches := Put(s.hasWindow, s.savedSearches, ss))
  }

  function SaveFavorites(s: Store, fs: seq<string>): (r: Store)
    ensures s.hasWindow ==> AllFavorites(r) == fs
    ensures r == s.(favorites := r.favorites)
    ensures !s.hasWindow ==> r == s
  {
    s.(favorites := Put(s.hasWindow, s.favorites, fs))
  }

  // ---------------------------------------------------------------- products

  /** `productStorage.add`: append and save. */
  function AddProduct(s: Store, p: Product): (r: Store)
    ensures s.hasWindow ==> AllProducts(r) == AllProducts(s) + [p]
    ensures r == s.(products := r.products)
  {
    SaveProducts(s, AllProducts(s) + [p])
  }

  /** A `Partial<Product>`: the fields an update sets. */
  datatype ProductPatch = ProductPatch(
    id: Option<string>,
    title: Option<string>,
    price: Option<real>,
    platform: Option<Platform>,
    imageUrl: Option<string>,
    seller: Option<string>,
    rating: Option<real>,
    reviewCount: Option<int>,
    estimatedSales: Option<int>,
    listingAge: Option<int>,
    category: Option<string>,
    winningScore: Option<int>,
    trend: Option<ProductTrend>,
    lastUpdated: Option<string>)

  const NoChanges: ProductPatch :=
    ProductPatch(None, None, None, None, None, None, None, None, None, None, None, None, None, None)

  /** `{ ...p, ...updates }`: a set field of the patch wins. */
  function Merge(p: Product, u: ProductPatch): (r: Product)
    ensures u.id.Some? ==> r.id == u.id.value
    ensures u.id.None? ==> r.id == p.id
    ensures u.price.Some? ==> r.price == u.price.value
    ensures u.price.None? ==> r.price == p.price
    ensures u.winningScore.Some? ==> r.winningScore == u.winningScore.value
    ensures u.winningScore.None? ==> r.winningScore == p.winningScore
  {
    Product(
      u.id.GetOr(p.id), u.title.GetOr(p.title), u.price.GetOr(p.price),
      u.platform.GetOr(p.platform), u.imageUrl.GetOr(p.imageUrl),
      u.seller.GetOr(p.seller), u.rating.GetOr(p.rating),
      u.reviewCount.GetOr(p.reviewCount), u.estimatedSales.GetOr(p.estimatedSales),
      u.listingAge.GetOr(p.listingAge), u.category.GetOr(p.category),
      u.winningScore.GetOr(p.winningScore), u.trend.GetOr(p.trend),
      u.lastUpdated.GetOr(p.lastUpdated))
  }

  /** An empty patch changes nothing; applying a patch twice is applying it once. */
  lemma MergeLaws(p: Product, u: ProductPatch)
    ensures Merge(p, NoChanges) == p
    ensures Merge(Merge(p, u), u) == Merge(p, u)
  {
  }

  /** `productStorage.update`: patch the first product with the id and save;
      an unknown id leaves everything as it was, the key included. */
  function UpdateProduct(s: Store, id: string, u: ProductPatch): (r: Store)
    ensures r == s.(products := r.products)
    ensures var ps := AllProducts(s);
      var i := FirstIndex(ps, (p: Product) => p.id == id);
      if i == -1 then r == s
      else
        AllProducts(r) == ps[i := Merge(ps[i], u)] &&
        forall k :: 0 <= k < i ==> ps[k].id != id
  {
    var ps := AllProducts(s);
    var i := FirstIndex(ps, (p: Product) => p.id == id);
    if i == -1 then s else SaveProducts(s, ps[i := Merge(ps[i], u)])
  }

  /** `productStorage.delete`: keep the products with another id and save. */
  function DeleteProduct(s: Store, id: string): (r: Store)
    ensures r == s.(products := r.products)
    ensures forall p :: p in AllProducts(r) ==> p.id != id
    ensures forall p :: p in AllProducts(s) && p.id != id ==> p in AllProducts(r)
    ensures IsSubsequence(AllProducts(r), AllProducts(s))
    ensures |AllProducts(r)| == Count(AllProducts(s), (p: Product) => p.id != id)
  {
    SaveProducts(s, Filter(AllProducts(s), (p: Product) => p.id != id))
  }

  /** Deleting the id of a product just added, when no stored product shared
      that id, restores the stored list. */
  lemma AddThenDelete(s: Store, p: Product)
    requires forall q :: q in AllProducts(s) ==> q.id != p.id
    ensures AllProducts(DeleteProduct(AddProduct(s, p), p.id)) == AllProducts(s)
  {
    var keep := (q: Product) => q.id != p.id;
    if s.hasWindow {
      FilterAppend(AllProducts(s), [p], keep);
      FilterAll(AllProducts(s), keep);
      assert [p][1..] == [];
    }
  }

  // ---------------------------------------------------------------- keywords

  /** `keywordStorage.add`. */
  function AddKeyword(s: Store, k: Keyword): (r: Store)
    ensures s.hasWindow ==> AllKeywords(r) == AllKeywords(s) + [k]
    ensures r == s.(keywords := r.keywords)
  {
    SaveKeywords(s, AllKeywords(s) + [k])
  }

  // ------------------------------------------------------------- competitors

  /** `competitorStorage.toggleMonitor`: flip the monitoring flag of the first
      shop with the id and save; an unknown id changes nothing. */
  function ToggleMonitor(s: Store, id: string): (r: Store)
    ensures r == s.(competitors := r.competitors)
    ensures var cs := AllCompetitors(s);
      var i := FirstIndex(cs, (c: CompetitorShop) => c.id == id);
      if i == -1 then r == s
      else
        |AllCompetitors(r)| == |cs| &&
        AllCompetitors(r)[i].isMonitored == !cs[i].isMonitored &&
        AllCompetitors(r)[i] == cs[i].(isMonitored := !cs[i].isMonitored) &&
        forall k :: 0 <= k < |cs| && k != i ==> AllCompetitors(r)[k] == cs[k]
  {
    var cs := AllCompetitors(s);
    var i := FirstIndex(cs, (c: CompetitorShop) => c.id == id);
    if i == -1 then s
    else SaveCompetitors(s, cs[i := cs[i].(isMonitored := !cs[i].isMonitored)])
  }

  /** Toggling the same shop twice restores the whole store. */
  lemma ToggleMonitorTwice(s: Store, id: string)
    ensures ToggleMonitor(ToggleMonitor(s, id), id) == s
  {
    var match_ := (c: CompetitorShop) => c.id == id;
    var cs := AllCompetitors(s);
    var i := FirstIndex(cs, match_);
    if i != -1 {
      var cs' := cs[i := cs[i].(isMonitored := !cs[i].isMonitored)];
      var s' := ToggleMonitor(s, id);
      assert AllCompetitors(s') == cs';
      FirstIndexSameKeys(cs, cs', match_);
      assert cs'[i := cs'[i].(isMonitored := !cs'[i].isMonitored)] == cs;
    }
  }

  /** `FirstIndex` depends only on the predicate's verdicts. */
  lemma {:induction false} FirstIndexSameKeys<T>(a: seq<T>, b: seq<T>, f: T -> bool)
    requires |a| == |b|
    requires forall k :: 0 <= k < |a| ==> f(a[k]) == f(b[k])
    ensures FirstIndex(a, f) == FirstIndex(b, f)
  {
    if |a| > 0 {
      FirstIndexSameKeys(a[1..], b[1..], f);
    }
  }

  // ---------------------------------------------------------- saved searches

  /** `savedSearchStorage.add`. */
  function AddSavedSearch(s: Store, x: SavedSearch): (r: Store)
    ensures s.hasWindow ==> AllSavedSearches(r) == AllSavedSearches(s) + [x]
    ensures r == s.(savedSearches := r.savedSearches)
  {
    SaveSavedSearches(s, AllSavedSearches(s) + [x])
  }

  /** `savedSearchStorage.delete`. */
  function DeleteSavedSearch(s: Store, id: string): (r: Store)
    ensures r == s.(savedSearches := r.savedSearches)
    ensures forall x :: x in AllSavedSearches(r) ==> x.id != id
    ensures forall x :: x in AllSavedSearches(s) && x.id != id ==> x in AllSavedSearches(r)
    ensures IsSubsequence(AllSavedSearches(r), AllSavedSearches(s))
    ensures |AllSavedSearches(r)| == Count(AllSavedSearches(s), (x: SavedSearch) => x.id != id)
  {
    SaveSavedSearches(s, Filter(AllSavedSearches(s), (x: SavedSearch) => x.id != id))
  }

  // --------------------------------------------------------------- favorites

  /** The list a favourite toggle writes: an absent id is appended, a
      present one loses its first occurrence (`splice(indexOf(id), 1)`). */
  function ToggledList(fs: seq<string>, id: string): (r: seq<string>)
    ensures id !in fs ==> r == fs + [id]
    ensures id in fs ==> |r| == |fs| - 1
    ensures id in fs ==>
      var i := FirstIndex(fs, (x: string) => x == id);
      0 <= i && r == RemoveAt(fs, i)
    ensures forall x :: x != id ==> (x in r <==> x in fs)
  {
    var i := FirstIndex(fs, (x: string) => x == id);
    if i == -1 then fs + [id]
    else
      RemoveAtKeepsOthers(fs, i);
      RemoveAt(fs, i)
  }

  /** `favoriteStorage.toggle`: the toggled list is saved either way. */
  function ToggleFavorite(s: Store, id: string): (r: Store)
    ensures r == s.(favorites := r.favorites)
    ensures s.hasWindow && id !in AllFavorites(s) ==> AllFavorites(r) == AllFavorites(s) + [id]
    ensures s.hasWindow && id in AllFavorites(s) ==> |AllFavorites(r)| == |AllFavorites(s)| - 1
    ensures s.hasWindow && id in AllFavorites(s) ==>
      var i := FirstIndex(AllFavorites(s), (x: string) => x == id);
      0 <= i && AllFavorites(r) == RemoveAt(AllFavorites(s), i)
    ensures forall x :: x != id ==> (IsFavorite(r, x) <==> IsFavorite(s, x))
  {
    SaveFavorites(s, ToggledList(AllFavorites(s), id))
  }

  /** `favoriteStorage.isFavorite`: the stored list includes the id, which
      needs a window to read it from. */
  function IsFavorite(s: Store, id: string): (b: bool)
    ensures b <==> exists k :: 0 <= k < |AllFavorites(s)| && AllFavorites(s)[k] == id
    ensures b ==> s.hasWindow && s.favorites.Holds?
  {
    id in AllFavorites(s)
  }

  /** With a duplicate-free list, toggling flips membership and keeps the list
      duplicate-free. */
  lemma ToggleFavoriteFlips(s: Store, id: string)
    requires s.hasWindow
    requires NoDuplicates(AllFavorites(s))
    ensures IsFavorite(ToggleFavorite(s, id), id) <==> !IsFavorite(s, id)
    ensures NoDuplicates(AllFavorites(ToggleFavorite(s, id)))
  {
    var fs := AllFavorites(s);
    var i := FirstIndex(fs, (x: string) => x == id);
    var fs' := AllFavorites(ToggleFavorite(s, id));
    if i == -1 {
      AppendFreshNoDuplicates(fs, id);
    } else {
      RemoveAtNoDuplicates(fs, i);
    }
  }

  /** The favourites written by a toggle of an absent id and then a second
      toggle are the list that was read. */
  lemma ToggleFavoriteTwice(s: Store, id: string)
    requires s.hasWindow
    requires !IsFavorite(s, id)
    ensures AllFavorites(ToggleFavorite(ToggleFavorite(s, id), id)) == AllFavorites(s)
  {
    var fs := AllFavorites(s);
    var fs' := fs + [id];
    assert AllFavorites(ToggleFavorite(s, id)) == fs';
    var i := FirstIndex(fs', (x: string) => x == id);
    assert fs'[|fs|] == id;
    assert i == |fs|;
    assert RemoveAt(fs', i) == fs;
  }

  /** Without a window nothing is ever a favourite, whatever is toggled. */
  lemma NoWindowNoFavorites(s: Store, id: string, x: string)
    requires !s.hasWindow
    ensures !IsFavorite(ToggleFavorite(s, id), x)
  {
  }
}
