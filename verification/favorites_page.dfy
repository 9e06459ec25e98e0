/** The favourites page (`app/favorites/page.tsx`): the stored products whose
    id is among the stored favourite ids, in product order. */
module FavoritesPage {
  import opened Seqs
  import opened Types
  import Storage

  /** `allProducts.filter(p => favorites.includes(p.id))`. */
  function JoinFavorites(products: seq<Product>, favorites: seq<string>): (r: seq<Product>)
    ensures IsSubsequence(r, products)
    ensures forall p :: p in r <==> p in products && p.id in favorites
    ensures |favorites| == 0 ==> r == []
    ensures |r| == Count(products, (p: Product) => p.id in favorites)
  {
    Filter(products, (p: Product) => p.id in favorites)
  }

  /** `loadFavorites`: both collections come from storage. */
  function LoadFavorites(s: Storage.Store): (r: seq<Product>)
    ensures forall p :: p in r <==> p in Storage.AllProducts(s) && Storage.IsFavorite(s, p.id)
  {
    JoinFavorites(Storage.AllProducts(s), Storage.AllFavorites(s))
  }

  /** A favourite id that no product carries contributes nothing. */
  lemma DanglingIdIgnored(products: seq<Product>, favorites: seq<string>, id: string)
    requires forall p :: p in products ==> p.id != id
    ensures JoinFavorites(products, [id] + favorites) == JoinFavorites(products, favorites)
  {
    FilterExtensional(products,
      (p: Product) => p.id in [id] + favorites,
      (p: Product) => p.id in favorites);
  }

  predicate UniqueIds(ps: seq<Product>) {
    forall i, j :: 0 <= i < j < |ps| ==> ps[i].id != ps[j].id
  }

  /** With distinct product ids, at most one product per favourite id is
      shown. */
  lemma AtMostOnePerFavorite(products: seq<Product>, favorites: seq<string>)
    requires UniqueIds(products)
    ensures |JoinFavorites(products, favorites)| <= |favorites|
  {
    var r := JoinFavorites(products, favorites);
    var ids := seq(|r|, (i: int) requires 0 <= i < |r| => r[i].id);
    assert NoDuplicates(products) by {
      forall i, j | 0 <= i < j < |products| ensures products[i] != products[j] {
        assert products[i].id != products[j].id;
      }
    }
    SubsequenceNoDuplicates(r, products);
    assert NoDuplicates(ids) by {
      forall i, j | 0 <= i < j < |ids| ensures ids[i] != ids[j] {
        assert r[i] in products && r[j] in products;
        var a :| 0 <= a < |products| && products[a] == r[i];
        var b :| 0 <= b < |products| && products[b] == r[j];
        assert r[i] != r[j];
        assert a != b;
        assert products[a].id != products[b].id;
      }
    }
    NoDuplicatesLengthBound(ids, set x | x in favorites);
    ElementSetBound(favorites);
  }

  /** Toggling a stored product's favourite flips whether the page shows it,
      when the stored favourites are duplicate-free. */
  lemma ToggleShowsOrHides(s: Storage.Store, p: Product)
    requires s.hasWindow
    requires p in Storage.AllProducts(s)
    requires NoDuplicates(Storage.AllFavorites(s))
    ensures p in LoadFavorites(Storage.ToggleFavorite(s, p.id)) <==> p !in LoadFavorites(s)
  {
    Storage.ToggleFavoriteFlips(s, p.id);
  }
}
