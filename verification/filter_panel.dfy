/** The filter panel's handlers (`components/filter-panel.tsx`). Each handler
    builds the criteria record it hands to `onFiltersChange`; here it returns
    that record. */
module FilterPanel {
  import opened Seqs
  import opened Types
  import Research
  import MockData

  /** The criteria `handleReset` hands over. */
  const PanelDefaults: FilterOptions :=
    FilterOptions((0.0, 100.0), (0.0, 5000.0), [], [], [], 0.0)

  /** `handlePriceChange`: a slider reports both thumbs. */
  function HandlePriceChange(f: FilterOptions, value: seq<real>): (r: FilterOptions)
    requires 2 <= |value|
    ensures r.priceRange == (value[0], value[1])
    ensures r == f.(priceRange := r.priceRange)
  {
    f.(priceRange := (value[0], value[1]))
  }

  /** `handleReviewChange`. */
  function HandleReviewChange(f: FilterOptions, value: seq<real>): (r: FilterOptions)
    requires 2 <= |value|
    ensures r.reviewRange == (value[0], value[1])
    ensures r == f.(reviewRange := r.reviewRange)
  {
    f.(reviewRange := (value[0], value[1]))
  }

  /** `handleScoreChange`: the single thumb becomes the floor. */
  function HandleScoreChange(f: FilterOptions, value: seq<real>): (r: FilterOptions)
    requires 1 <= |value|
    ensures r.minScore == value[0]
    ensures r == f.(minScore := r.minScore)
  {
    f.(minScore := value[0])
  }

  /** The shared body of the three toggle handlers: a present item is removed
      (every occurrence of it), an absent one is appended. */
  function Toggle(list: seq<string>, item: string): (r: seq<string>)
    ensures item in r <==> item !in list
    ensures forall x :: x != item ==> (x in r <==> x in list)
    ensures item !in list ==> r == list + [item]
    ensures item in list ==> IsSubsequence(r, list) && |r| < |list|
    ensures item in list ==> |r| == Count(list, (x: string) => x != item)
    ensures NoDuplicates(list) ==> NoDuplicates(r)
  {
    if item in list then
      var r := Filter(list, (x: string) => x != item);
      assert NoDuplicates(list) ==> NoDuplicates(r) by {
        if NoDuplicates(list) {
          SubsequenceNoDuplicates(r, list);
        }
      }
      assert Count(list, (x: string) => x != item) < |list| by {
        CountMissesOne(list, (x: string) => x != item, item);
      }
      r
    else
      var r := list + [item];
      assert NoDuplicates(list) ==> NoDuplicates(r) by {
        if NoDuplicates(list) {
          AppendFreshNoDuplicates(list, item);
        }
      }
      r
  }

  /** Toggling an absent item twice restores the list. */
  lemma ToggleTwiceRestores(list: seq<string>, item: string)
    requires item !in list
    ensures Toggle(Toggle(list, item), item) == list
  {
    var once := list + [item];
    FilterAppend(list, [item], (x: string) => x != item);
    FilterAll(list, (x: string) => x != item);
    assert [item][1..] == [];
  }

  function HandlePlatformToggle(f: FilterOptions, platform: string): (r: FilterOptions)
    ensures r.platform == Toggle(f.platform, platform)
    ensures r == f.(platform := r.platform)
  {
    f.(platform := Toggle(f.platform, platform))
  }

  function HandleCategoryToggle(f: FilterOptions, category: string): (r: FilterOptions)
    ensures r.category == Toggle(f.category, category)
    ensures r == f.(category := r.category)
  {
    f.(category := Toggle(f.category, category))
  }

  function HandleCompetitionToggle(f: FilterOptions, level: string): (r: FilterOptions)
    ensures r.competitionLevel == Toggle(f.competitionLevel, level)
    ensures r == f.(competitionLevel := r.competitionLevel)
  {
    f.(competitionLevel := Toggle(f.competitionLevel, level))
  }

  /** `handleReset`: empty selections and a zero floor, but narrower ranges
      than the research page's defaults (price up to 100, reviews up to 5000,
      against 200 and 10000). */
  function HandleReset(f: FilterOptions): (r: FilterOptions)
    ensures r.platform == [] && r.category == [] && r.competitionLevel == [] && r.minScore == 0.0
    ensures r.priceRange == (0.0, 100.0) && r.reviewRange == (0.0, 5000.0)
    ensures r != Research.DefaultFilters
  {
    PanelDefaults
  }

  /** The narrower panel defaults still show every generated product. */
  lemma PanelResetShowsAllGenerated(products: seq<Product>, f: FilterOptions)
    requires forall i :: 0 <= i < |products| ==> MockData.GeneratedProduct(products[i])
    ensures Research.FilterStage(products, "", HandleReset(f)) == products
  {
    FilterAll(products, (p: Product) => Research.Admitted(p, "", PanelDefaults));
  }
}
