# POD research dashboard — a Dafny model of its data core

The dashboard helps print-on-demand sellers research products, keywords,
competitor shops and niche trends. Most of the program is view code. Under the
views sit small, sequential operations on in-memory arrays, and those are what
this project models.

- **Synthetic data generator.** Every `Math.random()` call becomes an explicit
  draw in [0, 1), supplied per record as a function from the record's index to
  its draws.
- **Product query pipeline.** This covers the research page's `applyFilters`,
  the product grid's variant of it, and the filter-panel handlers that edit the
  criteria record.
- **Collection store.** The keyed browser store is a record of slots. Each slot
  is empty, unparsable, or holds a parsed collection. A `hasWindow` flag models
  server-side rendering.
- **CSV export.** This covers field quoting as in section 2 of RFC 4180, the
  whole export text, and the product and keyword column projections.
- **Derived figures and classifiers** of the pages:
  - the dashboard statistics, top five and score buckets;
  - the trend page's colours, insights and recommendation chain;
  - the keyword difficulty and competition bands;
  - the competitor monitor toggle and per-shop ratios;
  - the keyword and shop searches;
  - the favourites join.

All values are immutable datatypes and all operations are pure functions. The
files are organised as follows:

- `wrappers.dfy` holds `Option`.
- `seqs.dfy` holds `Array.prototype.filter`, counting and subsequences.
- `text.dfy` holds lower-casing, `includes`, number rendering, `join` and `split`.
- `numeric.dfy` holds `Math.round`, `toFixed` and rounded means.
- `sorting.dfy` holds a stable sort on a real-valued key.
- `types.dfy` mirrors the record types.
- The remaining files follow the repository's files one to one.

Numbers are mathematical reals and integers. `Math.round(x)` is `floor(x + 0.5)`.
`parseFloat(x.toFixed(k))` is rounding to `k` decimals, half away from zero.
A comparator sort `(a, b) => key(b) - key(a)` becomes a stable sort by the
negated key. This is what `Array.prototype.sort` does, since it is stable.

## Model

| member | source | states |
|---|---|---|
| MockData.RandomInt | lib/mock-data.ts:62-64 | for any draw in [0,1) and min ≤ max the result is an integer in [min, max] |
| MockData.RandomFloat | lib/mock-data.ts:66-68 | for any draw and min < max the result lies in [min, max) |
| MockData.RandomChoice | lib/mock-data.ts:70-72 | on a non-empty array the chosen value is one of its elements |
| MockData.UnclampedScore | lib/mock-data.ts:85-91 | the score before clamping is the weighted sum 0.2·reviewGrowth + 0.3·ratingScore + 0.3·salesScore + 0.2·competitionScore, rounded to within half a point |
| MockData.UnclampedScoreAtLeast25 | lib/mock-data.ts:78-91 | with a rating of at least 3.5 and a competition draw of at least 20, the score before clamping is already at least 25 |
| MockData.Clamp | lib/mock-data.ts:105 | the clamped value lies in [lo, hi] and equals the input when the input already does |
| MockData.DrawScore | lib/mock-data.ts:78-91 | a product's winning score lies in [10, 100] for every draw |
| MockData.LowerClampInactive | lib/mock-data.ts:78-105 | for every draw the lower clamp bound 10 never changes the score, because the raw score is at least 25 |
| MockData.DrawPrice | lib/mock-data.ts:80-96 | a generated price, after rounding to cents, lies in [15, 75] |
| MockData.DrawRating | lib/mock-data.ts:79-100 | a generated rating, after rounding to one decimal, lies in [3.5, 5] |
| MockData.MakeProduct | lib/mock-data.ts:93-108 | product i has id `prod-(i+1)` and every field within its generation bounds |
| MockData.GenerateProducts | lib/mock-data.ts:74-112 | exactly `count` products; entry i is the product built from index i and its draws, so it has id `prod-(i+1)` and fields within bounds |
| MockData.GeneratedProductIdsUnique | lib/mock-data.ts:94 | generated product ids are pairwise distinct |
| MockData.MakeKeyword | lib/mock-data.ts:117-139 | keyword i is `keywords[i mod 15]` with id `kw-(i+1)`; it has a 12-entry trend with every entry in [500, searchVolume], and five related keywords, entry j being the keyword, a space, then j+1 |
| MockData.GenerateKeywords | lib/mock-data.ts:114-143 | exactly `count` keywords; entry i is the keyword built from index i and its draws (pool text i mod 15, its id, trend and related texts) |
| MockData.MakeCompetitor | lib/mock-data.ts:149-158 | shop i is named `shopNames[i mod 10]`, has id `comp-(i+1)`, is not monitored, and has counts within bounds |
| MockData.GenerateCompetitors | lib/mock-data.ts:145-162 | exactly `count` shops; entry i is the shop built from index i and its draws (name i mod 10, id `comp-(i+1)`, unmonitored) |
| MockData.RawGrowth | lib/mock-data.ts:183 | the unrounded growth draw lies in [-20, 150) |
| MockData.MakeTrend | lib/mock-data.ts:182-196 | the direction is rising iff the raw growth > 20, falling iff < -10, stable otherwise; the stored rate is within 0.05 of the raw one; the niche is `trendNiches[i mod 12]`; there are exactly 5 products |
| MockData.GenerateTrends | lib/mock-data.ts:164-200 | exactly `count` trends; entry i is the trend built from index i and its draws (niche i mod 12, direction by the raw-draw thresholds) |
| MockData.StoredGrowthCanContradictDirection | lib/mock-data.ts:183-189 | a concrete draw whose raw growth exceeds 20 is stored as exactly 20.0 yet labelled rising, so the direction is not a function of the stored rate |
| Numeric.Round | lib/mock-data.ts:89-91 | `Math.round` lands within half a unit of its argument |
| Numeric.ToFixed | lib/mock-data.ts:96 | `parseFloat(x.toFixed(k))` lands within half a unit of the k-th decimal of x |
| Numeric.RoundedMean | app/competitors/page.tsx:49-51 | 0 for an empty list; otherwise the integer within half a unit of the mean (above by less than a half, below by at most a half), which is the rounded mean |
| Numeric.RoundedMeanBetween | app/competitors/page.tsx:49-51 | the rounded mean of values in [lo, hi] stays in [lo, hi] |
| Text.ContainsAt | app/research/page.tsx:55 | the recursive `includes` holds iff the needle occurs at some offset of the haystack |
| Sorting.SortByKey | app/research/page.tsx:77-96 | the sorted list is a permutation of its input, ordered by the key |
| Sorting.SortIsStable | app/research/page.tsx:77-96 | elements with equal keys keep their relative order |
| Sorting.SortByConstantKey | components/product-grid.tsx:66-67 | a comparator that always returns 0 leaves the list unchanged |
| Research.SearchPass | app/research/page.tsx:53-59 | the search runs only for a non-empty query, so it keeps, in order, exactly the products that an empty query or a title, seller or category match admits |
| Research.PlatformPass | app/research/page.tsx:69-71 | the platform filter runs only for a non-empty selection, so an empty selection keeps every product and a non-empty one keeps exactly its members |
| Research.CategoryPass | app/research/page.tsx:73-75 | the category filter runs only for a non-empty selection, so an empty selection keeps every product and a non-empty one keeps exactly its members |
| Research.FilterStage | app/research/page.tsx:53-75 | the filter stage keeps, in order, exactly the products admitted by query, ranges, score floor and selections |
| Research.FilterStageIsAdmitted | app/research/page.tsx:53-75 | the page's four successive filters compose to the single admission predicate |
| Research.FilterStageIdempotent | app/research/page.tsx:53-75 | filtering twice gives the same list as filtering once |
| Research.EmptySelectionImposesNothing | app/research/page.tsx:69-75 | with empty platform and category selections, only the search, the ranges and the score floor decide |
| Research.ApplyFilters | app/research/page.tsx:50-99 | the result is a permutation of the filtered list; every shown product comes from the input and is admitted; a known sort key orders it; any other key keeps the filtered order |
| Research.SortDirections | app/research/page.tsx:77-96 | score, reviews, sales and price-high sort descending; price-low and newest sort ascending by price and by listing age |
| Research.ApplyFiltersStable | app/research/page.tsx:77-96 | products that tie under the sort key keep their filtered order |
| Research.ResetFilters | app/research/page.tsx:106-109 | reset installs the default criteria and an empty query and keeps the sort |
| Research.ResetShowsAllGenerated | app/research/page.tsx:22-29 | after a reset every generated product passes the defaults (price [0,200], reviews [0,10000], no selections, floor 0) |
| ProductGrid.Passes | components/product-grid.tsx:44-51 | a product passes iff it meets all five conjuncts: platform set, category set, price range, review range and score floor |
| ProductGrid.GridFilter | components/product-grid.tsx:36-51 | the grid keeps, in order and with their multiplicity, exactly the passing products whose title or category (not seller) contains the query |
| ProductGrid.GridProducts | components/product-grid.tsx:54-69 | the shown list is a permutation of the filtered list, ordered by the chosen comparator |
| ProductGrid.GridProductsStable | components/product-grid.tsx:54-69 | products the chosen comparator ranks equal keep their filtered order, as the stable `Array.prototype.sort` does |
| ProductGrid.LoadGrid | components/product-grid.tsx:33-69 | at most 50 products are shown, each generated and passing the criteria |
| ProductGrid.GridKeepsFrom | components/product-grid.tsx:44-69 | the grid shows no more products than it is given, each drawn from the input and passing |
| ProductGrid.KnownKeysDescend | components/product-grid.tsx:56-65 | the sort keys score, sales, reviews, price and rating all order the list descending |
| ProductGrid.UnknownSortKeepsOrder | components/product-grid.tsx:66-67 | an unknown sort key leaves the filtered order unchanged |
| ProductGrid.AgreesWithResearchWithoutQuery | components/product-grid.tsx:44-51 | without a query the grid admits exactly what the research page admits |
| ProductGrid.GridWithinResearch | components/product-grid.tsx:36-41 | everything the grid's search keeps is kept by the research page's wider search |
| FilterPanel.HandlePriceChange | components/filter-panel.tsx:22-24 | the price range becomes the slider's first two values and no other field changes |
| FilterPanel.HandleReviewChange | components/filter-panel.tsx:26-28 | the review range becomes the slider's first two values and no other field changes |
| FilterPanel.HandleScoreChange | components/filter-panel.tsx:30-32 | the score floor becomes the slider's first value and no other field changes |
| FilterPanel.Toggle | components/filter-panel.tsx:34-39 | the item's membership flips; other items keep theirs; an absent item is appended; a present item is removed everywhere while the other entries stay in order, each as often as before; no-duplicates is preserved |
| FilterPanel.ToggleTwiceRestores | components/filter-panel.tsx:34-39 | toggling an absent item twice restores the list |
| FilterPanel.HandlePlatformToggle | components/filter-panel.tsx:34-39 | only the platform selection changes, by a toggle |
| FilterPanel.HandleCategoryToggle | components/filter-panel.tsx:41-46 | only the category selection changes, by a toggle |
| FilterPanel.HandleCompetitionToggle | components/filter-panel.tsx:48-53 | only the competition selection changes, by a toggle |
| FilterPanel.HandleReset | components/filter-panel.tsx:55-64 | reset gives price [0,100], reviews [0,5000], empty selections and floor 0, which differ from the research page's defaults |
| FilterPanel.PanelResetShowsAllGenerated | components/filter-panel.tsx:55-64 | even the panel's narrower reset admits every generated product |
| Storage.Get | lib/storage.ts:14-22 | a read returns the stored collection, or the empty default when there is no window, nothing stored or unparsable text |
| Storage.Put | lib/storage.ts:24-31 | with a window a write is read back unchanged; without one it is dropped |
| Storage.SaveProducts | lib/storage.ts:37-39 | saving rewrites the products key only |
| Storage.SaveCompetitors | lib/storage.ts:81-83 | saving rewrites the competitors key only |
| Storage.SaveKeywords | lib/storage.ts:66-68 | saving rewrites the keywords key only, and a read gives back what was saved |
| Storage.SaveTrends | lib/storage.ts:99-101 | saving rewrites the trends key only |
| Storage.SaveSavedSearches | lib/storage.ts:108-110 | saving rewrites the saved-searches key only, and a read gives back what was saved |
| Storage.SaveFavorites | lib/storage.ts:136 | writing the favourites rewrites that key only, and a read gives back what was written |
| Storage.AddProduct | lib/storage.ts:41-45 | the product is appended at the end; the rest of the store is untouched |
| Storage.Merge | lib/storage.ts:51 | a patched field takes the patch's value and an unpatched field keeps the record's |
| Storage.MergeLaws | lib/storage.ts:51 | an empty patch is the identity, and applying a patch twice equals applying it once |
| Storage.UpdateProduct | lib/storage.ts:47-54 | only the first record with the id is replaced, by the merged record; an unknown id leaves the store unchanged |
| Storage.DeleteProduct | lib/storage.ts:56-59 | every record with the id goes; the others stay, in order and each as often as before |
| Storage.AddThenDelete | lib/storage.ts:41-59 | adding a product with a fresh id and then deleting that id restores the list |
| Storage.AddKeyword | lib/storage.ts:70-74 | the keyword is appended at the end |
| Storage.ToggleMonitor | lib/storage.ts:85-92 | only the first shop with the id has its monitored flag negated; an unknown id changes nothing |
| Storage.ToggleMonitorTwice | lib/storage.ts:85-92 | toggling twice restores the whole store |
| Storage.AddSavedSearch | lib/storage.ts:112-116 | the search is appended at the end |
| Storage.DeleteSavedSearch | lib/storage.ts:118-121 | every search with the id goes; the others stay, in order and each as often as before |
| Storage.ToggleFavorite | lib/storage.ts:128-137 | an absent id is appended; a present one loses its first occurrence and the rest keep their order; other ids keep their status |
| Storage.IsFavorite | lib/storage.ts:139-141 | an id is a favourite iff it occurs at some position of the stored list; nothing is a favourite without a window or a stored list |
| Storage.ToggledList | lib/storage.ts:128-137 | the list written by a toggle: the id appended when absent, otherwise the list without its first occurrence of the id |
| Storage.ToggleFavoriteFlips | lib/storage.ts:128-141 | with unique ids, `isFavorite` flips after a toggle and uniqueness is kept |
| Storage.ToggleFavoriteTwice | lib/storage.ts:128-137 | toggling an absent id twice restores the favourites list |
| Storage.NoWindowNoFavorites | lib/storage.ts:14-31 | without a window nothing ever reads as a favourite, even after a toggle |
| Export.Keys | lib/export.ts:6 | the header holds the row's keys in their order |
| Export.Lookup | lib/export.ts:11 | a cell takes the value of the first matching key, or `undefined` when the key is absent |
| Export.Escape | lib/export.ts:13 | escaping only adds double quotes |
| Export.Quote | lib/export.ts:13 | a quoted field starts and ends with a double quote |
| Export.ParseEscaped | lib/export.ts:13 | un-doubling the quotes of an escaped field recovers the field and stops at its closing quote |
| Export.RecordRoundTrip | lib/export.ts:9-14 | parsing a formatted record gives back exactly its field strings |
| Export.RecordFreeOf | lib/export.ts:9-14 | a character other than `"` and `,` that no field contains does not appear in the record |
| Export.Fields | lib/export.ts:10-12 | record field k is the string form of the row's value under header k |
| Export.CsvLines | lib/export.ts:7-16 | the export has one header line plus one line per row |
| Export.ExportToCsv | lib/export.ts:3-16 | there is no output exactly when the data is empty |
| Export.ExportRoundTrip | lib/export.ts:6-16 | splitting the output at newlines gives one line more than there are rows; the first line splits back to the header keys, and each further line parses back to its row's field strings |
| Export.PrepareProducts | lib/export.ts:38-54 | length and order are kept, and each product maps to its 13-column row |
| Export.ProductRow | lib/export.ts:39-53 | every product row has the 13 export columns in order |
| Export.ProductColumnsDistinct | lib/export.ts:40-52 | the 13 column names are pairwise distinct |
| Export.ProductFields | lib/export.ts:38-54 | the record fields of a product row are that product's 13 cells |
| Export.ProductExportRoundTrip | lib/export.ts:3-54 | exporting products and parsing the lines back gives the column names, then each product's cells |
| Export.PrepareKeywords | lib/export.ts:56-65 | length and order are kept, and each keyword maps to its 6-column row |
| Export.KeywordRow | lib/export.ts:57-64 | every keyword row has the six export columns in order |
| Export.KeywordCpcCell | lib/export.ts:62-63 | a missing CPC exports as `undefined`, and related keywords are joined with `; ` |
| CompetitorTracking.ToggleMonitoring | components/competitor-tracking.tsx:37-41 | length and order are kept; every shop with the id has its flag negated; all others are unchanged |
| CompetitorTracking.ToggleMonitoringTwice | components/competitor-tracking.tsx:37-41 | toggling twice with the same id is the identity |
| CompetitorTracking.AgreesWithStorage | components/competitor-tracking.tsx:37-41 | with unique ids the in-memory toggle agrees with the stored toggle |
| CompetitorTracking.DisagreeOnRepeatedIds | components/competitor-tracking.tsx:38-40 | with a repeated id the in-memory toggle flips every copy, while storage flips only the first |
| CompetitorTracking.Load | components/competitor-tracking.tsx:27-35 | after loading, the first shop is selected, if there is one |
| CompetitorTracking.ToggleAsWritten | components/competitor-tracking.tsx:37-41 | as written, a toggle updates the list but leaves the detail panel's copied shop untouched |
| CompetitorTracking.DetailMonitored | components/competitor-tracking.tsx:158-162 | the detail button's state is shown iff a shop is selected |
| CompetitorTracking.DetailGoesStale | components/competitor-tracking.tsx:158-162 | after the detail button toggles an unmonitored shop, the list says monitored but the button still says not monitored |
| CompetitorTracking.LoadSelection | components/competitor-tracking.tsx:27-35 | the corrected state selects the first shop's id |
| CompetitorTracking.ToggleSelection | components/competitor-tracking.tsx:37-41 | the corrected toggle updates the list and keeps the selected id |
| CompetitorTracking.SelectedShop | components/competitor-tracking.tsx:78 | the detail panel shows a shop from the current list whose id is the selected one |
| CompetitorTracking.FirstWithId | components/competitor-tracking.tsx:78 | the look-up finds a shop with the id, or reports that none exists |
| CompetitorTracking.DetailFollowsToggle | components/competitor-tracking.tsx:158-162 | in the corrected state, toggling the selected shop flips the flag the detail panel shows |
| CompetitorTracking.GeneratedPercentages | components/competitor-tracking.tsx:249-263 | for generated shops, customer satisfaction lies in [70, 100] and market penetration in [2, 100] |
| CompetitorTracking.Satisfaction | components/competitor-tracking.tsx:251 | the satisfaction figure is the rating as a percentage of 5 (20 × rating), rounded to the nearest integer |
| CompetitorTracking.Penetration | components/competitor-tracking.tsx:260 | the penetration figure is the product count as a percentage of 500 (count / 5), rounded to the nearest integer |
| CompetitorTracking.ReviewRate | components/competitor-tracking.tsx:278 | the review rate exists iff the shop has products, and is within 0.05 of reviews per product |
| CompetitorTracking.RevenuePerProduct | components/competitor-tracking.tsx:284 | revenue per product exists iff the shop has products, and is the rounded quotient |
| CompetitorTracking.GeneratedQuotientsExist | components/competitor-tracking.tsx:278-284 | generated shops have at least 10 products, so both ratios exist; revenue per product lies in [2, 10000] |
| CompetitorsPage.Search | app/competitors/page.tsx:30-41 | an empty query shows all shops; otherwise the shops whose name or platform contains the query, in order and with their multiplicity |
| CompetitorsPage.MonitoredCount | app/competitors/page.tsx:48 | the count equals the number of monitored shops |
| CompetitorsPage.HandleToggleMonitor | app/competitors/page.tsx:43-46 | the toggle goes through storage and the list is reloaded from it; the reloaded monitored count moves by one in the direction of the flip, and stays put for an unknown id |
| CompetitorsPage.AvgRevenue | app/competitors/page.tsx:49-51 | the average revenue is 0 for no shops, otherwise the mean revenue rounded to the nearest integer |
| CompetitorsPage.AvgRevenueOfGenerated | app/competitors/page.tsx:49-51 | over generated shops the average revenue lies in [1000, 100000] |
| CompetitorsPage.ToggleMovesMonitoredCount | app/competitors/page.tsx:43-48 | a toggle followed by a reload moves the monitored count by one in the direction of the flip, and not at all for an unknown id |
| KeywordsPage.Search | app/keywords/page.tsx:42-52 | an empty query keeps all; otherwise, in order, exactly the keywords containing the query, in the matching number |
| KeywordsPage.Load | app/keywords/page.tsx:32-40 | loading shows all stored keywords and selects the first, if any |
| KeywordsPage.DifficultyLabel | app/keywords/page.tsx:65-69 | Easy iff < 40, Medium iff 40..69, Hard iff ≥ 70 |
| KeywordsPage.DifficultyColor | app/keywords/page.tsx:59-69 | the colour is green, yellow or red exactly when the label is Easy, Medium or Hard: both use the same bands |
| KeywordsPage.MonthlyPoints | app/keywords/page.tsx:72-75 | there is one point per trend value, holding that value; point i has month name i for i < 12, and no month beyond that |
| KeywordsPage.TrendChartData | app/keywords/page.tsx:71-76 | no selection gives no points; otherwise one point per trend value, entry i carrying value i and month name i (none past December) |
| KeywordsPage.CompetitionInsightOf | app/keywords/page.tsx:231-236 | High iff > 70, Moderate iff 41..70, Low iff ≤ 40 |
| KeywordsPage.StrongIntentNeedsCpc | app/keywords/page.tsx:248 | the truthiness guard adds nothing to the comparison: intent is strong iff a CPC is present and exceeds 2, and a CPC of 0 is falsy and reads as moderate, like a missing one |
| KeywordAnalysis.DifficultyLabel | components/keyword-analysis.tsx:41-45 | Hard iff ≥ 70, Medium iff 40..69, Easy iff < 40 |
| KeywordAnalysis.DifficultyColor | components/keyword-analysis.tsx:35-45 | the colour class is red, yellow or green exactly when the label is Hard, Medium or Easy |
| KeywordAnalysis.LabelsAgree | components/keyword-analysis.tsx:41-45 | this label agrees with the keywords page's label for every integer difficulty |
| KeywordAnalysis.FormatChartData | components/keyword-analysis.tsx:47-53 | the chart keeps the trend's length and values, and entry i carries month name i (none past December) |
| KeywordAnalysis.GeneratedChartIsAYear | components/keyword-analysis.tsx:47-53 | for a generated keyword, every point i carries `months[i]` |
| KeywordAnalysis.OnQuery | components/keyword-analysis.tsx:23-33 | a non-empty query loads 15 generated keywords and selects the first; an empty one changes nothing |
| KeywordAnalysis.PromptGoneAfterSearch | components/keyword-analysis.tsx:55 | once a search has loaded keywords, the start prompt never returns, even for an empty query |
| DashboardStats.TopFive | components/dashboard-stats.tsx:34 | the top list has min(5, n) products drawn from the input, by descending score |
| DashboardStats.TopFiveDominates | components/dashboard-stats.tsx:34 | top and rest partition the products, and no product left out outscores a selected one |
| DashboardStats.TopFiveTiesInInputOrder | components/dashboard-stats.tsx:34 | among equally scored products the top list and then the rest keep the input order, so a tie at the cut goes to the earlier product |
| DashboardStats.ComputeStats | components/dashboard-stats.tsx:38-43 | the total is the product count; the average is the mean score rounded to the nearest integer, 0 for no products; the high-score figure counts the products in the top score band |
| DashboardStats.GeneratedAverageInRange | components/dashboard-stats.tsx:40 | over generated products the average score lies in [10, 100] |
| DashboardStats.TrendingCountsRising | components/dashboard-stats.tsx:42 | trending niches count the rising trends, and are positive iff one exists |
| DashboardStats.PlatformData | components/dashboard-stats.tsx:45-50 | four entries, entry i named after the i-th chart platform and counting that platform's products |
| DashboardStats.PlatformCountsSum | components/dashboard-stats.tsx:45-50 | the four platform counts sum to the product count |
| DashboardStats.ScoreDistribution | components/dashboard-stats.tsx:54-60 | five entries; entry k is labelled "20k-20(k+1)" and counts the products in score band k (width 20, first band open below, last open above) |
| DashboardStats.BucketsPartition | components/dashboard-stats.tsx:54-60 | the five buckets partition the products: their counts sum to the product count |
| DashboardStats.HighScoreIsLastBucket | components/dashboard-stats.tsx:41-59 | the high-score statistic equals the 80-100 bucket |
| DashboardStats.NoGeneratedScoreBelowTen | components/dashboard-stats.tsx:55 | no generated product scores below 10 |
| DashboardStats.Load | components/dashboard-stats.tsx:29-36 | the dashboard holds 100 products, 10 trends and their top five |
| TrendsPage.GrowthColor | app/trends/page.tsx:41-45 | green iff growth > 50, yellow iff in (0, 50], red otherwise |
| TrendsPage.GrowthSign | app/trends/page.tsx:136 | the `+` prefix is shown iff growth > 0 |
| TrendsPage.SignFollowsColor | app/trends/page.tsx:41-45 | green growth always carries a `+`, and red growth exactly never does |
| TrendsPage.CompetitionLabel | app/trends/page.tsx:148 | Low iff < 40, Medium iff 40..69, High iff ≥ 70; never any other text |
| TrendsPage.RisingTrends | app/trends/page.tsx:47 | the count equals the number of rising trends, and is positive iff one exists |
| TrendsPage.AvgGrowth | app/trends/page.tsx:48-50 | the average growth is 0 for no trends, otherwise the mean rate rounded to the nearest integer |
| TrendsPage.GeneratedAvgGrowthInRange | app/trends/page.tsx:48-50 | over generated trends the average growth lies in [-20, 150] |
| TrendsPage.Insights | app/trends/page.tsx:225-249 | each insight panel is shown iff its condition holds (growth > 50, competition < 50, seasonality > 70), and none twice |
| TrendsPage.RecommendationCases | app/trends/page.tsx:266-273 | the chain is total and picks the first match: strong iff growth > 20 and competition < 60; hot iff growth > 50 and competition ≥ 60; good entry iff growth ≤ 20 and competition < 40; monitor otherwise |
| TrendsPage.HotGeneratedTrendIsRising | app/trends/page.tsx:268-269 | a generated trend recommended as hot is labelled rising |
| TrendsPage.Load | app/trends/page.tsx:20-27 | loading shows all stored trends and selects the first, if any |
| FavoritesPage.JoinFavorites | app/favorites/page.tsx:21 | the products whose id is a favourite, in order and with their multiplicity; no favourites give nothing |
| FavoritesPage.LoadFavorites | app/favorites/page.tsx:18-23 | a stored product is shown iff it is a favourite |
| FavoritesPage.DanglingIdIgnored | app/favorites/page.tsx:21 | a favourite id with no matching product contributes nothing |
| FavoritesPage.AtMostOnePerFavorite | app/favorites/page.tsx:21 | with unique product ids, there are no more results than favourites |
| FavoritesPage.ToggleShowsOrHides | app/favorites/page.tsx:18-23 | toggling a stored product's favourite status shows it if hidden and hides it if shown |

## Left out

- Browser storage mechanics are not modelled: `localStorage`, JSON parsing and printing, and quota errors on write. A slot holds the parsed value, or is marked empty or unparsable. A failed write is not modelled, and a stored value of the wrong shape is treated as parsed.
- `initializeMockData`, `downloadFile` and `exportToJSON` are not modelled. They only move data between the generator, the browser store and the download machinery.
- Timers (`setTimeout` loading delays), `Date.now`/`toISOString` timestamps and image URLs are not modelled. A product's `lastUpdated` and `imageUrl` are free strings.
- The randomly generated chart series (revenue, performance, seasonality) are not modelled, and neither are any JSX, charts, icons or colour classes beyond the band classifiers.
- Decimal rendering (`toFixed` as text, `toLocaleString`) is not modelled. Export takes a `show` parameter that renders a number; the round-trip lemmas hold for every such rendering.
- `Text.Lower` lowers only ASCII letters; the Unicode case mappings of `toLowerCase` are left out.
- Division by zero is not modelled as JavaScript's `NaN`/`Infinity`. `ReviewRate` and `RevenuePerProduct` return `None` for a shop with no products, and a mean over nothing is 0, as the source's `|| 0` makes it.
- The unused `MONITORED_SHOPS` storage key is not modelled.
- Storage.Merge: the contract states the merge for `id`, `price` and `winningScore` only. The other eleven fields follow the same rule in the body. Patches that set a field explicitly to `undefined` are not modelled.
- Two wiring defects are not modelled. The research page passes `onFilterChange` (app/research/page.tsx:126), but the filter panel reads `onFiltersChange` (components/filter-panel.tsx:17), so its handlers call `undefined` there. The panel's `onReset` prop is never used. The handlers are modelled as the panel defines them.
- The meaning of a keyword's `competition` value is not modelled. It is generated as 0–100 but labelled "listings" in the analysis view, and is treated as a plain integer.
- Export rows are lists of key-value pairs. A list could repeat a key, which a JavaScript object cannot. `Object.keys` also lists integer-like keys first, and the model does not reproduce that. Neither case arises for the two fixed column lists, whose names are distinct and not numeric.
- Export joins records with `\n`, not with the CRLF that section 2 of RFC 4180 prescribes. The model follows the code.
- The trend direction is computed from the unrounded growth draw, and the rate is then stored rounded to one decimal (lib/mock-data.ts:183-189), so the stored direction is not a function of the stored rate. The model follows the code; `MockData.StoredGrowthCanContradictDirection` shows a draw stored as exactly 20.0 but labelled rising.
- The placeholder pages and the sidebar are left out, and so are the trending-niches and product-card components, which only choose colours and icons.

## Findings

| source | as written | input that shows it | evidently intended | confidence | as-written member | corrected member |
|---|---|---|---|---|---|---|
| components/competitor-tracking.tsx:158-162 | The detail panel's monitor button reads the flag of `selectedCompetitor`. This is a copy taken when the shop was selected, and `toggleMonitoring` replaces only the list entry, so the button keeps showing the old state. | Load shops whose first shop is unmonitored; it is selected; press the detail panel's Monitor button. The list shows it monitored, but the button still offers "Monitor". | The detail button reflects the current flag of the selected shop, found in the list by id. | high; not executed | CompetitorTracking.DetailGoesStale | CompetitorTracking.DetailFollowsToggle |

