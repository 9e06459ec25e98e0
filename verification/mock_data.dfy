/** The synthetic data generator (`lib/mock-data.ts`). Every `Math.random()`
    call becomes an explicit draw `u` in [0, 1), grouped per generated record;
    the draws for record `i` of a list come from a function of `i`, so any
    count is accepted. `Date.now()` is replaced by a timestamp string carried
    with the draws. */
module MockData {
  import opened Wrappers
  import opened Text
  import opened Numeric
  import opened Types

  /** One value of `Math.random()`. */
  type Unit = r: real | 0.0 <= r < 1.0

  const Categories: seq<string> :=
    ["Apparel", "Home Decor", "Accessories", "Stationery", "Mugs", "Phone Cases", "Wall Art", "Stickers"]

  const Platforms: seq<Platform> := [Etsy, Amazon, Redbubble, Teespring]

  const ProductTrends: seq<ProductTrend> := [Up, Down, Stable]

  const ProductTitles: seq<string> := [
    "Vintage Floral T-Shirt Design", "Motivational Quote Wall Art Print", "Custom Pet Portrait Mug",
    "Boho Moon Phase Phone Case", "Minimalist Mountain Sticker Pack", "Retro Gaming Console Poster",
    "Personalized Name Tote Bag", "Watercolor Sunset Canvas Print", "Coffee Lover Funny Mug",
    "Astrology Zodiac Sign Shirt", "Nature Photography Wall Decor", "Vintage Camera Illustration Print",
    "Succulent Plant Sticker Set", "Geometric Abstract Art Poster", "Inspirational Desk Notepad",
    "Cute Animal Illustration Mug", "Adventure Awaits Travel Poster", "Mandala Pattern Phone Case",
    "Retro Sunset Graphic Tee", "Botanical Line Art Print"]

  const KeywordPool: seq<string> := [
    "funny coffee mug", "motivational wall art", "custom pet portrait", "vintage t-shirt design",
    "minimalist poster", "personalized gift", "boho home decor", "retro gaming", "watercolor print",
    "astrology shirt", "nature photography", "geometric art", "plant sticker", "travel poster",
    "inspirational quote"]

  const ShopNames: seq<string> := [
    "CreativeStudio", "ArtisanDesigns", "VintageVibes", "ModernPrints", "CozyCreations",
    "UrbanArtistry", "BohoBoutique", "RetroRevival", "NatureNest", "MinimalMerch"]

  const TrendNiches: seq<string> := [
    "Custom Pet Portraits", "Vintage Aesthetic", "Motivational Quotes", "Minimalist Design",
    "Retro Gaming", "Boho Style", "Nature Photography", "Geometric Patterns", "Watercolor Art",
    "Astrology & Zodiac", "Coffee Culture", "Plant Lovers"]

  // ---------------------------------------------------------------- draws

  /** `u * width + lo` for a unit draw falls in `[lo, lo + width)`. */
  function Scale(u: Unit, width: real, lo: real): (r: real)
    requires 0.0 < width
    ensures lo <= r < width + lo
  {
    assert (1.0 - u) * width > 0.0;
    u * width + lo
  }

  /** `randomInt(lo, hi)`: `Math.floor(u * (hi - lo + 1)) + lo`. For an
      integer `lo`, adding it before or after the floor is the same. */
  function RandomInt(u: Unit, lo: int, hi: int): (r: int)
    ensures lo <= hi ==> lo <= r <= hi
  {
    if lo <= hi then Scale(u, (hi - lo + 1) as real, lo as real).Floor
    else (u * (hi - lo + 1) as real).Floor + lo
  }

  /** `randomFloat(lo, hi)`: `u * (hi - lo) + lo`. */
  function RandomFloat(u: Unit, lo: real, hi: real): (r: real)
    ensures lo < hi ==> lo <= r < hi
  {
    if lo < hi then Scale(u, hi - lo, lo) else u * (hi - lo) + lo
  }

  /** `randomChoice(arr)`: `arr[Math.floor(u * arr.length)]`. Every caller
      passes one of the fixed, non-empty pools above. */
  function RandomChoice<T>(u: Unit, arr: seq<T>): (r: T)
    requires 0 < |arr|
    ensures r in arr
  {
    arr[Scale(u, |arr| as real, 0.0).Floor]
  }

  // ------------------------------------------------------------- products

  datatype ProductDraws = ProductDraws(
    reviewCount: Unit, rating: Unit, price: Unit, sales: Unit, listingAge: Unit,
    competition: Unit, title: Unit, platform: Unit, seller: Unit, category: Unit,
    trend: Unit, lastUpdated: string)

  /** The weighted sum behind the winning score: review growth (reviews per
      day of listing age, `|| 1` guarding a zero age), rating score (rating
      as a percentage of 5), sales score (sales / 100, capped at 100) and a
      random competition score, weighted 0.2 / 0.3 / 0.3 / 0.2. */
  function WeightedScore(reviewCount: int, rating: real, sales: int, listingAge: int, competition: int): real {
    var reviewGrowth := reviewCount as real / (if listingAge == 0 then 1 else listingAge) as real;
    var ratingScore := rating / 5.0 * 100.0;
    var salesScore := if sales as real / 100.0 < 100.0 then sales as real / 100.0 else 100.0;
    reviewGrowth * 0.2 + ratingScore * 0.3 + salesScore * 0.3 + competition as real * 0.2
  }

  /** The winning score before the clamp: the weighted sum rounded with
      `Math.round` (rounding happens before clamping). */
  function UnclampedScore(reviewCount: int, rating: real, sales: int, listingAge: int, competition: int): (r: int)
    ensures WeightedScore(reviewCount, rating, sales, listingAge, competition) - 0.5 < r as real
    ensures r as real <= WeightedScore(reviewCount, rating, sales, listingAge, competition) + 0.5
  {
    Round(WeightedScore(reviewCount, rating, sales, listingAge, competition))
  }

  /** With inputs in their generation ranges the unclamped score is already at
      least 25: the rating alone contributes 0.3 * 70 and the competition
      score 0.2 * 20. */
  lemma UnclampedScoreAtLeast25(reviewCount: int, rating: real, sales: int, listingAge: int, competition: int)
    requires 0 <= reviewCount && 3.5 <= rating && 0 <= sales && 0 <= listingAge && 20 <= competition
    ensures 25 <= UnclampedScore(reviewCount, rating, sales, listingAge, competition)
  {
    var divisor := (if listingAge == 0 then 1 else listingAge) as real;
    assert 0.0 <= reviewCount as real / divisor;
  }

  /** `Math.min(Math.max(x, lo), hi)`. */
  function Clamp(x: int, lo: int, hi: int): (r: int)
    requires lo <= hi
    ensures lo <= r <= hi
    ensures lo <= x <= hi ==> r == x
  {
    if x < lo then lo else if x > hi then hi else x
  }

  /** Every bound a generated product keeps. */
  predicate GeneratedProduct(p: Product) {
    && 10 <= p.reviewCount <= 5000
    && 3.5 <= p.rating <= 5.0
    && 15.0 <= p.price <= 75.0
    && 50 <= p.estimatedSales <= 10000
    && 1 <= p.listingAge <= 365
    && 10 <= p.winningScore <= 100
    && p.title in ProductTitles
    && p.seller in ShopNames
    && p.category in Categories
  }

  function ProductId(i: nat): string {
    "prod-" + NatToString(i + 1)
  }

  /** The price: `randomFloat(15, 75)` rounded to cents. */
  function DrawPrice(d: ProductDraws): (price: real)
    ensures 15.0 <= price <= 75.0
  {
    var raw := RandomFloat(d.price, 15.0, 75.0);
    ToFixedWithin(raw, 100, 1500, 7500);
    ToFixed(raw, 100)
  }

  /** The stored rating: `randomFloat(3.5, 5)` rounded to one decimal. */
  function DrawRating(d: ProductDraws): (rating: real)
    ensures 3.5 <= rating <= 5.0
  {
    var raw := RandomFloat(d.rating, 3.5, 5.0);
    ToFixedWithin(raw, 10, 35, 50);
    ToFixed(raw, 10)
  }

  /** The clamped winning score of a product drawn from `d`. The score uses
      the unrounded rating draw. */
  function DrawScore(d: ProductDraws): (score: int)
    ensures 10 <= score <= 100
  {
    Clamp(UnclampedScore(
            RandomInt(d.reviewCount, 10, 5000),
            RandomFloat(d.rating, 3.5, 5.0),
            RandomInt(d.sales, 50, 10000),
            RandomInt(d.listingAge, 1, 365),
            RandomInt(d.competition, 20, 80)),
          10, 100)
  }

  /** The lower clamp never fires for generated products: the stored score is
      the unclamped score, capped at 100. */
  lemma LowerClampInactive(d: ProductDraws)
    ensures var raw := UnclampedScore(
              RandomInt(d.reviewCount, 10, 5000), RandomFloat(d.rating, 3.5, 5.0),
              RandomInt(d.sales, 50, 10000), RandomInt(d.listingAge, 1, 365),
              RandomInt(d.competition, 20, 80));
            25 <= raw && DrawScore(d) == (if raw > 100 then 100 else raw)
  {
    UnclampedScoreAtLeast25(
      RandomInt(d.reviewCount, 10, 5000), RandomFloat(d.rating, 3.5, 5.0),
      RandomInt(d.sales, 50, 10000), RandomInt(d.listingAge, 1, 365),
      RandomInt(d.competition, 20, 80));
  }

  /** The `i`-th product of `generateMockProducts`. */
  function MakeProduct(i: nat, d: ProductDraws): (p: Product)
    ensures GeneratedProduct(p)
    ensures p.id == ProductId(i)
  {
    Product(
      ProductId(i),
      RandomChoice(d.title, ProductTitles),
      DrawPrice(d),
      RandomChoice(d.platform, Platforms),
      "https://placehold.co/400x400?text=POD+Product+" + NatToString(i + 1),
      RandomChoice(d.seller, ShopNames),
      DrawRating(d),
      RandomInt(d.reviewCount, 10, 5000),
      RandomInt(d.sales, 50, 10000),
      RandomInt(d.listingAge, 1, 365),
      RandomChoice(d.category, Categories),
      DrawScore(d),
      RandomChoice(d.trend, ProductTrends),
      d.lastUpdated)
  }

  /** `generateMockProducts(count)`. */
  function GenerateProducts(count: nat, draws: nat -> ProductDraws): (ps: seq<Product>)
    ensures |ps| == count
    ensures forall i :: 0 <= i < count ==> ps[i].id == ProductId(i) && GeneratedProduct(ps[i])
    ensures forall i :: 0 <= i < count ==> ps[i] == MakeProduct(i, draws(i))
  {
    var ps := seq(count, i requires 0 <= i < count => MakeProduct(i, draws(i)));
    assert forall i :: 0 <= i < count ==> ps[i] == MakeProduct(i, draws(i));
    ps
  }

  /** Generated product ids `prod-1`, `prod-2`, ... are pairwise distinct. */
  lemma GeneratedProductIdsUnique(count: nat, draws: nat -> ProductDraws)
    ensures var ps := GenerateProducts(count, draws);
            forall i, j :: 0 <= i < j < |ps| ==> ps[i].id != ps[j].id
  {
    var ps := GenerateProducts(count, draws);
    forall i, j | 0 <= i < j < |ps| ensures ps[i].id != ps[j].id {
      if ps[i].id == ps[j].id {
        assert ProductId(i)[5..] == NatToString(i + 1);
        assert ProductId(j)[5..] == NatToString(j + 1);
        NatToStringInjective(i + 1, j + 1);
      }
    }
  }

  // ------------------------------------------------------------- keywords

  datatype KeywordDraws = KeywordDraws(
    searchVolume: Unit, difficulty: Unit, competition: Unit, monthly: nat -> Unit, cpc: Unit)

  /** Every bound a generated keyword keeps: twelve monthly volumes, each
      between 500 and the headline search volume, and five related terms. */
  predicate GeneratedKeyword(k: Keyword) {
    && 500 <= k.searchVolume <= 50000
    && 20 <= k.difficulty <= 90
    && 30 <= k.competition <= 95
    && |k.trend| == 12
    && (forall m :: 0 <= m < 12 ==> 500 <= k.trend[m] <= k.searchVolume)
    && |k.relatedKeywords| == 5
    && k.cpc.Some? && 0.5 <= k.cpc.value < 3.0
  }

  /** The `i`-th keyword of `generateMockKeywords`: its text is pool entry
      `i mod 15` and related keyword `j` is that text followed by `j + 1`. */
  function MakeKeyword(i: nat, d: KeywordDraws): (k: Keyword)
    ensures GeneratedKeyword(k)
    ensures k.id == "kw-" + NatToString(i + 1)
    ensures k.keyword == KeywordPool[i % |KeywordPool|]
    ensures forall j :: 0 <= j < 5 ==> k.relatedKeywords[j] == k.keyword + " " + NatToString(j + 1)
  {
    var volume := RandomInt(d.searchVolume, 500, 50000);
    var text := KeywordPool[i % |KeywordPool|];
    var trend := seq(12, m requires 0 <= m < 12 => RandomInt(d.monthly(m), 500, volume));
    var related := seq(5, j requires 0 <= j < 5 => text + " " + NatToString(j + 1));
    assert forall m :: 0 <= m < 12 ==> trend[m] == RandomInt(d.monthly(m), 500, volume);
    assert forall j :: 0 <= j < 5 ==> related[j] == text + " " + NatToString(j + 1);
    Keyword(
      "kw-" + NatToString(i + 1),
      text,
      volume,
      RandomInt(d.difficulty, 20, 90),
      RandomInt(d.competition, 30, 95),
      trend,
      related,
      Some(RandomFloat(d.cpc, 0.5, 3.0)))
  }

  /** `generateMockKeywords(count)`. */
  function GenerateKeywords(count: nat, draws: nat -> KeywordDraws): (ks: seq<Keyword>)
    ensures |ks| == count
    ensures forall i :: 0 <= i < count ==>
              GeneratedKeyword(ks[i]) && ks[i].keyword == KeywordPool[i % |KeywordPool|]
    ensures forall i :: 0 <= i < count ==> ks[i] == MakeKeyword(i, draws(i))
  {
    var ks := seq(count, i requires 0 <= i < count => MakeKeyword(i, draws(i)));
    assert forall i :: 0 <= i < count ==> ks[i] == MakeKeyword(i, draws(i));
    ks
  }

  // ---------------------------------------------------------- competitors

  datatype CompetitorDraws = CompetitorDraws(
    platform: Unit, productsCount: Unit, avgRating: Unit, totalReviews: Unit, revenue: Unit)

  /** Every bound a generated shop keeps; no shop starts out monitored. */
  predicate GeneratedShop(c: CompetitorShop) {
    && c.shopName in ShopNames
    && 10 <= c.productsCount <= 500
    && 3.5 <= c.avgRating <= 5.0
    && 100 <= c.totalReviews <= 10000
    && 1000 <= c.estimatedRevenue <= 100000
    && !c.isMonitored
  }

  /** The `i`-th shop of `generateMockCompetitors`: its name is pool entry
      `i mod 10`. */
  function MakeCompetitor(i: nat, d: CompetitorDraws): (c: CompetitorShop)
    ensures GeneratedShop(c)
    ensures c.id == "comp-" + NatToString(i + 1)
    ensures c.shopName == ShopNames[i % |ShopNames|]
  {
    var rating := RandomFloat(d.avgRating, 3.5, 5.0);
    ToFixedWithin(rating, 10, 35, 50);
    CompetitorShop(
      "comp-" + NatToString(i + 1),
      ShopNames[i % |ShopNames|],
      PlatformName(RandomChoice(d.platform, Platforms)),
      RandomInt(d.productsCount, 10, 500),
      ToFixed(rating, 10),
      RandomInt(d.totalReviews, 100, 10000),
      RandomInt(d.revenue, 1000, 100000),
      false)
  }

  /** `generateMockCompetitors(count)`. */
  function GenerateCompetitors(count: nat, draws: nat -> CompetitorDraws): (cs: seq<CompetitorShop>)
    ensures |cs| == count
    ensures forall i :: 0 <= i < count ==>
              GeneratedShop(cs[i]) && cs[i].shopName == ShopNames[i % |ShopNames|]
    ensures forall i :: 0 <= i < count ==> cs[i] == MakeCompetitor(i, draws(i))
  {
    var cs := seq(count, i requires 0 <= i < count => MakeCompetitor(i, draws(i)));
    assert forall i :: 0 <= i < count ==> cs[i] == MakeCompetitor(i, draws(i));
    cs
  }

  // --------------------------------------------------------------- trends

  datatype TrendDraws = TrendDraws(
    growth: Unit, demand: Unit, competition: Unit, seasonality: Unit, price: Unit,
    products: nat -> ProductDraws)

  /** The direction thresholds: above 20 rising, below -10 falling. */
  function DirectionOf(growth: real): TrendDirection {
    if growth > 20.0 then Rising else if growth < -10.0 then Falling else Steady
  }

  /** The growth rate as drawn, before rounding to one decimal. */
  function RawGrowth(d: TrendDraws): (g: real)
    ensures -20.0 <= g < 150.0
  {
    RandomFloat(d.growth, -20.0, 150.0)
  }

  /** Every bound a generated trend keeps. */
  predicate GeneratedTrend(t: TrendData) {
    && -20.0 <= t.growthRate <= 150.0
    && 1000 <= t.searchDemand <= 50000
    && 30 <= t.competitionLevel <= 90
    && 0 <= t.seasonalityScore <= 100
    && 15.0 <= t.avgPrice <= 65.0
    && |t.products| == 5
    && (forall j :: 0 <= j < 5 ==> GeneratedProduct(t.products[j]))
  }

  /** The `i`-th entry of `generateMockTrends`. Its direction is decided on the
      unrounded growth draw; the stored growth rate is the rounded one. */
  function MakeTrend(i: nat, d: TrendDraws): (t: TrendData)
    ensures GeneratedTrend(t)
    ensures t.niche == TrendNiches[i % |TrendNiches|]
    ensures t.trendDirection == Rising <==> RawGrowth(d) > 20.0
    ensures t.trendDirection == Falling <==> RawGrowth(d) < -10.0
    ensures t.trendDirection == Steady <==> -10.0 <= RawGrowth(d) <= 20.0
    ensures -0.05 <= t.growthRate - RawGrowth(d) <= 0.05
  {
    var growth := RawGrowth(d);
    var price := RandomFloat(d.price, 15.0, 65.0);
    ToFixedWithin(growth, 10, -200, 1500);
    ToFixedWithin(price, 100, 1500, 6500);
    TrendData(
      "trend-" + NatToString(i + 1),
      TrendNiches[i % |TrendNiches|],
      ToFixed(growth, 10),
      RandomInt(d.demand, 1000, 50000),
      RandomInt(d.competition, 30, 90),
      RandomInt(d.seasonality, 0, 100),
      ToFixed(price, 100),
      DirectionOf(growth),
      GenerateProducts(5, d.products))
  }

  /** `generateMockTrends(count)`. */
  function GenerateTrends(count: nat, draws: nat -> TrendDraws): (ts: seq<TrendData>)
    ensures |ts| == count
    ensures forall i :: 0 <= i < count ==>
              GeneratedTrend(ts[i]) && ts[i].niche == TrendNiches[i % |TrendNiches|]
    ensures forall i :: 0 <= i < count ==> ts[i] == MakeTrend(i, draws(i))
  {
    var ts := seq(count, i requires 0 <= i < count => MakeTrend(i, draws(i)));
    assert forall i :: 0 <= i < count ==> ts[i] == MakeTrend(i, draws(i));
    ts
  }

  /** The stored direction is not a function of the stored growth rate: a raw
      draw of 20.04 is rising, yet is stored as 20.0, which the thresholds
      call stable. */
  lemma StoredGrowthCanContradictDirection(products: nat -> ProductDraws)
    ensures var t := MakeTrend(0, TrendDraws(40.04 / 170.0, 0.0, 0.0, 0.0, 0.0, products));
            t.growthRate == 20.0 && t.trendDirection == Rising && DirectionOf(t.growthRate) == Steady
  {
    var d := TrendDraws(40.04 / 170.0, 0.0, 0.0, 0.0, 0.0, products);
    assert RawGrowth(d) == 20.04;
    assert Round(200.4) == 200;
  }
}
