/** The records of the dashboard (`lib/types.ts`). JavaScript numbers that are
    always whole are `int`; prices, ratings, growth rates and cost-per-click
    are exact `real`s. */
module Types {
  import opened Wrappers

  datatype Platform = Etsy | Amazon | Redbubble | Teespring

  /** The platform's name as the views and filters spell it. */
  function PlatformName(p: Platform): string {
    match p
    case Etsy => "Etsy"
    case Amazon => "Amazon"
    case Redbubble => "Redbubble"
    case Teespring => "Teespring"
  }

  /** A product's own trend: 'up' | 'down' | 'stable'. */
  datatype ProductTrend = Up | Down | Stable

  /** The trend's string value. */
  function ProductTrendName(t: ProductTrend): string {
    match t
    case Up => "up"
    case Down => "down"
    case Stable => "stable"
  }

  /** A niche's direction: 'rising' | 'falling' | 'stable'. */
  datatype TrendDirection = Rising | Falling | Steady

  datatype Product = Product(
    id: string,
    title: string,
    price: real,
    platform: Platform,
    imageUrl: string,
    seller: string,
    rating: real,
    reviewCount: int,
    estimatedSales: int,
    listingAge: int,
    category: string,
    winningScore: int,
    trend: ProductTrend,
    lastUpdated: string)

  /** `cpc` is optional (`cpc?: number`). */
  datatype Keyword = Keyword(
    id: string,
    keyword: string,
    searchVolume: int,
    difficulty: int,
    competition: int,
    trend: seq<int>,
    relatedKeywords: seq<string>,
    cpc: Option<real>)

  /** `platform` is free text here, unlike a product's. */
  datatype CompetitorShop = CompetitorShop(
    id: string,
    shopName: string,
    platform: string,
    productsCount: int,
    avgRating: real,
    totalReviews: int,
    estimatedRevenue: int,
    isMonitored: bool)

  datatype TrendData = TrendData(
    id: string,
    niche: string,
    growthRate: real,
    searchDemand: int,
    competitionLevel: int,
    seasonalityScore: int,
    avgPrice: real,
    trendDirection: TrendDirection,
    products: seq<Product>)

  /** The filter criteria. The ranges are `[low, high]` pairs; the three
      selections are lists in which an empty list means "no constraint". */
  datatype FilterOptions = FilterOptions(
    priceRange: (real, real),
    reviewRange: (real, real),
    platform: seq<string>,
    category: seq<string>,
    competitionLevel: seq<string>,
    minScore: real)

  datatype SavedSearch = SavedSearch(
    id: string,
    query: string,
    filters: FilterOptions,
    timestamp: string)
}
