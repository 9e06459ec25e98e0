/** The dashboard summary (`components/dashboard-stats.tsx`): the five
    best-scoring products, the four headline figures, the per-platform counts
    and the score histogram. */
module DashboardStats {
  import opened Seqs
  import opened Numeric
  import opened Text
  import opened Sorting
  import opened Types
  import MockData
  import Research

  function Min(a: int, b: int): int { if a <= b then a else b }

  /** `[...products].sort((a, b) => b.winningScore - a.winningScore).slice(0, 5)`. */
  function TopFive(ps: seq<Product>): (r: seq<Product>)
    ensures |r| == Min(5, |ps|)
    ensures forall i, j :: 0 <= i < j < |r| ==> r[i].winningScore >= r[j].winningScore
    ensures multiset(r) <= multiset(ps)
  {
    var sorted := SortByKey(ps, Research.NegScore);
    var r := sorted[..Min(5, |ps|)];
    assert sorted == r + sorted[Min(5, |ps|)..];
    assert forall i, j :: 0 <= i < j < |r| ==> Research.NegScore(r[i]) <= Research.NegScore(r[j]);
    r
  }

  /** The products the top list leaves out. */
  function NotTop(ps: seq<Product>): seq<Product> {
    SortByKey(ps, Research.NegScore)[Min(5, |ps|)..]
  }

  /** The top list and the rest split the products, and nothing left out
      scores above anything selected. */
  lemma TopFiveDominates(ps: seq<Product>)
    ensures multiset(TopFive(ps)) + multiset(NotTop(ps)) == multiset(ps)
    ensures forall i, j :: 0 <= i < |TopFive(ps)| && 0 <= j < |NotTop(ps)| ==>
              NotTop(ps)[j].winningScore <= TopFive(ps)[i].winningScore
  {
    var sorted := SortByKey(ps, Research.NegScore);
    var k := Min(5, |ps|);
    assert sorted == sorted[..k] + sorted[k..];
    forall i, j | 0 <= i < k <= j < |ps|
      ensures sorted[j].winningScore <= sorted[i].winningScore
    {
      assert Research.NegScore(sorted[i]) <= Research.NegScore(sorted[j]);
    }
  }

  /** Among products with the same score, the top list followed by the rest
      keeps the input order, so a tie at the cut goes to the earlier product. */
  lemma TopFiveTiesInInputOrder(ps: seq<Product>, v: real)
    ensures KeyClass(TopFive(ps) + NotTop(ps), Research.NegScore, v) == KeyClass(ps, Research.NegScore, v)
  {
    var sorted := SortByKey(ps, Research.NegScore);
    assert TopFive(ps) + NotTop(ps) == sorted;
    SortIsStable(ps, Research.NegScore, v);
  }

  datatype Stats = Stats(totalProducts: int, avgWinningScore: int, highScoreProducts: int, trendingNiches: int)

  function Scores(ps: seq<Product>): (r: seq<real>)
    ensures |r| == |ps|
    ensures forall i :: 0 <= i < |ps| ==> r[i] == ps[i].winningScore as real
  {
    seq(|ps|, (i: int) requires 0 <= i < |ps| => ps[i].winningScore as real)
  }

  predicate HighScore(p: Product) { p.winningScore >= 80 }

  /** `stats`: the average is the mean score rounded to the nearest integer
      (halves up), and 0 for no products (`|| 0`); the high-score figure
      counts the products in the top band. */
  function ComputeStats(ps: seq<Product>, ts: seq<TrendData>): (s: Stats)
    ensures s.totalProducts == |ps|
    ensures |ps| == 0 ==> s.avgWinningScore == 0
    ensures |ps| > 0 ==>
      var mean := Sum(Scores(ps)) / |ps| as real;
      mean - 0.5 < s.avgWinningScore as real <= mean + 0.5
    ensures s.highScoreProducts == Count(ps, (p: Product) => Band(p.winningScore) == 4)
    ensures 0 <= s.highScoreProducts <= |ps|
    ensures 0 <= s.trendingNiches <= |ts|
  {
    CountExtensional(ps, (p: Product) => HighScore(p), (p: Product) => Band(p.winningScore) == 4);
    Stats(
      |ps|,
      RoundedMean(Scores(ps)),
      Count(ps, (p: Product) => HighScore(p)),
      Count(ts, (t: TrendData) => t.trendDirection == Rising))
  }

  /** Over generated products the average score is within the clamp. */
  lemma GeneratedAverageInRange(ps: seq<Product>, ts: seq<TrendData>)
    requires 0 < |ps|
    requires forall i :: 0 <= i < |ps| ==> MockData.GeneratedProduct(ps[i])
    ensures 10 <= ComputeStats(ps, ts).avgWinningScore <= 100
  {
    RoundedMeanBetween(Scores(ps), 10, 100);
  }

  /** `trendingNiches` counts exactly the rising trends. */
  lemma {:induction false} TrendingCountsRising(ts: seq<TrendData>, ps: seq<Product>)
    ensures ComputeStats(ps, ts).trendingNiches == |Filter(ts, (t: TrendData) => t.trendDirection == Rising)|
    ensures ComputeStats(ps, ts).trendingNiches > 0 <==> exists i :: 0 <= i < |ts| && ts[i].trendDirection == Rising
  {
    var rising := (t: TrendData) => t.trendDirection == Rising;
    var f := Filter(ts, rising);
    assert |f| > 0 ==> f[0] in ts && f[0].trendDirection == Rising;
    if exists i :: 0 <= i < |ts| && ts[i].trendDirection == Rising {
      var i :| 0 <= i < |ts| && ts[i].trendDirection == Rising;
      assert ts[i] in f;
    }
  }

  /** The platforms in the order of the chart. */
  const ChartPlatforms: seq<Platform> := [Etsy, Amazon, Redbubble, Teespring]

  /** `platformData`: one entry per platform, named by it and counting its
      products. */
  function PlatformData(ps: seq<Product>): (r: seq<(string, nat)>)
    ensures |r| == 4
    ensures forall i :: 0 <= i < 4 ==> r[i].0 == PlatformName(ChartPlatforms[i])
    ensures forall i :: 0 <= i < 4 ==> r[i].1 == Count(ps, (p: Product) => p.platform == ChartPlatforms[i])
  {
    CountExtensional(ps, (p: Product) => p.platform == Etsy, (p: Product) => p.platform == ChartPlatforms[0]);
    CountExtensional(ps, (p: Product) => p.platform == Amazon, (p: Product) => p.platform == ChartPlatforms[1]);
    CountExtensional(ps, (p: Product) => p.platform == Redbubble, (p: Product) => p.platform == ChartPlatforms[2]);
    CountExtensional(ps, (p: Product) => p.platform == Teespring, (p: Product) => p.platform == ChartPlatforms[3]);
    [("Etsy", Count(ps, (p: Product) => p.platform == Etsy)),
     ("Amazon", Count(ps, (p: Product) => p.platform == Amazon)),
     ("Redbubble", Count(ps, (p: Product) => p.platform == Redbubble)),
     ("Teespring", Count(ps, (p: Product) => p.platform == Teespring))]
  }

  /** Every product is on exactly one of the four platforms. */
  lemma {:induction false} PlatformCountsSum(ps: seq<Product>)
    ensures var d := PlatformData(ps); d[0].1 + d[1].1 + d[2].1 + d[3].1 == |ps|
  {
    if |ps| > 0 {
      PlatformCountsSum(ps[1..]);
    }
  }

  /** The histogram band of a score: width 20 from 0, the first band open
      below and the last open above. */
  function Band(score: int): nat {
    if score < 20 then 0 else if score >= 80 then 4 else score / 20
  }

  /** `scoreDistribution`: entry k is labelled "20k-20(k+1)" and counts the
      products in band k. */
  function ScoreDistribution(ps: seq<Product>): (r: seq<(string, nat)>)
    ensures |r| == 5
    ensures forall k :: 0 <= k < 5 ==> r[k].0 == NatToString(20 * k) + "-" + NatToString(20 * k + 20)
    ensures forall k :: 0 <= k < 5 ==> r[k].1 == Count(ps, (p: Product) => Band(p.winningScore) == k)
  {
    ScoreBandCounts(ps);
    ScoreRangesSpelled();
    [("0-20", Count(ps, (p: Product) => p.winningScore < 20)),
     ("20-40", Count(ps, (p: Product) => p.winningScore >= 20 && p.winningScore < 40)),
     ("40-60", Count(ps, (p: Product) => p.winningScore >= 40 && p.winningScore < 60)),
     ("60-80", Count(ps, (p: Product) => p.winningScore >= 60 && p.winningScore < 80)),
     ("80-100", Count(ps, (p: Product) => HighScore(p)))]
  }

  /** The five range labels follow the band arithmetic. */
  lemma ScoreRangesSpelled()
    ensures forall k :: 0 <= k < 5 ==>
      ["0-20", "20-40", "40-60", "60-80", "80-100"][k] == NatToString(20 * k) + "-" + NatToString(20 * k + 20)
  {
  }

  /** The five source predicates select exactly the five bands. */
  lemma ScoreBandCounts(ps: seq<Product>)
    ensures Count(ps, (p: Product) => p.winningScore < 20) == Count(ps, (p: Product) => Band(p.winningScore) == 0)
    ensures Count(ps, (p: Product) => p.winningScore >= 20 && p.winningScore < 40) == Count(ps, (p: Product) => Band(p.winningScore) == 1)
    ensures Count(ps, (p: Product) => p.winningScore >= 40 && p.winningScore < 60) == Count(ps, (p: Product) => Band(p.winningScore) == 2)
    ensures Count(ps, (p: Product) => p.winningScore >= 60 && p.winningScore < 80) == Count(ps, (p: Product) => Band(p.winningScore) == 3)
    ensures Count(ps, (p: Product) => HighScore(p)) == Count(ps, (p: Product) => Band(p.winningScore) == 4)
  {
    CountExtensional(ps, (p: Product) => p.winningScore < 20, (p: Product) => Band(p.winningScore) == 0);
    CountExtensional(ps, (p: Product) => p.winningScore >= 20 && p.winningScore < 40, (p: Product) => Band(p.winningScore) == 1);
    CountExtensional(ps, (p: Product) => p.winningScore >= 40 && p.winningScore < 60, (p: Product) => Band(p.winningScore) == 2);
    CountExtensional(ps, (p: Product) => p.winningScore >= 60 && p.winningScore < 80, (p: Product) => Band(p.winningScore) == 3);
    CountExtensional(ps, (p: Product) => HighScore(p), (p: Product) => Band(p.winningScore) == 4);
  }

  /** The five bands partition the products. */
  lemma {:induction false} BucketsPartition(ps: seq<Product>)
    ensures var d := ScoreDistribution(ps); d[0].1 + d[1].1 + d[2].1 + d[3].1 + d[4].1 == |ps|
  {
    if |ps| > 0 {
      BucketsPartition(ps[1..]);
    }
  }

  /** The headline "high score" figure is the last band. */
  lemma HighScoreIsLastBucket(ps: seq<Product>, ts: seq<TrendData>)
    ensures ComputeStats(ps, ts).highScoreProducts == ScoreDistribution(ps)[4].1
  {
  }

  /** Generated products never fall in the lowest band below 10. */
  lemma {:induction false} NoGeneratedScoreBelowTen(ps: seq<Product>)
    requires forall i :: 0 <= i < |ps| ==> MockData.GeneratedProduct(ps[i])
    ensures Count(ps, (p: Product) => p.winningScore < 10) == 0
  {
    if |ps| > 0 {
      NoGeneratedScoreBelowTen(ps[1..]);
    }
  }

  /** The dashboard's data: 100 generated products, 10 generated trends and the
      top five of the products. */
  datatype Dashboard = Dashboard(products: seq<Product>, trends: seq<TrendData>, top: seq<Product>)

  function Load(productDraws: nat -> MockData.ProductDraws, trendDraws: nat -> MockData.TrendDraws): (d: Dashboard)
    ensures |d.products| == 100 && |d.trends| == 10 && |d.top| == 5
    ensures d.top == TopFive(d.products)
  {
    var ps := MockData.GenerateProducts(100, productDraws);
    Dashboard(ps, MockData.GenerateTrends(10, trendDraws), TopFive(ps))
  }
}
