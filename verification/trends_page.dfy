/** The trends page (`app/trends/page.tsx`): the growth colour and sign, the
    competition badge, the two summary figures, the three insight panels and
    the recommendation chain. */
module TrendsPage {
  import opened Wrappers
  import opened Seqs
  import opened Numeric
  import opened Types
  import MockData

  /** `getGrowthColor`. */
  function GrowthColor(growth: real): (r: string)
    ensures r == "text-green-500" <==> growth > 50.0
    ensures r == "text-yellow-500" <==> 0.0 < growth <= 50.0
    ensures r == "text-red-500" <==> growth <= 0.0
  {
    if growth > 50.0 then "text-green-500"
    else if growth > 0.0 then "text-yellow-500"
    else "text-red-500"
  }

  /** The sign shown before a growth rate: `+` for growth only; a negative
      rate carries its own minus. */
  function GrowthSign(growth: real): (r: string)
    ensures r == "+" <==> growth > 0.0
    ensures r != "+" ==> r == ""
  {
    if growth > 0.0 then "+" else ""
  }

  /** A green rate always carries the plus sign; a red one never does. */
  lemma SignFollowsColor(growth: real)
    ensures GrowthColor(growth) == "text-green-500" ==> GrowthSign(growth) == "+"
    ensures GrowthColor(growth) == "text-red-500" <==> GrowthSign(growth) == ""
  {
  }

  /** The competition badge. */
  function CompetitionLabel(level: int): (r: string)
    ensures r == "Low" <==> level < 40
    ensures r == "Medium" <==> 40 <= level < 70
    ensures r == "High" <==> 70 <= level
    ensures r in ["Low", "Medium", "High"]
  {
    if level < 40 then "Low" else if level < 70 then "Medium" else "High"
  }

  /** `risingTrends`: the length of the rising sub-list, so it counts the
      rising trends and is positive exactly when one exists. */
  function RisingTrends(ts: seq<TrendData>): (n: nat)
    ensures n == Count(ts, (t: TrendData) => t.trendDirection == Rising)
    ensures n > 0 <==> exists i :: 0 <= i < |ts| && ts[i].trendDirection == Rising
  {
    var r := Filter(ts, (t: TrendData) => t.trendDirection == Rising);
    assert |r| > 0 ==> r[0] in r;
    assert forall i :: 0 <= i < |ts| && ts[i].trendDirection == Rising ==> ts[i] in r;
    |r|
  }

  function GrowthRates(ts: seq<TrendData>): (r: seq<real>)
    ensures |r| == |ts|
    ensures forall i :: 0 <= i < |ts| ==> r[i] == ts[i].growthRate
  {
    seq(|ts|, (i: int) requires 0 <= i < |ts| => ts[i].growthRate)
  }

  /** `avgGrowth`: the rounded mean rate, 0 for no trends. */
  function AvgGrowth(ts: seq<TrendData>): (r: int)
    ensures |ts| == 0 ==> r == 0
    ensures |ts| > 0 ==>
      var mean := Sum(GrowthRates(ts)) / |ts| as real;
      mean - 0.5 < r as real <= mean + 0.5
  {
    RoundedMean(GrowthRates(ts))
  }

  /** Over generated trends the average growth stays within the draw's range. */
  lemma GeneratedAvgGrowthInRange(ts: seq<TrendData>)
    requires 0 < |ts|
    requires forall i :: 0 <= i < |ts| ==> MockData.GeneratedTrend(ts[i])
    ensures -20 <= AvgGrowth(ts) <= 150
  {
    RoundedMeanBetween(GrowthRates(ts), -20, 150);
  }

  /** The optional insight panels, in page order. */
  datatype Insight = RapidGrowth | LowCompetition | SeasonalOpportunity

  function Insights(t: TrendData): (r: seq<Insight>)
    ensures RapidGrowth in r <==> t.growthRate > 50.0
    ensures LowCompetition in r <==> t.competitionLevel < 50
    ensures SeasonalOpportunity in r <==> t.seasonalityScore > 70
    ensures NoDuplicates(r)
  {
    (if t.growthRate > 50.0 then [RapidGrowth] else [])
    + (if t.competitionLevel < 50 then [LowCompetition] else [])
    + (if t.seasonalityScore > 70 then [SeasonalOpportunity] else [])
  }

  /** The recommendation paragraph: the first of four branches that applies. */
  datatype Recommendation = StrongOpportunity | HotTrend | GoodEntryPoint | MonitorClosely

  function Recommend(t: TrendData): Recommendation {
    if t.growthRate > 20.0 && t.competitionLevel < 60 then StrongOpportunity
    else if t.growthRate > 50.0 then HotTrend
    else if t.competitionLevel < 40 then GoodEntryPoint
    else MonitorClosely
  }

  /** Each branch, characterised on its own: a hot trend is one that grows
      fast but meets competition of 60 or more; a good entry point is slow
      growth with competition below 40. */
  lemma RecommendationCases(t: TrendData)
    ensures Recommend(t) == StrongOpportunity <==> t.growthRate > 20.0 && t.competitionLevel < 60
    ensures Recommend(t) == HotTrend <==> t.growthRate > 50.0 && t.competitionLevel >= 60
    ensures Recommend(t) == GoodEntryPoint <==> t.growthRate <= 20.0 && t.competitionLevel < 40
    ensures Recommend(t) == MonitorClosely <==>
              (20.0 < t.growthRate <= 50.0 && t.competitionLevel >= 60)
              || (t.growthRate <= 20.0 && t.competitionLevel >= 40)
  {
  }

  /** A generated niche recommended as a hot trend is also marked rising:
      its stored rate is over 50, so its raw draw was over 20. */
  lemma HotGeneratedTrendIsRising(i: nat, d: MockData.TrendDraws)
    requires Recommend(MockData.MakeTrend(i, d)) == HotTrend
    ensures MockData.MakeTrend(i, d).trendDirection == Rising
  {
    var t := MockData.MakeTrend(i, d);
    assert t.growthRate > 50.0;
    assert MockData.RawGrowth(d) >= t.growthRate - 0.05;
  }

  /** The page's state after loading: the stored trends and the first one
      selected when there is one. */
  function Load(stored: seq<TrendData>): (r: (seq<TrendData>, Option<TrendData>))
    ensures r.0 == stored
    ensures r.1.Some? <==> |stored| > 0
    ensures r.1.Some? ==> r.1.value == stored[0]
  {
    (stored, if |stored| > 0 then Some(stored[0]) else None)
  }
}
