/** The competitor page (`app/competitors/page.tsx`): the search over shop
    name and platform, the monitoring toggle through storage, and the two
    summary figures. */
module CompetitorsPage {
  import opened Seqs
  import opened Text
  import opened Numeric
  import opened Types
  import MockData
  import Storage

  /** Case-insensitive match on the shop's name or its platform. */
  predicate ShopMatches(c: CompetitorShop, query: string) {
    || Contains(Lower(c.shopName), Lower(query))
    || Contains(Lower(c.platform), Lower(query))
  }

  /** The filtered list: everything for an empty query, otherwise the
      matching shops in their stored order. */
  function Search(cs: seq<CompetitorShop>, query: string): (r: seq<CompetitorShop>)
    ensures query == "" ==> r == cs
    ensures IsSubsequence(r, cs)
    ensures forall c :: c in r ==> query == "" || ShopMatches(c, query)
    ensures forall c :: c in cs && ShopMatches(c, query) ==> c in r
    ensures |r| == Count(cs, (c: CompetitorShop) => query == "" || ShopMatches(c, query))
  {
    var keep := (c: CompetitorShop) => query == "" || ShopMatches(c, query);
    if query == "" then
      SubsequenceReflexive(cs);
      FilterAll(cs, keep);
      cs
    else
      var matches := (c: CompetitorShop) => ShopMatches(c, query);
      FilterExtensional(cs, matches, keep);
      Filter(cs, matches)
  }

  /** `monitoredCount`: the length of the monitored sub-list, which is the
      number of monitored shops. */
  function MonitoredCount(cs: seq<CompetitorShop>): (n: nat)
    ensures n == Count(cs, (c: CompetitorShop) => c.isMonitored)
    ensures n <= |cs|
  {
    |Filter(cs, (c: CompetitorShop) => c.isMonitored)|
  }

  function Revenues(cs: seq<CompetitorShop>): (r: seq<real>)
    ensures |r| == |cs|
    ensures forall i :: 0 <= i < |cs| ==> r[i] == cs[i].estimatedRevenue as real
  {
    seq(|cs|, (i: int) requires 0 <= i < |cs| => cs[i].estimatedRevenue as real)
  }

  /** `avgRevenue`: the rounded mean revenue; `|| 0` turns the mean of no
      shops into 0. */
  function AvgRevenue(cs: seq<CompetitorShop>): (r: int)
    ensures |cs| == 0 ==> r == 0
    ensures |cs| > 0 ==>
      var mean := Sum(Revenues(cs)) / |cs| as real;
      mean - 0.5 < r as real <= mean + 0.5
  {
    RoundedMean(Revenues(cs))
  }

  /** Over generated shops the average stays within the generator's range. */
  lemma AvgRevenueOfGenerated(cs: seq<CompetitorShop>)
    requires 0 < |cs|
    requires forall i :: 0 <= i < |cs| ==> MockData.GeneratedShop(cs[i])
    ensures 1000 <= AvgRevenue(cs) <= 100000
  {
    RoundedMeanBetween(Revenues(cs), 1000, 100000);
  }

  /** `handleToggleMonitor`: toggle in storage, then reload the list. The
      reloaded list shows one more or one fewer monitored shop, in the
      direction of the flip, and the same number for an unknown id. */
  function HandleToggleMonitor(s: Storage.Store, id: string): (r: (Storage.Store, seq<CompetitorShop>))
    ensures r.0 == Storage.ToggleMonitor(s, id)
    ensures r.1 == Storage.AllCompetitors(r.0)
    ensures var before := Storage.AllCompetitors(s);
      var i := FirstIndex(before, (c: CompetitorShop) => c.id == id);
      if i == -1 then MonitoredCount(r.1) == MonitoredCount(before)
      else MonitoredCount(r.1) == MonitoredCount(before) + (if before[i].isMonitored then -1 else 1)
  {
    ToggleMovesMonitoredCount(s, id);
    var s' := Storage.ToggleMonitor(s, id);
    (s', Storage.AllCompetitors(s'))
  }

  /** A toggle of a stored shop moves the monitored count by exactly one, in
      the direction of the flip; an unknown id leaves it alone. */
  lemma ToggleMovesMonitoredCount(s: Storage.Store, id: string)
    ensures var before := Storage.AllCompetitors(s);
      var after := Storage.AllCompetitors(Storage.ToggleMonitor(s, id));
      var i := FirstIndex(before, (c: CompetitorShop) => c.id == id);
      if i == -1 then MonitoredCount(after) == MonitoredCount(before)
      else MonitoredCount(after) == MonitoredCount(before) + (if before[i].isMonitored then -1 else 1)
  {
    var before := Storage.AllCompetitors(s);
    var i := FirstIndex(before, (c: CompetitorShop) => c.id == id);
    if i != -1 {
      var x := before[i].(isMonitored := !before[i].isMonitored);
      assert Storage.AllCompetitors(Storage.ToggleMonitor(s, id)) == before[i := x];
      CountUpdate(before, i, x, (c: CompetitorShop) => c.isMonitored);
    }
  }
}
