/** The keyword page (`app/keywords/page.tsx`): the keyword search, the
    difficulty classifier, the selected keyword's chart data and the two
    insight conditions. */
module KeywordsPage {
  import opened Wrappers
  import opened Seqs
  import opened Text
  import opened Types

  /** Case-insensitive match on the keyword text. */
  predicate KeywordMatches(k: Keyword, query: string) {
    Contains(Lower(k.keyword), Lower(query))
  }

  /** The filtered list: everything for an empty query, otherwise exactly the
      matching keywords, in stored order. */
  function Search(ks: seq<Keyword>, query: string): (r: seq<Keyword>)
    ensures query == "" ==> r == ks
    ensures IsSubsequence(r, ks)
    ensures query != "" ==> forall k :: k in ks ==> (k in r <==> KeywordMatches(k, query))
    ensures query != "" ==> |r| == Count(ks, (k: Keyword) => KeywordMatches(k, query))
  {
    if query == "" then
      SubsequenceReflexive(ks);
      ks
    else Filter(ks, (k: Keyword) => KeywordMatches(k, query))
  }

  /** The page's state after loading: the stored keywords, all shown, the
      first one selected when there is one. */
  datatype KeywordView = KeywordView(keywords: seq<Keyword>, filtered: seq<Keyword>, selected: Option<Keyword>)

  function Load(stored: seq<Keyword>): (v: KeywordView)
    ensures v.keywords == stored && v.filtered == stored
    ensures v.selected.Some? <==> |stored| > 0
    ensures v.selected.Some? ==> v.selected.value == stored[0]
  {
    KeywordView(stored, stored, if |stored| > 0 then Some(stored[0]) else None)
  }

  /** `getDifficultyLabel`: below 40 easy, below 70 medium, else hard. */
  function DifficultyLabel(d: int): (r: string)
    ensures r == "Easy" <==> d < 40
    ensures r == "Medium" <==> 40 <= d < 70
    ensures r == "Hard" <==> 70 <= d
  {
    if d < 40 then "Easy" else if d < 70 then "Medium" else "Hard"
  }

  /** `getDifficultyColor`, on the same bands: the colour names the label's
      band. */
  function DifficultyColor(d: int): (r: string)
    ensures r == "bg-green-500" <==> DifficultyLabel(d) == "Easy"
    ensures r == "bg-yellow-500" <==> DifficultyLabel(d) == "Medium"
    ensures r == "bg-red-500" <==> DifficultyLabel(d) == "Hard"
  {
    if d < 40 then "bg-green-500" else if d < 70 then "bg-yellow-500" else "bg-red-500"
  }

  const Months: seq<string> :=
    ["Jan", "Feb", "Mar", "Apr", "May", "Jun", "Jul", "Aug", "Sep", "Oct", "Nov", "Dec"]

  /** A chart point; indexing the month table past December gives
      `undefined`, which is `None` here. */
  datatype ChartPoint = ChartPoint(month: Option<string>, volume: int)

  /** A trend series as chart points, one per value, labelled by month. */
  function MonthlyPoints(trend: seq<int>): (r: seq<ChartPoint>)
    ensures |r| == |trend|
    ensures forall i :: 0 <= i < |trend| ==> r[i].volume == trend[i]
    ensures forall i :: 0 <= i < |trend| ==> (r[i].month.Some? <==> i < 12)
    ensures forall i :: 0 <= i < |trend| && i < 12 ==> r[i].month == Some(Months[i])
  {
    seq(|trend|, (i: int) requires 0 <= i < |trend| =>
      ChartPoint(if i < |Months| then Some(Months[i]) else None, trend[i]))
  }

  /** `trendChartData`: no points without a selected keyword. */
  function TrendChartData(selected: Option<Keyword>): (r: seq<ChartPoint>)
    ensures selected.None? ==> r == []
    ensures selected.Some? ==> |r| == |selected.value.trend|
    ensures selected.Some? ==> forall i :: 0 <= i < |r| ==> r[i].volume == selected.value.trend[i]
    ensures selected.Some? ==> forall i :: 0 <= i < |r| ==> (r[i].month.Some? <==> i < 12)
    ensures selected.Some? ==> forall i :: 0 <= i < |r| && i < 12 ==> r[i].month == Some(Months[i])
  {
    if selected.None? then [] else MonthlyPoints(selected.value.trend)
  }

  /** The competition insight's three messages. */
  datatype CompetitionInsight = HighCompetition | ModerateCompetition | LowCompetition

  function CompetitionInsightOf(competition: int): (r: CompetitionInsight)
    ensures r == HighCompetition <==> competition > 70
    ensures r == ModerateCompetition <==> 40 < competition <= 70
    ensures r == LowCompetition <==> competition <= 40
  {
    if competition > 70 then HighCompetition
    else if competition > 40 then ModerateCompetition
    else LowCompetition
  }

  /** JavaScript truthiness of an optional number: `undefined` and `0` are
      falsy (NaN, also falsy, has no counterpart among the reals). */
  predicate Truthy(x: Option<real>) {
    x.Some? && x.value != 0.0
  }

  /** "strong" commercial intent: `cpc && cpc > 2`, the truthiness test
      followed by the comparison. */
  predicate StrongIntent(k: Keyword) {
    Truthy(k.cpc) && k.cpc.value > 2.0
  }

  /** The truthiness guard only rules out what the comparison rules out
      anyway: intent is strong exactly when a CPC is present and above 2, so
      a CPC of 0 and a missing one both read as moderate. */
  lemma StrongIntentNeedsCpc(k: Keyword)
    ensures StrongIntent(k) <==> k.cpc.Some? && k.cpc.value > 2.0
    ensures k.cpc == Some(0.0) ==> !StrongIntent(k) && !Truthy(k.cpc)
    ensures k.cpc.None? ==> !StrongIntent(k)
  {
    if k.cpc.Some? && k.cpc.value > 2.0 {
      assert k.cpc.value != 0.0;
    }
  }
}
