/** The keyword analysis panel (`components/keyword-analysis.tsx`): a second
    difficulty classifier written with `>=` bands, the chart of the selected
    keyword, and the load that a search triggers. */
module KeywordAnalysis {
  import opened Wrappers
  import opened Types
  import KeywordsPage
  import MockData

  /** `getDifficultyLabel`: 70 and above hard, 40 and above medium, else easy. */
  function DifficultyLabel(d: int): (r: string)
    ensures r == "Hard" <==> d >= 70
    ensures r == "Medium" <==> 40 <= d < 70
    ensures r == "Easy" <==> d < 40
  {
    if d >= 70 then "Hard" else if d >= 40 then "Medium" else "Easy"
  }

  /** `getDifficultyColor`, on the same bands: the colour names the label's
      band. */
  function DifficultyColor(d: int): (r: string)
    ensures r == "text-red-500" <==> DifficultyLabel(d) == "Hard"
    ensures r == "text-yellow-500" <==> DifficultyLabel(d) == "Medium"
    ensures r == "text-green-500" <==> DifficultyLabel(d) == "Easy"
  {
    if d >= 70 then "text-red-500" else if d >= 40 then "text-yellow-500" else "text-green-500"
  }

  /** The two pages classify every difficulty alike. */
  lemma LabelsAgree(d: int)
    ensures DifficultyLabel(d) == KeywordsPage.DifficultyLabel(d)
  {
  }

  /** `formatChartData` is the same month labelling as the keyword page's. */
  function FormatChartData(trend: seq<int>): (r: seq<KeywordsPage.ChartPoint>)
    ensures |r| == |trend|
    ensures forall i :: 0 <= i < |trend| ==> r[i].volume == trend[i]
    ensures forall i :: 0 <= i < |trend| ==> (r[i].month.Some? <==> i < 12)
    ensures forall i :: 0 <= i < |trend| && i < 12 ==> r[i].month == Some(KeywordsPage.Months[i])
  {
    KeywordsPage.MonthlyPoints(trend)
  }

  /** A generated keyword charts as exactly twelve points, January to
      December, each volume at least 500 and at most the search volume. */
  lemma GeneratedChartIsAYear(k: Keyword)
    requires MockData.GeneratedKeyword(k)
    ensures var r := FormatChartData(k.trend);
      && |r| == 12
      && (forall i :: 0 <= i < 12 ==> r[i].month == Some(KeywordsPage.Months[i]))
      && (forall i :: 0 <= i < 12 ==> 500 <= r[i].volume <= k.searchVolume)
  {
  }

  datatype Panel = Panel(keywords: seq<Keyword>, selected: Option<Keyword>)

  /** The effect on a query change: a non-empty query loads fifteen generated
      keywords and selects the first; an empty one changes nothing. */
  function OnQuery(p: Panel, query: string, draws: nat -> MockData.KeywordDraws): (r: Panel)
    ensures query == "" ==> r == p
    ensures query != "" ==> |r.keywords| == 15 && r.selected == Some(r.keywords[0])
    ensures query != "" ==> forall i :: 0 <= i < 15 ==> MockData.GeneratedKeyword(r.keywords[i])
  {
    if query == "" then p
    else
      var ks := MockData.GenerateKeywords(15, draws);
      Panel(ks, Some(ks[0]))
  }

  /** The "Start Keyword Analysis" prompt. */
  predicate ShowsPrompt(p: Panel, query: string) {
    query == "" && |p.keywords| == 0
  }

  /** After any non-empty query the prompt is gone for good: later empty
      queries keep the loaded keywords. */
  lemma PromptGoneAfterSearch(p: Panel, q1: string, q2: string, d1: nat -> MockData.KeywordDraws, d2: nat -> MockData.KeywordDraws)
    requires q1 != ""
    ensures !ShowsPrompt(OnQuery(OnQuery(p, q1, d1), q2, d2), q2)
  {
  }
}
