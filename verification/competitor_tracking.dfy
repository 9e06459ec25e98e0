/** The competitor tracker (`components/competitor-tracking.tsx`): the list's
    monitoring toggle, the selected shop's detail panel and its ratios. */
module CompetitorTracking {
  import opened Wrappers
  import opened Numeric
  import opened Types
  import MockData
  import Storage

  /** `toggleMonitoring`: every shop with the id has its flag flipped; the
      others are kept as they are. */
  function ToggleMonitoring(cs: seq<CompetitorShop>, id: string): (r: seq<CompetitorShop>)
    ensures |r| == |cs|
    ensures forall i :: 0 <= i < |cs| && cs[i].id == id ==> r[i] == cs[i].(isMonitored := !cs[i].isMonitored)
    ensures forall i :: 0 <= i < |cs| && cs[i].id != id ==> r[i] == cs[i]
  {
    seq(|cs|, (i: int) requires 0 <= i < |cs| =>
      if cs[i].id == id then cs[i].(isMonitored := !cs[i].isMonitored) else cs[i])
  }

  /** Toggling twice restores the list. */
  lemma ToggleMonitoringTwice(cs: seq<CompetitorShop>, id: string)
    ensures ToggleMonitoring(ToggleMonitoring(cs, id), id) == cs
  {
  }

  predicate UniqueIds(cs: seq<CompetitorShop>) {
    forall i, j :: 0 <= i < j < |cs| ==> cs[i].id != cs[j].id
  }

  /** With distinct ids the view's toggle and the stored toggle agree. */
  lemma AgreesWithStorage(s: Storage.Store, id: string)
    requires s.hasWindow
    requires UniqueIds(Storage.AllCompetitors(s))
    ensures Storage.AllCompetitors(Storage.ToggleMonitor(s, id))
         == ToggleMonitoring(Storage.AllCompetitors(s), id)
  {
  }

  /** With a repeated id they do not: the view flips every copy, storage
      only the first. */
  lemma DisagreeOnRepeatedIds(c: CompetitorShop)
    ensures var s := Storage.Store(true, Storage.Empty, Storage.Empty, Storage.Holds([c, c]),
                                   Storage.Empty, Storage.Empty, Storage.Empty);
      Storage.AllCompetitors(Storage.ToggleMonitor(s, c.id)) != ToggleMonitoring([c, c], c.id)
  {
    var s := Storage.Store(true, Storage.Empty, Storage.Empty, Storage.Holds([c, c]),
                           Storage.Empty, Storage.Empty, Storage.Empty);
    assert Storage.AllCompetitors(Storage.ToggleMonitor(s, c.id))[1] == c;
  }

  // ------------------------------------------------------------ detail panel

  /** The tracker as written: the detail panel shows a copy of the shop taken
      when it was selected. */
  datatype Tracker = Tracker(competitors: seq<CompetitorShop>, selected: Option<CompetitorShop>)

  /** Loading selects the first shop (none for an empty list). */
  function Load(cs: seq<CompetitorShop>): (t: Tracker)
    ensures t.competitors == cs
    ensures t.selected.Some? <==> |cs| > 0
    ensures t.selected.Some? ==> t.selected.value == cs[0]
  {
    Tracker(cs, if |cs| > 0 then Some(cs[0]) else None)
  }

  /** Either toggle button: the list changes, the selected copy does not. */
  function ToggleAsWritten(t: Tracker, id: string): (r: Tracker)
    ensures r.competitors == ToggleMonitoring(t.competitors, id)
    ensures r.selected == t.selected
  {
    t.(competitors := ToggleMonitoring(t.competitors, id))
  }

  /** The detail panel's monitoring button reads the selected copy. */
  function DetailMonitored(t: Tracker): (m: Option<bool>)
    ensures m.Some? <==> t.selected.Some?
  {
    if t.selected.Some? then Some(t.selected.value.isMonitored) else None
  }

  /** The detail panel's button does not follow its own click: after toggling
      the selected shop, the list marks it monitored while the panel still
      offers to start monitoring. */
  lemma DetailGoesStale(c: CompetitorShop)
    requires !c.isMonitored
    ensures var t := ToggleAsWritten(Load([c]), c.id);
      DetailMonitored(t) == Some(false) && t.competitors[0].isMonitored
  {
  }

  /** The evidently intended tracker: the panel remembers which shop is
      selected and reads it from the current list. */
  datatype Selection = Selection(competitors: seq<CompetitorShop>, selectedId: Option<string>)

  function LoadSelection(cs: seq<CompetitorShop>): (t: Selection)
    ensures t.competitors == cs
    ensures t.selectedId.Some? <==> |cs| > 0
    ensures t.selectedId.Some? ==> t.selectedId.value == cs[0].id
  {
    Selection(cs, if |cs| > 0 then Some(cs[0].id) else None)
  }

  function ToggleSelection(t: Selection, id: string): (r: Selection)
    ensures r.competitors == ToggleMonitoring(t.competitors, id)
    ensures r.selectedId == t.selectedId
  {
    t.(competitors := ToggleMonitoring(t.competitors, id))
  }

  /** The shop the panel shows: the first one with the selected id. */
  function SelectedShop(t: Selection): (r: Option<CompetitorShop>)
    ensures r.Some? ==> r.value in t.competitors && t.selectedId == Some(r.value.id)
    ensures r.None? ==> t.selectedId.None? || forall c :: c in t.competitors ==> c.id != t.selectedId.value
  {
    if t.selectedId.None? then None else FirstWithId(t.competitors, t.selectedId.value)
  }

  function FirstWithId(cs: seq<CompetitorShop>, id: string): (r: Option<CompetitorShop>)
    ensures r.Some? ==> r.value in cs && r.value.id == id
    ensures r.None? ==> forall c :: c in cs ==> c.id != id
  {
    if |cs| == 0 then None
    else if cs[0].id == id then Some(cs[0])
    else FirstWithId(cs[1..], id)
  }

  /** The corrected panel's button follows every toggle of the shop it shows,
      from either button, and ignores toggles of other shops. */
  lemma {:induction false} DetailFollowsToggle(t: Selection, id: string)
    requires SelectedShop(t).Some?
    ensures var c := SelectedShop(t).value;
      var c' := SelectedShop(ToggleSelection(t, id));
      c'.Some? &&
      c'.value.isMonitored == (if c.id == id then !c.isMonitored else c.isMonitored)
  {
    FirstWithIdToggled(t.competitors, t.selectedId.value, id);
  }

  lemma {:induction false} FirstWithIdToggled(cs: seq<CompetitorShop>, sel: string, id: string)
    requires FirstWithId(cs, sel).Some?
    ensures var c := FirstWithId(cs, sel).value;
      FirstWithId(ToggleMonitoring(cs, id), sel)
        == Some(if sel == id then c.(isMonitored := !c.isMonitored) else c)
  {
    var r := ToggleMonitoring(cs, id);
    assert r[0] == (if cs[0].id == id then cs[0].(isMonitored := !cs[0].isMonitored) else cs[0]);
    if cs[0].id != sel {
      assert r[1..] == ToggleMonitoring(cs[1..], id);
      FirstWithIdToggled(cs[1..], sel, id);
    }
  }

  // ------------------------------------------------------------------ ratios

  /** "Customer Satisfaction": the rating as a rounded percentage of 5. */
  function Satisfaction(c: CompetitorShop): (r: int)
    ensures c.avgRating * 20.0 - 0.5 < r as real <= c.avgRating * 20.0 + 0.5
  {
    Round(c.avgRating / 5.0 * 100.0)
  }

  /** "Market Penetration": the product count as a rounded percentage of 500. */
  function Penetration(c: CompetitorShop): (r: int)
    ensures c.productsCount as real / 5.0 - 0.5 < r as real <= c.productsCount as real / 5.0 + 0.5
  {
    Round(c.productsCount as real / 500.0 * 100.0)
  }

  /** For generated shops both percentages are in range. */
  lemma GeneratedPercentages(c: CompetitorShop)
    requires MockData.GeneratedShop(c)
    ensures 70 <= Satisfaction(c) <= 100
    ensures 2 <= Penetration(c) <= 100
  {
    RoundBetween(c.avgRating / 5.0 * 100.0, 70, 100);
    RoundBetween(c.productsCount as real / 500.0 * 100.0, 2, 100);
  }

  /** "Review Rate": reviews per product to one decimal; none for a shop with
      no products. */
  function ReviewRate(c: CompetitorShop): (r: Option<real>)
    ensures r.None? <==> c.productsCount == 0
    ensures r.Some? ==> -0.05 <= r.value - c.totalReviews as real / c.productsCount as real <= 0.05
  {
    if c.productsCount == 0 then None
    else Some(ToFixed(c.totalReviews as real / c.productsCount as real, 10))
  }

  /** "Revenue / Product": the rounded quotient; none for a shop with no
      products. */
  function RevenuePerProduct(c: CompetitorShop): (r: Option<int>)
    ensures r.None? <==> c.productsCount == 0
    ensures r.Some? ==> -0.5 < r.value as real - c.estimatedRevenue as real / c.productsCount as real <= 0.5
  {
    if c.productsCount == 0 then None
    else Some(Round(c.estimatedRevenue as real / c.productsCount as real))
  }

  /** Generated shops always have products, so both quotients exist. */
  lemma GeneratedQuotientsExist(c: CompetitorShop)
    requires MockData.GeneratedShop(c)
    ensures ReviewRate(c).Some? && RevenuePerProduct(c).Some?
    ensures 2 <= RevenuePerProduct(c).value <= 10000
  {
    var q := c.estimatedRevenue as real / c.productsCount as real;
    QuotientBetween(c.estimatedRevenue, c.productsCount);
    RoundBetween(q, 2, 10000);
  }

  lemma QuotientBetween(rev: int, pc: int)
    requires 1000 <= rev <= 100000 && 10 <= pc <= 500
    ensures 2.0 <= rev as real / pc as real <= 10000.0
  {
    var k := pc as real;
    DivideMonotone(2.0 * k, rev as real, k);
    assert (2.0 * k) / k == 2.0;
    DivideMonotone(rev as real, 10000.0 * k, k);
    assert (10000.0 * k) / k == 10000.0;
  }
}
