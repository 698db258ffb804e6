/** legacy/dashboard.js: the page served at `/` for the data file of
    legacy/script.js.  The page is modelled by the values its charts and
    tables show; the HTML around them is not. */
module LegacyDashboard {
  import opened Common
  import opened Dicts
  import opened Sorting
  import opened DateUtils
  import opened MonthRuns
  import opened LegacyScript
  import DashboardApp
  import LegacyAllUpdates

  // ----- `keysByTarget` -----

  /** `{key, to}` as the `(to, key)` pair it is grouped by. */
  function KeyPair(k: TargetKey): (string, string) {
    (k.to, k.key)
  }

  /** `keysByTarget`: for each target, the keys changed to it, in the order of
      `month.keys`. */
  function KeysByTarget(keys: seq<TargetKey>): Dict<string, seq<string>> {
    GroupBy(Map(keys, KeyPair))
  }

  /** `month.keys.forEach(({ key, to }) => { ... keysByTarget[to].push(key); })` */
  method GroupKeys(keys: seq<TargetKey>) returns (keysByTarget: Dict<string, seq<string>>)
    ensures keysByTarget == KeysByTarget(keys)
  {
    keysByTarget := [];
    var i := 0;
    while i < |keys|
      invariant i <= |keys|
      invariant keysByTarget == GroupBy(Map(keys[..i], KeyPair))
    {
      var k := keys[i];
      assert Map(keys[..i + 1], KeyPair) == Map(keys[..i], KeyPair) + [KeyPair(k)];
      assert (Map(keys[..i], KeyPair) + [KeyPair(k)])[..i] == Map(keys[..i], KeyPair);
      var group := GetOr(keysByTarget, k.to, []);
      keysByTarget := Put(keysByTarget, k.to, group + [k.key]);
      i := i + 1;
    }
    assert keys[..i] == keys;
  }

  /** `(a, b) => parseFloat(a) - parseFloat(b)` on the groups' targets. */
  function GroupOrder(e: (string, seq<string>)): SortKey {
    TargetOrder(e.0)
  }

  /** One month of the details tab: nothing for a month without changes, or
      its groups of keys in ascending numeric order of target. */
  datatype MonthDetail =
    | NoDetail
    | Detail(name: string, totalChanges: nat, groups: seq<(string, seq<string>)>)

  function DetailOf(m: TwoStats): MonthDetail {
    if |m.keys| == 0 then NoDetail
    else Detail(m.name, m.totalChanges, SortBy(KeysByTarget(m.keys), GroupOrder))
  }

  // ----- The page -----

  /** `targetDatasets[i]`: the count of one target in every month, 0 where
      the month has none (label and colours not modelled). */
  datatype Dataset = Dataset(target: string, data: seq<nat>)

  function MonthCount(t: string): ((string, TwoStats)) -> nat {
    (e: (string, TwoStats)) => Count(e.1.byTarget, t)
  }

  function DatasetOf(stats: Dict<string, TwoStats>): string -> Dataset {
    (t: string) => Dataset(t, Map(stats, MonthCount(t)))
  }

  /** `changeRate` of the breakdown table: `'0.00'` for a month without issues. */
  function ChangeRate(m: TwoStats): (r: DashboardApp.Rate)
    ensures r == DashboardApp.ZeroRate <==> m.totalIssues == 0
    ensures r.Percent? ==> r.changes == m.totalChanges && r.issues == m.totalIssues && r.issues > 0
  {
    if m.totalIssues > 0 then DashboardApp.Percent(m.totalChanges, m.totalIssues) else DashboardApp.ZeroRate
  }

  function RateOf(e: (string, TwoStats)): DashboardApp.Rate {
    ChangeRate(e.1)
  }

  function MonthName(e: (string, TwoStats)): string {
    e.1.name
  }

  function DetailEntry(e: (string, TwoStats)): MonthDetail {
    DetailOf(e.1)
  }

  function IssuesOf(e: (string, TwoStats)): nat {
    e.1.totalIssues
  }

  function ChangesOf(e: (string, TwoStats)): nat {
    e.1.totalChanges
  }

  /** What `/` sends: the no-data heading, or the dashboard's values.  The
      TOTAL row's rate has no zero guard: with no issues at all it shows `NaN%`. */
  datatype Page =
    | NoData
    | Dashboard(
        targets: seq<string>,
        chartLabels: seq<string>,
        totalChangesData: seq<nat>,
        totalIssuesData: seq<nat>,
        targetDatasets: seq<Dataset>,
        grandTotalIssues: nat,
        grandTotalChanges: nat,
        rows: seq<ComparisonRow>,
        rates: seq<DashboardApp.Rate>,
        totalRate: DashboardApp.Rate,
        totalCells: seq<nat>,
        details: seq<MonthDetail>,
        report: string)

  /** The page for the loaded data file (`None` when there is none) and the
      report text (`None` when there is no report file, read as `''`). */
  function PageOf(data: Option<Dict<string, TwoStats>>, reportText: Option<string>): Page {
    if data.None? then NoData
    else
      var stats := data.value;
      var targets := SortedTargets(stats);
      var issues := SumOf(stats, EntryMeasure(RecordIssues));
      var changes := SumOf(stats, EntryMeasure(RecordChanges));
      Dashboard(targets, Map(stats, MonthName), Map(stats, ChangesOf), Map(stats, IssuesOf),
        Map(targets, DatasetOf(stats)), issues, changes, Comparison(stats), Map(stats, RateOf),
        DashboardApp.Percent(changes, issues), Map(targets, CountIn(GrandByTarget(stats))),
        Map(stats, DetailEntry), EscapeHtml(reportText.GetOr("")))
  }

  /** The `/` route, given the loaded files. */
  method Render(data: Option<Dict<string, TwoStats>>, reportText: Option<string>) returns (page: Page)
    ensures page == PageOf(data, reportText)
  {
    if data.None? {
      return NoData;
    }
    var months := data.value;
    var sortedTargets := SortedTargets(months);
    var grandTotalIssues := SumValues(months, RecordIssues);
    var grandTotalChanges := SumValues(months, RecordChanges);
    var grandTotalByTarget := GrandTotalByTarget(months);
    var details := MonthDetails(months);
    page := Dashboard(sortedTargets, Map(months, MonthName), Map(months, ChangesOf), Map(months, IssuesOf),
      Map(sortedTargets, DatasetOf(months)), grandTotalIssues, grandTotalChanges, Comparison(months),
      Map(months, RateOf), DashboardApp.Percent(grandTotalChanges, grandTotalIssues),
      Map(sortedTargets, CountIn(grandTotalByTarget)), details, EscapeHtml(reportText.GetOr("")));
  }

  /** The details of one month: nothing for a month without changes, else
      its keys grouped by target, in target order. */
  method MonthDetailOf(month: TwoStats) returns (detail: MonthDetail)
    ensures detail == DetailOf(month)
  {
    detail := NoDetail;
    if |month.keys| != 0 {
      var keysByTarget := GroupKeys(month.keys);
      detail := Detail(month.name, month.totalChanges, SortBy(keysByTarget, GroupOrder));
    }
  }

  /** `months.map(month => ...)` of the details tab. */
  method MonthDetails(months: Dict<string, TwoStats>) returns (details: seq<MonthDetail>)
    ensures details == Map(months, DetailEntry)
  {
    details := [];
    var i := 0;
    while i < |months|
      invariant i <= |months|
      invariant details == Map(months[..i], DetailEntry)
    {
      var detail := MonthDetailOf(months[i].1);
      MapStep(months, DetailEntry, i);
      details := details + [detail];
      i := i + 1;
    }
    assert months[..i] == months;
  }

  // ----- Properties -----

  /** Without a data file the page is the no-data heading; with one, the
      chart has one label and one pair of totals per month, in file order. */
  lemma PageShape(data: Option<Dict<string, TwoStats>>, reportText: Option<string>)
    ensures PageOf(data, reportText).NoData? <==> data.None?
    ensures data.Some? ==> var p := PageOf(data, reportText); var stats := data.value;
      && |p.chartLabels| == |p.totalChangesData| == |p.totalIssuesData| == |p.rates| == |p.details| == |stats|
      && forall i :: 0 <= i < |stats| ==>
           p.chartLabels[i] == stats[i].1.name && p.totalChangesData[i] == stats[i].1.totalChanges
           && p.totalIssuesData[i] == stats[i].1.totalIssues
           && (p.rates[i] == DashboardApp.ZeroRate <==> stats[i].1.totalIssues == 0)
  {
  }

  /** The chart has one series per target, each target once and in ascending
      numeric order, exactly the targets some month has; a series holds the
      target's count in every month. */
  lemma DatasetsShape(stats: Dict<string, TwoStats>, reportText: Option<string>)
    ensures var p := PageOf(Some(stats), reportText);
      && p.targets == SortedTargets(stats)
      && |p.targetDatasets| == |p.targets|
      && forall j :: 0 <= j < |p.targets| ==>
           p.targetDatasets[j].target == p.targets[j] && |p.targetDatasets[j].data| == |stats|
           && forall i :: 0 <= i < |stats| ==> p.targetDatasets[j].data[i] == Count(stats[i].1.byTarget, p.targets[j])
    ensures forall t :: t in PageOf(Some(stats), reportText).targets <==> exists i :: 0 <= i < |stats| && t in Keys(stats[i].1.byTarget)
    ensures Distinct(PageOf(Some(stats), reportText).targets)
  {
    SortedTargetsSpec(stats);
  }

  /** `grandTotalByTarget[t]` is the sum of the series of `t`; the TOTAL
      row's target cells add up to the grand total of changes; the grand
      totals add up the months. */
  lemma GrandTotalsAddUp(stats: Dict<string, TwoStats>, reportText: Option<string>)
    requires forall i :: 0 <= i < |stats| ==> Tallied(stats[i].1)
    ensures var p := PageOf(Some(stats), reportText);
      && p.grandTotalIssues == SumOf(stats, EntryMeasure(RecordIssues))
      && p.grandTotalChanges == SumOf(stats, EntryMeasure(RecordChanges))
      && |p.totalCells| == |p.targets|
      && (forall j :: 0 <= j < |p.targets| ==> p.totalCells[j] == SumOf(p.targetDatasets[j].data, NatValue))
      && SumOf(p.totalCells, NatValue) == p.grandTotalChanges
  {
    var ts := SortedTargets(stats);
    forall j | 0 <= j < |ts|
      ensures CountIn(GrandByTarget(stats))(ts[j]) == SumOf(Map(stats, MonthCount(ts[j])), NatValue)
    {
      GrandByTargetCount(stats, ts[j]);
      SumOfPointwise(Map(stats, MonthCount(ts[j])), NatValue, stats, EntryMeasure(TargetCount(ts[j])));
    }
    TotalRowAddsUp(stats);
  }

  /** For a month with changes, the details list each target once, in
      ascending numeric order, with the keys changed to it in their order
      in `keys`; the groups' sizes add up to the number of keys. */
  lemma DetailGroups(m: TwoStats)
    ensures DetailOf(m).NoDetail? <==> |m.keys| == 0
    ensures DetailOf(m).Detail? ==> var gs := DetailOf(m).groups;
      && SortedBy(gs, GroupOrder)
      && (forall i, j :: 0 <= i < j < |gs| ==>
            LegacyAllUpdates.TargetValue(gs[i].0) <= LegacyAllUpdates.TargetValue(gs[j].0))
      && Distinct(Keys(gs))
      && (forall t :: t in Keys(gs) <==> exists k :: k in m.keys && k.to == t)
      && (forall e :: e in gs ==> e.1 == Select(Map(m.keys, KeyPair), e.0))
      && SumOf(gs, GroupSize) == |m.keys|
  {
    if |m.keys| > 0 {
      var items := Map(m.keys, KeyPair);
      SortedGroups(items, GroupOrder);
      SortedGroupKeys(items, GroupOrder);
      GroupsAscending(SortBy(GroupBy(items), GroupOrder));
      PairKeys(m.keys);
    }
  }

  lemma GroupsAscending(gs: seq<(string, seq<string>)>)
    requires SortedBy(gs, GroupOrder)
    ensures forall i, j :: 0 <= i < j < |gs| ==> LegacyAllUpdates.TargetValue(gs[i].0) <= LegacyAllUpdates.TargetValue(gs[j].0)
  {
    forall i, j | 0 <= i < j < |gs| ensures LegacyAllUpdates.TargetValue(gs[i].0) <= LegacyAllUpdates.TargetValue(gs[j].0) {
      assert KeyLe(GroupOrder(gs[i]), GroupOrder(gs[j]));
    }
  }

  lemma PairKeys(keys: seq<TargetKey>)
    ensures forall t :: t in Keys(Map(keys, KeyPair)) <==> exists k :: k in keys && k.to == t
  {
    var items := Map(keys, KeyPair);
    forall t ensures t in Keys(items) <==> exists k :: k in keys && k.to == t {
      if t in Keys(items) {
        var i :| 0 <= i < |items| && items[i].0 == t;
        assert keys[i] in keys;
      }
      if exists k :: k in keys && k.to == t {
        var k :| k in keys && k.to == t;
        var i :| 0 <= i < |keys| && keys[i] == k;
        assert items[i].0 == t;
      }
    }
  }

  /** The report tab shows the report text with `&`, `<`, `>`, `"` and `'`
      replaced by their entities, character by character, and an absent
      report as nothing. */
  lemma ReportEscaped(stats: Dict<string, TwoStats>, reportText: Option<string>)
    ensures PageOf(Some(stats), reportText).report == EscapeEach(reportText.GetOr(""))
    ensures reportText.None? ==> PageOf(Some(stats), reportText).report == ""
  {
    EscapeHtmlEach(reportText.GetOr(""));
  }
}
