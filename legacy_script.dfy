/** legacy/script.js: the Story Points run that follows changes away from
    exactly `'2'` to a larger number, month by month from 2025-03-01 through
    today, with a per-target tally for each month and a comparison across
    months. */
module LegacyScript {
  import opened Common
  import opened Dicts
  import opened Numbers
  import opened Sorting
  import opened DateUtils
  import opened Config
  import opened Jira
  import opened ChangeScan
  import opened Analyzer
  import opened MonthRuns
  import opened LegacyChanges
  import Monthly
  import LegacyAllUpdates

  // ----- `analyzeStoryPointChanges` -----

  /** The test of one change item: the Story Points field, a `from` that is
      the string `'2'` itself, and a `to` that parses to more than 2. */
  function TwoItemChange(key: string, h: History, item: ChangeItem): (r: Option<RawChange>)
    ensures r.Some? ==> item.fieldId == Some(StoryPointsId) && item.field == Some(StoryPointsName)
    ensures r.Some? ==> item.fromString == Some("2") && r.value.from == "2" && item.toString == Some(r.value.to)
    ensures r.Some? ==> r.value.key == key && r.value.created == h.created && r.value.author == Author(h)
    ensures r.Some? ==> ParseFloat(r.value.to).Some? && ParseFloat(r.value.to).value > 2.0
  {
    if item.fieldId == Some(StoryPointsId) && item.field == Some(StoryPointsName) && item.fromString == Some("2") then
      var toValue := ParseOpt(item.toString);
      if toValue.Some? && toValue.value > 2.0 then
        Some(RawChange(key, item.fromString.value, item.toString.value, h.created, Author(h)))
      else None
    else None
  }

  const TwoRule: Rule<RawChange> := (key: string, h: History, item: ChangeItem) => TwoItemChange(key, h, item)

  /** What `analyzeStoryPointChanges(issues)` returns. */
  function TwoChanges(issues: seq<Issue>): seq<RawChange> {
    Scan(issues, Prefix, TwoRule)
  }

  /** `analyzeStoryPointChanges(issues)` */
  method AnalyzeStoryPointChanges(issues: seq<Issue>) returns (changes: seq<RawChange>)
    ensures changes == TwoChanges(issues)
  {
    changes := ScanChanges(issues, Prefix, TwoRule);
  }

  // ----- `byTarget` -----

  /** `byTarget`: a count per `to` string, in order of first appearance. */
  function ByTarget(changes: seq<RawChange>): Dict<string, nat> {
    Tally(Map(changes, RawTo))
  }

  /** `changes.reduce((acc, { to }) => { acc[to] = (acc[to] || 0) + 1; ... }, {})` */
  method CountByTarget(changes: seq<RawChange>) returns (byTarget: Dict<string, nat>)
    ensures byTarget == ByTarget(changes)
  {
    byTarget := [];
    var i := 0;
    while i < |changes|
      invariant i <= |changes|
      invariant byTarget == Tally(Map(changes[..i], RawTo))
    {
      assert changes[..i + 1] == changes[..i] + [changes[i]];
      MapSnoc(changes[..i], changes[i], RawTo);
      TallySnoc(Map(changes[..i], RawTo), changes[i].to);
      byTarget := AddTo(byTarget, changes[i].to, 1);
      i := i + 1;
    }
    assert changes[..i] == changes;
  }

  // ----- The record -----

  /** `{key, to}` */
  datatype TargetKey = TargetKey(key: string, to: string)

  function TargetKeyOf(c: RawChange): TargetKey {
    TargetKey(c.key, c.to)
  }

  /** One value of `monthlyStats`, and of the data file the dashboard reads. */
  datatype TwoStats = TwoStats(
    name: string,
    totalIssues: nat,
    totalChanges: nat,
    byTarget: Dict<string, nat>,
    keys: seq<TargetKey>)

  /** The record stored for a month whose issues were fetched. */
  function Record(name: string, issues: seq<Issue>): TwoStats {
    var changes := TwoChanges(issues);
    TwoStats(name, |issues|, |changes|, ByTarget(changes), Map(changes, TargetKeyOf))
  }

  // ----- `formatResults` -----

  /** What one month adds to the report: the `formatResults` text, or the ERROR line. */
  datatype ReportEntry =
    | Formatted(name: string, totalIssues: nat, groups: seq<LegacyAllUpdates.TargetGroup>, noChanges: bool, total: nat)
    | Failed(line: string)

  /** What `formatResults(monthName, totalIssues, changes)` prints: the
      changes grouped by `to`, the targets in ascending numeric order.  The
      summary repeats the groups' targets and sizes, so it is not kept apart. */
  function Formatting(monthName: string, totalIssues: nat, changes: seq<RawChange>): ReportEntry {
    Formatted(monthName, totalIssues, LegacyAllUpdates.GroupsOf(changes), |changes| == 0, |changes|)
  }

  // ----- The month loop -----

  /** The body of the `try` block for one window. */
  function Attempt(w: Window, fetch: LegacyFetcher): Result<TwoStats> {
    match fetch(w.start, w.end)
    case Err(m) => Err(m)
    case Ok(issues) => Ok(Record(w.name, issues))
  }

  function Attempts(fetch: LegacyFetcher): Window -> Result<TwoStats> {
    (w: Window) => Attempt(w, fetch)
  }

  /** `monthlyStats` after the given months. */
  function MonthlyStats(months: Dict<string, Window>, fetch: LegacyFetcher): Dict<string, TwoStats> {
    Collect(months, Attempts(fetch))
  }

  function MonthReport(w: Window, fetch: LegacyFetcher): ReportEntry {
    match fetch(w.start, w.end)
    case Err(m) => Failed(Monthly.ErrorLine(w.name, m))
    case Ok(issues) => Formatting(w.name, |issues|, TwoChanges(issues))
  }

  function ReportOf(fetch: LegacyFetcher): ((string, Window)) -> ReportEntry {
    (m: (string, Window)) => MonthReport(m.1, fetch)
  }

  /** The month parts of `fullOutput`: one per month, in month order. */
  function MonthReports(months: Dict<string, Window>, fetch: LegacyFetcher): seq<ReportEntry> {
    Map(months, ReportOf(fetch))
  }

  /** The body of the loop for one month: the record to store, and what the
      month adds to the report. */
  method ProcessMonth(w: Window, fetch: LegacyFetcher) returns (r: Result<TwoStats>, entry: ReportEntry)
    ensures r == Attempt(w, fetch) && entry == MonthReport(w, fetch)
  {
    var fetched := fetch(w.start, w.end);
    if fetched.Err? {
      r := Err(fetched.message);
      entry := Failed(Monthly.ErrorLine(w.name, fetched.message));
    } else {
      var issues := fetched.value;
      var changes := AnalyzeStoryPointChanges(issues);
      var byTarget := CountByTarget(changes);
      r := Ok(TwoStats(w.name, |issues|, |changes|, byTarget, Map(changes, TargetKeyOf)));
      entry := Formatting(w.name, |issues|, changes);
    }
  }

  /** The `for (const [monthKey, monthData] of Object.entries(MONTHS))` loop. */
  method RunMonths(months: Dict<string, Window>, fetch: LegacyFetcher) returns (stats: Dict<string, TwoStats>, report: seq<ReportEntry>)
    ensures stats == MonthlyStats(months, fetch)
    ensures report == MonthReports(months, fetch)
  {
    stats := [];
    report := [];
    var i := 0;
    while i < |months|
      invariant i <= |months|
      invariant stats == MonthlyStats(months[..i], fetch)
      invariant report == MonthReports(months[..i], fetch)
    {
      var (monthKey, monthData) := months[i];
      var r, entry := ProcessMonth(monthData, fetch);
      RunStep(months, Attempts(fetch), ReportOf(fetch), i, stats, report, r, entry);
      if r.Ok? {
        stats := Put(stats, monthKey, r.value);
      }
      report := report + [entry];
      i := i + 1;
    }
    assert months[..i] == months;
  }

  // ----- The monthly comparison -----

  function TargetsOfRecord(r: TwoStats): seq<string> {
    Keys(r.byTarget)
  }

  /** `Object.values(stats).flatMap(s => Object.keys(s.byTarget || {}))` */
  function AllTargetKeys(stats: Dict<string, TwoStats>): seq<string>
    decreases |stats|
  {
    if stats == [] then []
    else AllTargetKeys(stats[..|stats| - 1]) + TargetsOfRecord(stats[|stats| - 1].1)
  }

  /** `(a, b) => parseFloat(a) - parseFloat(b)` on target strings */
  function TargetOrder(t: string): SortKey {
    SortKey(LegacyAllUpdates.TargetValue(t), 0.0, 0.0)
  }

  /** `sortedTargets`: the distinct targets of all months, in ascending numeric order. */
  function SortedTargets(stats: Dict<string, TwoStats>): seq<string> {
    SortBy(Dedup(AllTargetKeys(stats)), TargetOrder)
  }

  /** One line of the comparison table: the month's totals and its count for
      each of the sorted targets, 0 where it has none. */
  datatype ComparisonRow = ComparisonRow(name: string, totalIssues: nat, totalChanges: nat, cells: seq<nat>)

  function Row(r: TwoStats, targets: seq<string>): ComparisonRow {
    ComparisonRow(r.name, r.totalIssues, r.totalChanges, Map(targets, CountIn(r.byTarget)))
  }

  function RowOf(targets: seq<string>): ((string, TwoStats)) -> ComparisonRow {
    (e: (string, TwoStats)) => Row(e.1, targets)
  }

  /** The rows of the comparison table, one per stored month. */
  function Comparison(stats: Dict<string, TwoStats>): seq<ComparisonRow> {
    Map(stats, RowOf(SortedTargets(stats)))
  }

  /** `grandTotalByTarget` after the given months. */
  function GrandByTarget(stats: Dict<string, TwoStats>): Dict<string, nat>
    decreases |stats|
  {
    if stats == [] then []
    else AddAll(GrandByTarget(stats[..|stats| - 1]), stats[|stats| - 1].1.byTarget)
  }

  /** The `reduce` over the months that adds each month's `byTarget` into `acc`. */
  method GrandTotalByTarget(stats: Dict<string, TwoStats>) returns (acc: Dict<string, nat>)
    ensures acc == GrandByTarget(stats)
  {
    acc := [];
    var i := 0;
    while i < |stats|
      invariant i <= |stats|
      invariant acc == GrandByTarget(stats[..i])
    {
      assert stats[..i + 1][..i] == stats[..i];
      acc := AddAllTo(acc, stats[i].1.byTarget);
      i := i + 1;
    }
    assert stats[..i] == stats;
  }

  function RecordIssues(r: TwoStats): nat {
    r.totalIssues
  }

  function RecordChanges(r: TwoStats): nat {
    r.totalChanges
  }

  /** `MONTHS`, generated at load time for `now`. */
  function Months(today: Date): Dict<string, Window> {
    Windows(StartDate, today)
  }

  const ReportFile: string := "story-point-2-to-higher-report.txt"

  const DataFile: string := "story-point-2-to-higher-data.json"

  /** What `main` writes: the data, the month parts of the report, the
      comparison rows and their TOTAL row. */
  datatype Output = Output(
    stats: Dict<string, TwoStats>,
    report: seq<ReportEntry>,
    targets: seq<string>,
    rows: seq<ComparisonRow>,
    grandTotalIssues: nat,
    grandTotalChanges: nat,
    totalCells: seq<nat>,
    reportFile: string,
    dataFile: string)

  /** `main()` on `today`. */
  method Run(today: Date, fetch: LegacyFetcher) returns (out: Output)
    ensures out.stats == MonthlyStats(Months(today), fetch)
    ensures out.report == MonthReports(Months(today), fetch)
    ensures out.targets == SortedTargets(out.stats)
    ensures out.rows == Comparison(out.stats)
    ensures out.grandTotalIssues == SumOf(out.stats, EntryMeasure(RecordIssues))
    ensures out.grandTotalChanges == SumOf(out.stats, EntryMeasure(RecordChanges))
    ensures out.totalCells == Map(out.targets, CountIn(GrandByTarget(out.stats)))
    ensures out.reportFile == ReportFile && out.dataFile == DataFile
  {
    var months := GenerateMonths(StartDate, today);
    var stats, report := RunMonths(months, fetch);
    var targets := SortedTargets(stats);
    var rows := Map(stats, RowOf(targets));
    var issues := SumValues(stats, RecordIssues);
    var changes := SumValues(stats, RecordChanges);
    var grand := GrandTotalByTarget(stats);
    out := Output(stats, report, targets, rows, issues, changes, Map(targets, CountIn(grand)), ReportFile, DataFile);
  }

  // ----- Properties of the detector -----

  /** An item yields a change exactly when it is on the Story Points field,
      its `fromString` is `'2'` and its `toString` parses to more than 2. */
  lemma TwoItemChangeIff(key: string, h: History, item: ChangeItem)
    ensures TwoItemChange(key, h, item).Some?
      <==> item.fieldId == Some(StoryPointsId) && item.field == Some(StoryPointsName)
           && item.fromString == Some("2")
           && ParseOpt(item.toString).Some? && ParseOpt(item.toString).value > 2.0
  {
  }

  /** Every change has a key with the prefix, `from` exactly `'2'` and a `to`
      that parses to more than 2. */
  lemma TwoChangesSound(issues: seq<Issue>)
    ensures forall c :: c in TwoChanges(issues) ==>
      StartsWith(c.key, Prefix) && c.from == "2" && ParseFloat(c.to).Some? && ParseFloat(c.to).value > 2.0
  {
    var ok := (c: RawChange) => StartsWith(c.key, Prefix) && c.from == "2" && ParseFloat(c.to).Some? && ParseFloat(c.to).value > 2.0;
    forall key, h, item | StartsWith(key, Prefix) && TwoRule(key, h, item).Some?
      ensures ok(TwoRule(key, h, item).value)
    {
      assert TwoRule(key, h, item) == TwoItemChange(key, h, item);
    }
    ScanSound(issues, Prefix, TwoRule, ok);
  }

  /** `from === '2'` on a change record. */
  function FromTwo(c: RawChange): bool {
    c.from == "2"
  }

  lemma ParseWhole(n: nat, text: string)
    requires text == NatToString(n)
    ensures ParseFloat(text) == Some(n as real)
  {
    ParseNatToString(n);
  }

  lemma ParseTwo(from: Option<string>)
    requires from == Some("2")
    ensures ParseOpt(from) == Some(2.0)
  {
    assert NatToString(2) == "2";
    ParseWhole(2, from.value);
  }

  /** On one change item, this detector is the all-updates detector kept to
      a `from` of `'2'`: `'2'` parses to the base point 2, and a larger `to`
      is all that is left to ask. */
  lemma TwoRuleFiltered(key: string, h: History, item: ChangeItem)
    ensures TwoItemChange(key, h, item) == FilterOption(LegacyAllUpdates.RawItemChange(key, h, item), FromTwo)
  {
    if item.fromString == Some("2") {
      ParseTwo(item.fromString);
      SameSettings();
      assert 2 in BasePoints;
      assert IsBase(ParseOpt(item.fromString), BasePoints);
    }
  }

  /** The 2-to-higher changes are the all-updates changes whose `from` is the
      string `'2'`, in the same order. */
  lemma TwoIsAllUpdatesFromTwo(issues: seq<Issue>)
    ensures TwoChanges(issues) == Filter(LegacyAllUpdates.RawChanges(issues), FromTwo)
  {
    forall key, h, item ensures TwoRule(key, h, item) == FilterOption(LegacyAllUpdates.RawRule(key, h, item), FromTwo) {
      TwoRuleFiltered(key, h, item);
    }
    ScanFilter(issues, Prefix, TwoRule, LegacyAllUpdates.RawRule, FromTwo);
  }

  /** Any other text that parses to 2 (`'2.0'`, `'02'`, `' 2'`) is not the
      string `'2'`: the all-updates detector takes a change from it to a
      larger number, this one does not. */
  lemma OtherTwoTextsExcluded(key: string, h: History, from: string, to: string)
    requires ParseFloat(from) == Some(2.0) && from != "2"
    requires ParseFloat(to).Some? && ParseFloat(to).value > 2.0
    ensures var item := ChangeItem(Some(StoryPointsId), Some(StoryPointsName), Some(from), Some(to));
      TwoItemChange(key, h, item).None? && LegacyAllUpdates.RawItemChange(key, h, item).Some?
  {
    var item := ChangeItem(Some(StoryPointsId), Some(StoryPointsName), Some(from), Some(to));
    SameSettings();
    assert 2 in BasePoints;
    assert IsBase(ParseOpt(item.fromString), BasePoints);
  }

  // ----- Properties of the record -----

  /** `byTarget` holds each target once, counts every change once, and its
      count for a target is the number of changes to it; `keys` is the
      `{key, to}` projection of the changes, in order. */
  lemma RecordShape(name: string, issues: seq<Issue>)
    ensures var r := Record(name, issues);
      var changes := TwoChanges(issues);
      r.totalIssues == |issues| && r.totalChanges == |r.keys| == |changes|
      && Distinct(Keys(r.byTarget)) && Total(r.byTarget) == r.totalChanges
      && (forall t :: Count(r.byTarget, t) == multiset(Map(changes, RawTo))[t])
      && (forall i :: 0 <= i < |changes| ==> r.keys[i] == TargetKey(changes[i].key, changes[i].to))
  {
    var changes := TwoChanges(issues);
    var tos := Map(changes, RawTo);
    TallyKeys(tos);
    TallyTotal(tos);
    forall t ensures Count(Tally(tos), t) == multiset(tos)[t] {
      TallyCount(tos, t);
    }
  }

  // ----- Properties of `formatResults` -----

  /** "No changes found" is printed exactly when there are no changes, and
      then no target group is; the groups are in ascending numeric order of
      target, each holds its target's changes in order, and their sizes add up
      to the total. */
  lemma FormattingShape(monthName: string, totalIssues: nat, changes: seq<RawChange>)
    ensures var e := Formatting(monthName, totalIssues, changes);
      (e.noChanges <==> changes == []) && (e.groups == [] <==> changes == [])
      && e.total == |changes| && SumOf(e.groups, LegacyAllUpdates.GroupCount) == e.total
      && (forall i, j :: 0 <= i < j < |e.groups| ==>
            LegacyAllUpdates.TargetValue(e.groups[i].target) <= LegacyAllUpdates.TargetValue(e.groups[j].target))
      && forall g :: g in e.groups ==> g.changes == Select(Map(changes, LegacyAllUpdates.RawPair), g.target)
  {
    LegacyAllUpdates.GroupsCount(changes);
    LegacyAllUpdates.GroupsOrder(changes);
  }

  // ----- Properties of the month loop -----

  /** The grand totals add up the months whose fetch succeeded, and only those. */
  lemma TotalsCountSuccesses(today: Date, fetch: LegacyFetcher)
    ensures SumOf(MonthlyStats(Months(today), fetch), EntryMeasure(RecordIssues)) == SumOf(Months(today), Succeeded(Attempts(fetch), RecordIssues))
    ensures SumOf(MonthlyStats(Months(today), fetch), EntryMeasure(RecordChanges)) == SumOf(Months(today), Succeeded(Attempts(fetch), RecordChanges))
  {
    WindowsKeysDistinct(StartDate, today);
    CollectSum(Months(today), Attempts(fetch), RecordIssues);
    CollectSum(Months(today), Attempts(fetch), RecordChanges);
  }

  /** A month whose fetch failed is absent and gets the ERROR line; any other
      month is stored under its key with its own record. */
  lemma StoredMonths(today: Date, fetch: LegacyFetcher, i: nat)
    requires i < |Months(today)|
    ensures var (key, w) := Months(today)[i];
      match fetch(w.start, w.end) {
        case Err(m) => Get(MonthlyStats(Months(today), fetch), key) == None
          && MonthReports(Months(today), fetch)[i] == Failed(Monthly.ErrorLine(w.name, m))
        case Ok(issues) => Get(MonthlyStats(Months(today), fetch), key) == Some(Record(w.name, issues))
          && MonthReports(Months(today), fetch)[i] == Formatting(w.name, |issues|, TwoChanges(issues))
      }
  {
    WindowsKeysDistinct(StartDate, today);
    CollectAt(Months(today), Attempts(fetch), i);
  }

  // ----- Properties of the comparison -----

  lemma {:induction false} AllTargetKeysIn(stats: Dict<string, TwoStats>, t: string)
    ensures t in AllTargetKeys(stats) <==> exists i :: 0 <= i < |stats| && t in Keys(stats[i].1.byTarget)
    decreases |stats|
  {
    if stats != [] {
      var n := |stats| - 1;
      AllTargetKeysIn(stats[..n], t);
      if t in AllTargetKeys(stats[..n]) {
        var i :| 0 <= i < n && t in Keys(stats[..n][i].1.byTarget);
        assert stats[i] == stats[..n][i];
      }
      if exists i :: 0 <= i < |stats| && t in Keys(stats[i].1.byTarget) {
        var i :| 0 <= i < |stats| && t in Keys(stats[i].1.byTarget);
        if i < n {
          assert stats[..n][i] == stats[i];
        }
      }
    }
  }

  /** The comparison's targets are each target of some stored month, every
      such target once, in ascending numeric order. */
  lemma SortedTargetsSpec(stats: Dict<string, TwoStats>)
    ensures Distinct(SortedTargets(stats))
    ensures forall i, j :: 0 <= i < j < |SortedTargets(stats)| ==>
      LegacyAllUpdates.TargetValue(SortedTargets(stats)[i]) <= LegacyAllUpdates.TargetValue(SortedTargets(stats)[j])
    ensures forall t :: t in SortedTargets(stats) <==> exists i :: 0 <= i < |stats| && t in Keys(stats[i].1.byTarget)
  {
    var all := AllTargetKeys(stats);
    var ts := SortedTargets(stats);
    DedupSpec(all);
    SortByDistinct(Dedup(all), TargetOrder);
    SortBySorted(Dedup(all), TargetOrder);
    forall i, j | 0 <= i < j < |ts| ensures LegacyAllUpdates.TargetValue(ts[i]) <= LegacyAllUpdates.TargetValue(ts[j]) {
      assert KeyLe(TargetOrder(ts[i]), TargetOrder(ts[j]));
    }
    forall t ensures t in ts <==> exists i :: 0 <= i < |stats| && t in Keys(stats[i].1.byTarget) {
      AllTargetKeysIn(stats, t);
    }
  }

  /** The count of a target in `grandTotalByTarget` is the sum of the months'
      counts for it. */
  lemma {:induction false} GrandByTargetCount(stats: Dict<string, TwoStats>, t: string)
    requires forall i :: 0 <= i < |stats| ==> Distinct(Keys(stats[i].1.byTarget))
    ensures Count(GrandByTarget(stats), t) == SumOf(stats, EntryMeasure(TargetCount(t)))
    decreases |stats|
  {
    if stats != [] {
      var n := |stats| - 1;
      assert forall i :: 0 <= i < n ==> stats[..n][i] == stats[i];
      GrandByTargetCount(stats[..n], t);
      AddAllCount(GrandByTarget(stats[..n]), stats[n].1.byTarget, t);
    }
  }

  function TargetCount(t: string): TwoStats -> nat {
    (r: TwoStats) => Count(r.byTarget, t)
  }

  /** A record built by the script keeps each target once in `byTarget`. */
  predicate Tallied(r: TwoStats) {
    Distinct(Keys(r.byTarget)) && Total(r.byTarget) == r.totalChanges
  }

  /** Every row of the comparison lists a count for each target, and these
      add up to the month's number of changes. */
  lemma RowsAddUp(stats: Dict<string, TwoStats>)
    requires forall i :: 0 <= i < |stats| ==> Tallied(stats[i].1)
    ensures var rows := Comparison(stats);
      |rows| == |stats|
      && forall i :: 0 <= i < |rows| ==>
           rows[i].name == stats[i].1.name && |rows[i].cells| == |SortedTargets(stats)|
           && SumOf(rows[i].cells, NatValue) == rows[i].totalChanges == stats[i].1.totalChanges
  {
    var ts := SortedTargets(stats);
    forall i | 0 <= i < |stats| ensures SumOf(Map(ts, CountIn(stats[i].1.byTarget)), NatValue) == stats[i].1.totalChanges {
      RowAddsUp(stats, i);
    }
  }

  lemma RowAddsUp(stats: Dict<string, TwoStats>, i: nat)
    requires i < |stats| && Tallied(stats[i].1)
    ensures SumOf(Map(SortedTargets(stats), CountIn(stats[i].1.byTarget)), NatValue) == stats[i].1.totalChanges
  {
    var ts := SortedTargets(stats);
    var d := stats[i].1.byTarget;
    SortedTargetsSpec(stats);
    forall t | t in Keys(d) ensures t in ts {
      assert t in Keys(stats[i].1.byTarget);
    }
    SumCounts(ts, d);
    SumOfPointwise(Map(ts, CountIn(d)), NatValue, ts, CountIn(d));
  }

  /** The TOTAL row's target cells add up to the grand total of changes. */
  lemma TotalRowAddsUp(stats: Dict<string, TwoStats>)
    requires forall i :: 0 <= i < |stats| ==> Tallied(stats[i].1)
    ensures SumOf(Map(SortedTargets(stats), CountIn(GrandByTarget(stats))), NatValue)
      == SumOf(stats, EntryMeasure(RecordChanges))
  {
    var ts := SortedTargets(stats);
    var grand := GrandByTarget(stats);
    SortedTargetsSpec(stats);
    GrandKeys(stats);
    forall t | t in Keys(grand) ensures t in ts {
      var i :| 0 <= i < |stats| && t in Keys(stats[i].1.byTarget);
    }
    GrandTotal(stats);
    SumCounts(ts, grand);
    SumOfPointwise(Map(ts, CountIn(grand)), NatValue, ts, CountIn(grand));
  }

  /** `grandTotalByTarget` holds each target once, and only targets some month has. */
  lemma {:induction false} GrandKeys(stats: Dict<string, TwoStats>)
    ensures Distinct(Keys(GrandByTarget(stats)))
    ensures forall t :: t in Keys(GrandByTarget(stats)) ==> exists i :: 0 <= i < |stats| && t in Keys(stats[i].1.byTarget)
    decreases |stats|
  {
    if stats != [] {
      var n := |stats| - 1;
      GrandKeys(stats[..n]);
      AddAllKeys(GrandByTarget(stats[..n]), stats[n].1.byTarget);
      forall t | t in Keys(GrandByTarget(stats)) ensures exists i :: 0 <= i < |stats| && t in Keys(stats[i].1.byTarget) {
        if t in Keys(GrandByTarget(stats[..n])) {
          var i :| 0 <= i < n && t in Keys(stats[..n][i].1.byTarget);
          assert stats[i] == stats[..n][i];
        } else {
          assert t in Keys(stats[n].1.byTarget);
        }
      }
    }
  }

  /** The grand table counts every change of every month once. */
  lemma {:induction false} GrandTotal(stats: Dict<string, TwoStats>)
    requires forall i :: 0 <= i < |stats| ==> Tallied(stats[i].1)
    ensures Total(GrandByTarget(stats)) == SumOf(stats, EntryMeasure(RecordChanges))
    decreases |stats|
  {
    if stats != [] {
      var n := |stats| - 1;
      assert forall i :: 0 <= i < n ==> stats[..n][i] == stats[i];
      GrandTotal(stats[..n]);
      AddAllTotal(GrandByTarget(stats[..n]), stats[n].1.byTarget);
      assert Tallied(stats[n].1);
      var e := stats[n];
      assert EntryMeasure(RecordChanges)(e) == RecordChanges(e.1);
      assert SumOf(stats, EntryMeasure(RecordChanges)) == SumOf(stats[..n], EntryMeasure(RecordChanges)) + RecordChanges(e.1);
    }
  }

  /** Every record the month loop stores is one the script built. */
  lemma StoredRecordsTallied(today: Date, fetch: LegacyFetcher)
    ensures var stats := MonthlyStats(Months(today), fetch);
      forall i :: 0 <= i < |stats| ==> Tallied(stats[i].1)
  {
    var months := Months(today);
    var ok := (r: TwoStats) => Tallied(r);
    forall w | Attempts(fetch)(w).Ok? ensures ok(Attempts(fetch)(w).value) {
      var issues := fetch(w.start, w.end).value;
      RecordShape(w.name, issues);
    }
    CollectSound(months, Attempts(fetch), ok);
  }
}
