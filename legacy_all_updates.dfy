/** legacy/script-all-updates.js: the Story Points run over every month from
    2025-03-01 through today, for the bases 1, 2, 3 and 5.  Unlike the later
    analyzer, the changes it stores keep `from` and `to` as the item's
    strings, its per-base tables are keyed by those strings, and each change
    also carries the history's date and author. */
module LegacyAllUpdates {
  import opened Common
  import opened Dicts
  import opened Numbers
  import opened Sorting
  import opened DateUtils
  import opened Config
  import opened Jira
  import opened ChangeScan
  import opened Analyzer
  import opened MonthRuns
  import opened LegacyChanges
  import Monthly

  // ----- `analyzeStoryPointChanges` -----

  /** The test of one change item: the Story Points field, a `from` that
      parses to a base point and a `to` that parses to a larger number. */
  function RawItemChange(key: string, h: History, item: ChangeItem): (r: Option<RawChange>)
    ensures r.Some? ==> item.fieldId == Some(StoryPointsId) && item.field == Some(StoryPointsName)
    ensures r.Some? ==> item.fromString == Some(r.value.from) && item.toString == Some(r.value.to)
    ensures r.Some? ==> r.value.key == key && r.value.created == h.created && r.value.author == Author(h)
    ensures r.Some? ==>
      IsBase(ParseFloat(r.value.from), BasePoints)
      && ParseFloat(r.value.to).Some? && ParseFloat(r.value.to).value > ParseFloat(r.value.from).value
  {
    if item.fieldId == Some(StoryPointsId) && item.field == Some(StoryPointsName) then
      var fromValue := ParseOpt(item.fromString);
      var toValue := ParseOpt(item.toString);
      if IsBase(fromValue, BasePoints) && toValue.Some? && toValue.value > fromValue.value then
        Some(RawChange(key, item.fromString.value, item.toString.value, h.created, Author(h)))
      else None
    else None
  }

  const RawRule: Rule<RawChange> := (key: string, h: History, item: ChangeItem) => RawItemChange(key, h, item)

  /** What `analyzeStoryPointChanges(issues)` returns. */
  function RawChanges(issues: seq<Issue>): seq<RawChange> {
    Scan(issues, Prefix, RawRule)
  }

  /** `analyzeStoryPointChanges(issues)` */
  method AnalyzeStoryPointChanges(issues: seq<Issue>) returns (changes: seq<RawChange>)
    ensures changes == RawChanges(issues)
  {
    changes := ScanChanges(issues, Prefix, RawRule);
  }

  /** `analyzeStoryPointDistribution(issues)`: the same buckets as the
      analyzer's, on the Story Points field. */
  method AnalyzeStoryPointDistribution(issues: seq<Issue>) returns (distribution: Dict<string, nat>)
    ensures distribution == Distribution(issues, StoryPointsId)
  {
    distribution := [];
    var i := 0;
    while i < |issues|
      invariant i <= |issues|
      invariant distribution == Distribution(issues[..i], StoryPointsId)
    {
      BucketsStep(issues, StoryPointsId, i);
      distribution := AddTo(distribution, Bucket(StoryPointsId, issues[i]), 1);
      i := i + 1;
    }
    assert issues[..i] == issues;
  }

  // ----- `byBaseAndTarget` -----

  /** `c => parseFloat(c.from) === base` */
  function RawFromIs(base: nat): RawChange -> bool {
    (c: RawChange) => ParseFloat(c.from) == Some(base as real)
  }

  /** The table of one base: a count per `to` string. */
  function RawTargetCounts(changes: seq<RawChange>, base: nat): Dict<string, nat> {
    Tally(Map(Filter(changes, RawFromIs(base)), RawTo))
  }

  function RawEntry(changes: seq<RawChange>): nat -> (nat, Dict<string, nat>) {
    (b: nat) => (b, RawTargetCounts(changes, b))
  }

  /** `byBaseAndTarget`: one table per base, in `BASE_POINTS` order. */
  function RawTable(changes: seq<RawChange>): Dict<nat, Dict<string, nat>> {
    Map(BasePoints, RawEntry(changes))
  }

  /** The `BASE_POINTS.reduce` that sets `acc[base]` to the base's tally. */
  method GroupByBaseAndTarget(changes: seq<RawChange>) returns (acc: Dict<nat, Dict<string, nat>>)
    ensures acc == RawTable(changes)
  {
    var basePoints := BasePoints;
    assert Distinct(basePoints) by {
      SameSettings();
    }
    acc := [];
    var i := 0;
    while i < |basePoints|
      invariant i <= |basePoints|
      invariant acc == Map(basePoints[..i], RawEntry(changes))
    {
      var base := basePoints[i];
      var inner := CountTargets(changes, base);
      TableStep(basePoints, changes, i, acc);
      acc := Put(acc, base, inner);
      i := i + 1;
    }
    assert basePoints[..i] == basePoints;
  }

  /** The inner `reduce`: count the changes from `base` by their `to`. */
  method CountTargets(changes: seq<RawChange>, base: nat) returns (inner: Dict<string, nat>)
    ensures inner == RawTargetCounts(changes, base)
  {
    inner := TallyWhere(changes, RawFromIs(base), RawTo);
  }

  lemma TableStep(basePoints: seq<nat>, changes: seq<RawChange>, i: nat, acc: Dict<nat, Dict<string, nat>>)
    requires Distinct(basePoints) && i < |basePoints|
    requires acc == Map(basePoints[..i], RawEntry(changes))
    ensures Put(acc, basePoints[i], RawTargetCounts(changes, basePoints[i])) == Map(basePoints[..i + 1], RawEntry(changes))
  {
    var e := (basePoints[i], RawTargetCounts(changes, basePoints[i]));
    assert Keys(acc) == basePoints[..i];
    assert basePoints[i] !in Keys(acc);
    GetSnocPut(acc, e);
    assert basePoints[..i + 1] == basePoints[..i] + [basePoints[i]];
    MapSnoc(basePoints[..i], basePoints[i], RawEntry(changes));
  }

  lemma GetSnocPut<K, V>(d: Dict<K, V>, e: (K, V))
    requires e.0 !in Keys(d)
    ensures Put(d, e.0, e.1) == d + [e]
  {
  }

  // ----- The record -----

  /** `{key, from, to}` */
  datatype KeyEntry = KeyEntry(key: string, from: string, to: string)

  function KeyOf(c: RawChange): KeyEntry {
    KeyEntry(c.key, c.from, c.to)
  }

  /** One value of `monthlyStats`. */
  datatype RawStats = RawStats(
    name: string,
    totalIssues: nat,
    totalChanges: nat,
    byBaseAndTarget: Dict<nat, Dict<string, nat>>,
    distribution: Dict<string, nat>,
    keys: seq<KeyEntry>)

  /** The record stored for a month whose issues were fetched. */
  function Record(name: string, issues: seq<Issue>): RawStats {
    var changes := RawChanges(issues);
    RawStats(name, |issues|, |changes|, RawTable(changes), Distribution(issues, StoryPointsId), Map(changes, KeyOf))
  }

  // ----- `formatResults` -----

  /** `  base → target (n changes)` and the changes listed under it. */
  datatype TargetGroup = TargetGroup(target: string, changes: seq<RawChange>)

  /** `--- Changes from base ---` and its target groups. */
  datatype BaseSection = BaseSection(base: nat, targets: seq<TargetGroup>)

  /** What one month adds to the report: the `formatResults` text, or the ERROR line. */
  datatype ReportEntry =
    | Formatted(name: string, totalIssues: nat, sections: seq<BaseSection>, noChanges: bool, total: nat)
    | Failed(line: string)

  function RawPair(c: RawChange): (string, RawChange) {
    (c.to, c)
  }

  /** `parseFloat(target)`. The 0 default is never reached: every stored `to`
      parses (RawItemChangeIff). JavaScript would compare such a label as NaN. */
  function TargetValue(target: string): real {
    ParseFloat(target).GetOr(0.0)
  }

  /** `(a, b) => parseFloat(a) - parseFloat(b)` */
  function NumericKey(e: (string, seq<RawChange>)): SortKey {
    SortKey(TargetValue(e.0), 0.0, 0.0)
  }

  function Group(e: (string, seq<RawChange>)): TargetGroup {
    TargetGroup(e.0, e.1)
  }

  function GroupCount(g: TargetGroup): nat {
    |g.changes|
  }

  /** The changes of one base grouped by their `to` (`groupedByBase[base]`),
      with the targets in ascending numeric order. */
  function GroupsOf(selected: seq<RawChange>): seq<TargetGroup> {
    Map(SortBy(GroupBy(Map(selected, RawPair)), NumericKey), Group)
  }

  /** The target groups of each base. */
  function BaseTargets(changes: seq<RawChange>): nat -> seq<TargetGroup> {
    (b: nat) => GroupsOf(Filter(changes, RawFromIs(b)))
  }

  /** The section of one base, printed only when it has a target. */
  function SectionFor(targetsOf: nat -> seq<TargetGroup>, base: nat): seq<BaseSection> {
    if |targetsOf(base)| > 0 then [BaseSection(base, targetsOf(base))] else []
  }

  function Sections(targetsOf: nat -> seq<TargetGroup>, basePoints: seq<nat>): seq<BaseSection>
    decreases |basePoints|
  {
    if basePoints == [] then []
    else
      var n := |basePoints| - 1;
      Sections(targetsOf, basePoints[..n]) + SectionFor(targetsOf, basePoints[n])
  }

  /** What `formatResults(monthName, totalIssues, changes)` prints.  The
      summary repeats the sections' bases and counts, so it is not kept apart. */
  function Formatting(monthName: string, totalIssues: nat, changes: seq<RawChange>): ReportEntry {
    Formatted(monthName, totalIssues, Sections(BaseTargets(changes), BasePoints), |changes| == 0, |changes|)
  }

  /** `formatResults` */
  method FormatResults(monthName: string, totalIssues: nat, changes: seq<RawChange>) returns (entry: ReportEntry)
    ensures entry == Formatting(monthName, totalIssues, changes)
  {
    var sections := FormatSections(BaseTargets(changes), BasePoints);
    entry := Formatted(monthName, totalIssues, sections, |changes| == 0, |changes|);
  }

  /** The `BASE_POINTS.forEach` that prints a section per base with a target. */
  method FormatSections(targetsOf: nat -> seq<TargetGroup>, basePoints: seq<nat>) returns (sections: seq<BaseSection>)
    ensures sections == Sections(targetsOf, basePoints)
  {
    sections := [];
    var i := 0;
    while i < |basePoints|
      invariant i <= |basePoints|
      invariant sections == Sections(targetsOf, basePoints[..i])
    {
      var base := basePoints[i];
      var targets := targetsOf(base);
      assert basePoints[..i + 1][..i] == basePoints[..i];
      if |targets| > 0 {
        sections := sections + [BaseSection(base, targets)];
      }
      i := i + 1;
    }
    assert basePoints[..i] == basePoints;
  }

  // ----- The month loop -----

  /** The body of the `try` block for one window. */
  function Attempt(w: Window, fetch: LegacyFetcher): Result<RawStats> {
    match fetch(w.start, w.end)
    case Err(m) => Err(m)
    case Ok(issues) => Ok(Record(w.name, issues))
  }

  function Attempts(fetch: LegacyFetcher): Window -> Result<RawStats> {
    (w: Window) => Attempt(w, fetch)
  }

  /** `monthlyStats` after the given months. */
  function MonthlyStats(months: Dict<string, Window>, fetch: LegacyFetcher): Dict<string, RawStats> {
    Collect(months, Attempts(fetch))
  }

  function MonthReport(w: Window, fetch: LegacyFetcher): ReportEntry {
    match fetch(w.start, w.end)
    case Err(m) => Failed(Monthly.ErrorLine(w.name, m))
    case Ok(issues) => Formatting(w.name, |issues|, RawChanges(issues))
  }

  function ReportOf(fetch: LegacyFetcher): ((string, Window)) -> ReportEntry {
    (m: (string, Window)) => MonthReport(m.1, fetch)
  }

  /** The month parts of `fullOutput`: one per month, in month order. */
  function MonthReports(months: Dict<string, Window>, fetch: LegacyFetcher): seq<ReportEntry> {
    Map(months, ReportOf(fetch))
  }

  /** The body of the loop for one month: the record to store, and what the
      month adds to the report. */
  method ProcessMonth(w: Window, fetch: LegacyFetcher) returns (r: Result<RawStats>, entry: ReportEntry)
    ensures r == Attempt(w, fetch) && entry == MonthReport(w, fetch)
  {
    var fetched := fetch(w.start, w.end);
    if fetched.Err? {
      r := Err(fetched.message);
      entry := Failed(Monthly.ErrorLine(w.name, fetched.message));
    } else {
      var issues := fetched.value;
      var changes := AnalyzeStoryPointChanges(issues);
      var distribution := AnalyzeStoryPointDistribution(issues);
      var byBaseAndTarget := GroupByBaseAndTarget(changes);
      r := Ok(RawStats(w.name, |issues|, |changes|, byBaseAndTarget, distribution, Map(changes, KeyOf)));
      entry := FormatResults(w.name, |issues|, changes);
    }
  }

  /** The `for (const [monthKey, monthData] of Object.entries(MONTHS))` loop. */
  method RunMonths(months: Dict<string, Window>, fetch: LegacyFetcher) returns (stats: Dict<string, RawStats>, report: seq<ReportEntry>)
    ensures stats == MonthlyStats(months, fetch)
    ensures report == MonthReports(months, fetch)
  {
    stats := [];
    report := [];
    var i := 0;
    while i < |months|
      invariant i <= |months|
      invariant stats == MonthlyStats(months[..i], fetch)
      invariant report == MonthReports(months[..i], fetch)
    {
      var (monthKey, monthData) := months[i];
      var r, entry := ProcessMonth(monthData, fetch);
      RunStep(months, Attempts(fetch), ReportOf(fetch), i, stats, report, r, entry);
      if r.Ok? {
        stats := Put(stats, monthKey, r.value);
      }
      report := report + [entry];
      i := i + 1;
    }
    assert months[..i] == months;
  }

  function RecordIssues(r: RawStats): nat {
    r.totalIssues
  }

  function RecordChanges(r: RawStats): nat {
    r.totalChanges
  }

  /** `MONTHS`, generated at load time for `now`. */
  function Months(today: Date): Dict<string, Window> {
    Windows(StartDate, today)
  }

  const DataFile: string := "story-point-all-updates-data.json"

  const ReportFile: string := "story-point-all-updates-report.txt"

  /** What `main` writes (the data and the month parts of the report) and the
      grand totals it prints. */
  datatype Output = Output(
    stats: Dict<string, RawStats>,
    report: seq<ReportEntry>,
    grandTotalIssues: nat,
    grandTotalChanges: nat,
    dataFile: string,
    reportFile: string)

  /** `main()` on `today`. */
  method Run(today: Date, fetch: LegacyFetcher) returns (out: Output)
    ensures out.stats == MonthlyStats(Months(today), fetch)
    ensures out.report == MonthReports(Months(today), fetch)
    ensures out.grandTotalIssues == SumOf(out.stats, EntryMeasure(RecordIssues))
    ensures out.grandTotalChanges == SumOf(out.stats, EntryMeasure(RecordChanges))
    ensures out.dataFile == DataFile && out.reportFile == ReportFile
  {
    var months := GenerateMonths(StartDate, today);
    var stats, report := RunMonths(months, fetch);
    var issues := SumValues(stats, RecordIssues);
    var changes := SumValues(stats, RecordChanges);
    out := Output(stats, report, issues, changes, DataFile, ReportFile);
  }

  // ----- Properties of the detector -----

  /** An item yields a change exactly when it is on the Story Points field,
      its `from` parses to one of 1, 2, 3, 5 and its `to` to a larger number. */
  lemma RawItemChangeIff(key: string, h: History, item: ChangeItem)
    ensures RawItemChange(key, h, item).Some?
      <==> item.fieldId == Some(StoryPointsId) && item.field == Some(StoryPointsName)
           && IsBase(ParseOpt(item.fromString), BasePoints)
           && ParseOpt(item.toString).Some? && ParseOpt(item.toString).value > ParseOpt(item.fromString).value
  {
  }

  /** `{key, from, to}` with `from` and `to` parsed. */
  function Parsed(c: RawChange): Change {
    Change(c.key, ParseFloat(c.from).GetOr(0.0), ParseFloat(c.to).GetOr(0.0))
  }

  /** The raw detector finds the same changes as the analyzer in `dev` mode on
      the bases 1, 2, 3 and 5: parsing its strings gives the analyzer's result. */
  lemma RawMatchesModern(issues: seq<Issue>)
    ensures Map(RawChanges(issues), Parsed) == EffortChanges(issues, BasePoints, Dev)
  {
    SameSettings();
    var modern := EffortRule(Dev, BasePoints);
    forall key, h, item ensures modern(key, h, item) == MapOption(RawRule(key, h, item), Parsed) {
      assert modern(key, h, item) == ItemChange(StoryPointsId, StoryPointsName, BasePoints, key, item);
      assert RawRule(key, h, item) == RawItemChange(key, h, item);
    }
    ScanMap(issues, Prefix, RawRule, modern, Parsed);
  }

  /** Every change has a key with the prefix, a `from` that parses to a base
      and a `to` that parses to a larger number. */
  lemma RawChangesSound(issues: seq<Issue>)
    ensures forall c :: c in RawChanges(issues) ==>
      StartsWith(c.key, Prefix) && IsBase(ParseFloat(c.from), BasePoints)
      && ParseFloat(c.to).Some? && ParseFloat(c.to).value > ParseFloat(c.from).value
  {
    var ok := (c: RawChange) => StartsWith(c.key, Prefix) && IsBase(ParseFloat(c.from), BasePoints)
      && ParseFloat(c.to).Some? && ParseFloat(c.to).value > ParseFloat(c.from).value;
    forall key, h, item | StartsWith(key, Prefix) && RawRule(key, h, item).Some?
      ensures ok(RawRule(key, h, item).value)
    {
      assert RawRule(key, h, item) == RawItemChange(key, h, item);
    }
    ScanSound(issues, Prefix, RawRule, ok);
  }

  // ----- Properties of the record -----

  function RawBaseTotal(e: (nat, Dict<string, nat>)): nat {
    Total(e.1)
  }

  function RawCount(changes: seq<RawChange>): nat -> nat {
    (b: nat) => |Filter(changes, RawFromIs(b))|
  }

  /** The table has the four bases as keys, in order, each possibly empty. */
  lemma RawTableKeys(changes: seq<RawChange>)
    ensures Keys(RawTable(changes)) == BasePoints
  {
  }

  lemma RawTableCounts(changes: seq<RawChange>)
    ensures SumOf(RawTable(changes), RawBaseTotal) == SumOf(BasePoints, RawCount(changes))
  {
    var t := RawTable(changes);
    forall i | 0 <= i < |t| ensures RawBaseTotal(t[i]) == RawCount(changes)(BasePoints[i]) {
      TallyTotal(Map(Filter(changes, RawFromIs(BasePoints[i])), RawTo));
    }
    SumOfPointwise(t, RawBaseTotal, BasePoints, RawCount(changes));
  }

  /** Every change's `from` is a base, so the table counts every change once. */
  lemma RawTableTotal(issues: seq<Issue>)
    ensures SumOf(RawTable(RawChanges(issues)), RawBaseTotal) == |RawChanges(issues)|
  {
    var raw := RawChanges(issues);
    var modern := EffortChanges(issues, BasePoints, Dev);
    RawMatchesModern(issues);
    RawChangesSound(issues);
    RawTableCounts(raw);
    forall i | 0 <= i < |BasePoints| ensures RawCount(raw)(BasePoints[i]) == ChangesFrom(modern)(BasePoints[i]) {
      var b := BasePoints[i];
      forall k | 0 <= k < |raw| ensures RawFromIs(b)(raw[k]) == FromIs(b)(Parsed(raw[k])) {
        assert raw[k] in raw;
      }
      FilterMapCount(raw, RawFromIs(b), Parsed, FromIs(b));
    }
    SumOfPointwise(BasePoints, RawCount(raw), BasePoints, ChangesFrom(modern));
    SameSettings();
    ChangesFromTotal(modern, BasePoints);
    EffortChangesSound(issues, BasePoints, Dev);
    FilterAll(modern, FromAnyOf(BasePoints));
  }

  /** A record's change count is its number of keys, the table holds every
      base and counts every change, the distribution counts every issue, and
      each key entry is a qualifying change. */
  lemma RecordShape(name: string, issues: seq<Issue>)
    ensures var r := Record(name, issues);
      r.totalIssues == |issues| && r.totalChanges == |r.keys|
      && Keys(r.byBaseAndTarget) == BasePoints
      && SumOf(r.byBaseAndTarget, RawBaseTotal) == r.totalChanges
      && Total(r.distribution) == r.totalIssues
      && forall k :: k in r.keys ==> StartsWith(k.key, Prefix) && IsBase(ParseFloat(k.from), BasePoints)
  {
    var r := Record(name, issues);
    var raw := RawChanges(issues);
    RawTableKeys(raw);
    RawTableTotal(issues);
    DistributionTotal(issues, StoryPointsId);
    RawChangesSound(issues);
    forall k | k in r.keys ensures StartsWith(k.key, Prefix) && IsBase(ParseFloat(k.from), BasePoints) {
      var i :| 0 <= i < |r.keys| && r.keys[i] == k;
      assert raw[i] in raw;
    }
  }

  // ----- Properties of `formatResults` -----

  function SectionBase(s: BaseSection): nat {
    s.base
  }

  /** `sortedTargets.length > 0` */
  function HasTargets(targetsOf: nat -> seq<TargetGroup>): nat -> bool {
    (b: nat) => |targetsOf(b)| > 0
  }

  /** `base => groupedByBase[base]` has a change. */
  function HasChangesFrom(changes: seq<RawChange>): nat -> bool {
    (b: nat) => |Filter(changes, RawFromIs(b))| > 0
  }

  /** A base has target groups exactly when it has a change, and the groups'
      sizes add up to its number of changes. */
  lemma GroupsCount(selected: seq<RawChange>)
    ensures SumOf(GroupsOf(selected), GroupCount) == |selected|
    ensures |GroupsOf(selected)| > 0 <==> |selected| > 0
  {
    MappedGroupsCount(Map(selected, RawPair), NumericKey, Group, GroupCount);
  }

  /** The targets are in ascending numeric order, and each group holds the
      changes to its target in their original order. */
  lemma GroupsOrder(selected: seq<RawChange>)
    ensures var gs := GroupsOf(selected);
      forall i, j :: 0 <= i < j < |gs| ==> TargetValue(gs[i].target) <= TargetValue(gs[j].target)
    ensures forall g :: g in GroupsOf(selected) ==> g.changes == Select(Map(selected, RawPair), g.target)
  {
    GroupsAscending(selected);
    GroupsSelect(selected);
  }

  lemma GroupsAscending(selected: seq<RawChange>)
    ensures var gs := GroupsOf(selected);
      forall i, j :: 0 <= i < j < |gs| ==> TargetValue(gs[i].target) <= TargetValue(gs[j].target)
  {
    var items := Map(selected, RawPair);
    var sorted := SortBy(GroupBy(items), NumericKey);
    var gs := GroupsOf(selected);
    SortedGroups(items, NumericKey);
    forall i, j | 0 <= i < j < |gs| ensures TargetValue(gs[i].target) <= TargetValue(gs[j].target) {
      assert KeyLe(NumericKey(sorted[i]), NumericKey(sorted[j]));
      assert gs[i].target == sorted[i].0 && gs[j].target == sorted[j].0;
    }
  }

  lemma GroupsSelect(selected: seq<RawChange>)
    ensures forall g :: g in GroupsOf(selected) ==> g.changes == Select(Map(selected, RawPair), g.target)
  {
    var items := Map(selected, RawPair);
    var sorted := SortBy(GroupBy(items), NumericKey);
    var gs := GroupsOf(selected);
    SortedGroupsContent(items, NumericKey);
    forall g | g in gs ensures g.changes == Select(items, g.target) {
      var i :| 0 <= i < |gs| && gs[i] == g;
      assert sorted[i] in sorted;
    }
  }

  /** Sections appear for exactly the bases with a target, in base order. */
  lemma {:induction false} SectionBases(targetsOf: nat -> seq<TargetGroup>, basePoints: seq<nat>)
    ensures Map(Sections(targetsOf, basePoints), SectionBase) == Filter(basePoints, HasTargets(targetsOf))
    decreases |basePoints|
  {
    if basePoints != [] {
      var n := |basePoints| - 1;
      SectionBases(targetsOf, basePoints[..n]);
      MapAppend(Sections(targetsOf, basePoints[..n]), SectionFor(targetsOf, basePoints[n]), SectionBase);
    }
  }

  /** Each section is a base of the list with its own, non-empty, groups. */
  lemma {:induction false} SectionContent(targetsOf: nat -> seq<TargetGroup>, basePoints: seq<nat>)
    ensures forall s :: s in Sections(targetsOf, basePoints) ==>
      s.base in basePoints && s.targets == targetsOf(s.base) && |s.targets| > 0
    decreases |basePoints|
  {
    if basePoints != [] {
      var n := |basePoints| - 1;
      var prev := Sections(targetsOf, basePoints[..n]);
      SectionContent(targetsOf, basePoints[..n]);
      forall s: BaseSection | s in prev ensures s.base in basePoints {
        assert s.base in basePoints[..n];
      }
    }
  }

  /** In a month's report, the sections are those of the bases 1, 2, 3, 5 that
      some change starts from, in that order, and each lists that base's
      changes grouped by target, every one of them once. */
  lemma FormattedSections(monthName: string, totalIssues: nat, changes: seq<RawChange>)
    ensures var e := Formatting(monthName, totalIssues, changes);
      Map(e.sections, SectionBase) == Filter(BasePoints, HasChangesFrom(changes))
      && forall s :: s in e.sections ==>
           s.base in BasePoints
           && s.targets == GroupsOf(Filter(changes, RawFromIs(s.base)))
           && SumOf(s.targets, GroupCount) == |Filter(changes, RawFromIs(s.base))| > 0
  {
    var targetsOf := BaseTargets(changes);
    SectionBases(targetsOf, BasePoints);
    SectionContent(targetsOf, BasePoints);
    forall b ensures HasTargets(targetsOf)(b) == HasChangesFrom(changes)(b) {
      GroupsCount(Filter(changes, RawFromIs(b)));
    }
    FilterSame(BasePoints, HasTargets(targetsOf), HasChangesFrom(changes));
    forall s | s in Sections(targetsOf, BasePoints)
      ensures SumOf(s.targets, GroupCount) == |Filter(changes, RawFromIs(s.base))| > 0
    {
      GroupsCount(Filter(changes, RawFromIs(s.base)));
    }
  }

  /** "No changes found" is printed exactly when there are no changes, and
      then no base section is. */
  lemma NoChangesFound(monthName: string, totalIssues: nat, changes: seq<RawChange>)
    ensures var e := Formatting(monthName, totalIssues, changes);
      (e.noChanges <==> changes == []) && e.total == |changes|
      && (changes == [] ==> e.sections == [])
  {
    if changes == [] {
      FormattedSections(monthName, totalIssues, changes);
      FilterNone(BasePoints, HasChangesFrom(changes));
    }
  }

  // ----- Properties of the month loop -----

  /** The grand totals add up the months whose fetch succeeded, and only those. */
  lemma TotalsCountSuccesses(today: Date, fetch: LegacyFetcher)
    ensures SumOf(MonthlyStats(Months(today), fetch), EntryMeasure(RecordIssues)) == SumOf(Months(today), Succeeded(Attempts(fetch), RecordIssues))
    ensures SumOf(MonthlyStats(Months(today), fetch), EntryMeasure(RecordChanges)) == SumOf(Months(today), Succeeded(Attempts(fetch), RecordChanges))
  {
    WindowsKeysDistinct(StartDate, today);
    CollectSum(Months(today), Attempts(fetch), RecordIssues);
    CollectSum(Months(today), Attempts(fetch), RecordChanges);
  }

  /** A month whose fetch failed is absent and gets the ERROR line; any other
      month is stored under its key with its own record. */
  lemma StoredMonths(today: Date, fetch: LegacyFetcher, i: nat)
    requires i < |Months(today)|
    ensures var (key, w) := Months(today)[i];
      match fetch(w.start, w.end) {
        case Err(m) => Get(MonthlyStats(Months(today), fetch), key) == None
          && MonthReports(Months(today), fetch)[i] == Failed(Monthly.ErrorLine(w.name, m))
        case Ok(issues) => Get(MonthlyStats(Months(today), fetch), key) == Some(Record(w.name, issues))
          && MonthReports(Months(today), fetch)[i] == Formatting(w.name, |issues|, RawChanges(issues))
      }
  {
    WindowsKeysDistinct(StartDate, today);
    CollectAt(Months(today), Attempts(fetch), i);
  }
}
