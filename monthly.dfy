/** The month-by-month run shared by src/analyze-all.js and
    src/analyze-all-qa.js: for each window of `generateMonths`, in order, fetch
    the window's issues, analyse them, store one record under the month key and
    append the month's section to the report; a month whose fetch or analysis
    throws gets an ERROR line instead of a record.  The fetch is a given
    function of the window and the mode; the report is modelled by its
    structure, not its prose. */
module Monthly {
  import opened Common
  import opened Dicts
  import opened Sorting
  import opened DateUtils
  import opened Config
  import opened Jira
  import opened Analyzer
  import opened MonthRuns

  /** One value of `monthlyStats`. `keys` is the `{key, from, to}` projection of
      the changes, which is the changes themselves. */
  datatype MonthStats = MonthStats(
    name: string,
    totalIssues: nat,
    totalChanges: nat,
    byBaseAndTarget: Dict<nat, Dict<real, nat>>,
    distribution: Dict<string, nat>,
    keys: seq<Change>)

  /** `jiraService.fetchAllPages(start, end, mode)`: the issues, or the message thrown. */
  type Fetcher = (string, string, string) -> Result<seq<Issue>>

  /** The record stored for a month whose issues were fetched. */
  function MonthRecord(name: string, issues: seq<Issue>, cfg: ModeConfig, basePoints: seq<nat>): MonthStats {
    var changes := EffortChanges(issues, basePoints, cfg);
    MonthStats(name, |issues|, |changes|, ByBaseAndTarget(changes, AnalysisBasePoints),
      Distribution(issues, cfg.customFieldId), changes)
  }

  /** The body of the `try` block for one window: the record, or the message
      of whatever threw (the fetch, or the analyzer on an unknown mode). */
  function Attempt(w: Window, fetch: Fetcher, mode: string, basePoints: seq<nat>): Result<MonthStats> {
    match fetch(w.start, w.end, mode)
    case Err(m) => Err(m)
    case Ok(issues) =>
      match LookupMode(mode)
      case Err(m) => Err(m)
      case Ok(cfg) => Ok(MonthRecord(w.name, issues, cfg, basePoints))
  }

  function Attempts(fetch: Fetcher, mode: string, basePoints: seq<nat>): Window -> Result<MonthStats> {
    (w: Window) => Attempt(w, fetch, mode, basePoints)
  }

  /** `monthlyStats` after the given months. */
  function MonthlyStats(months: Dict<string, Window>, fetch: Fetcher, mode: string, basePoints: seq<nat>): Dict<string, MonthStats> {
    Collect(months, Attempts(fetch, mode, basePoints))
  }

  // ----- `formatResults` -----

  /** `  base → target: n changes` and its `Keys:` line. */
  datatype TargetLine = TargetLine(target: real, keys: seq<string>)

  /** `From base points (n changes):` and its target lines. */
  datatype BaseSection = BaseSection(base: nat, count: nat, targets: seq<TargetLine>)

  /** What one month adds to the report: the `formatResults` text, or the ERROR line. */
  datatype ReportEntry =
    | Formatted(name: string, issueCount: nat, heading: string, changeCount: nat, sections: seq<BaseSection>)
    | Failed(line: string)

  function KeyPair(c: Change): (real, seq<char>) {
    (c.to, c.key)
  }

  /** `byTarget`: the keys of a base's changes grouped by target, in order. */
  function KeysByTarget(baseChanges: seq<Change>): Dict<real, seq<string>> {
    GroupBy(Map(baseChanges, KeyPair))
  }

  /** `(a, b) => parseFloat(a) - parseFloat(b)` on the targets. */
  function TargetKey(e: (real, seq<string>)): SortKey {
    SortKey(e.0, 0.0, 0.0)
  }

  function Line(e: (real, seq<string>)): TargetLine {
    TargetLine(e.0, e.1)
  }

  /** The target lines of one base section, in ascending target order. */
  function TargetLines(baseChanges: seq<Change>): seq<TargetLine> {
    Map(SortBy(KeysByTarget(baseChanges), TargetKey), Line)
  }

  /** The section of one base, printed only when it has a change. */
  function SectionFor(changes: seq<Change>, base: nat): seq<BaseSection> {
    var baseChanges := Filter(changes, FromIs(base));
    if |baseChanges| > 0 then [BaseSection(base, |baseChanges|, TargetLines(baseChanges))] else []
  }

  function Sections(changes: seq<Change>, basePoints: seq<nat>): seq<BaseSection>
    decreases |basePoints|
  {
    if basePoints == [] then []
    else
      var n := |basePoints| - 1;
      Sections(changes, basePoints[..n]) + SectionFor(changes, basePoints[n])
  }

  function DirectionLabel(direction: string): string {
    if direction == "up" then "Increases" else "Decreases"
  }

  /** What `formatResults(monthName, issueCount, changes, direction)` prints. */
  function Formatting(monthName: string, issueCount: nat, changes: seq<Change>, basePoints: seq<nat>, direction: string): ReportEntry {
    Formatted(monthName, issueCount, DirectionLabel(direction), |changes|,
      if |changes| > 0 then Sections(changes, basePoints) else [])
  }

  /** `formatResults`, section by section. */
  method FormatResults(monthName: string, issueCount: nat, changes: seq<Change>, basePoints: seq<nat>, direction: string)
    returns (entry: ReportEntry)
    ensures entry == Formatting(monthName, issueCount, changes, basePoints, direction)
  {
    var sections: seq<BaseSection> := [];
    if |changes| > 0 {
      var i := 0;
      while i < |basePoints|
        invariant i <= |basePoints|
        invariant sections == Sections(changes, basePoints[..i])
      {
        var base := basePoints[i];
        var baseChanges := Filter(changes, FromIs(base));
        assert basePoints[..i + 1][..i] == basePoints[..i];
        if |baseChanges| > 0 {
          sections := sections + [BaseSection(base, |baseChanges|, TargetLines(baseChanges))];
        }
        i := i + 1;
      }
      assert basePoints[..i] == basePoints;
    }
    entry := Formatted(monthName, issueCount, DirectionLabel(direction), |changes|, sections);
  }

  /** `\n<name>: ERROR - <message>\n` */
  function ErrorLine(name: string, message: string): string {
    "\n" + name + ": ERROR - " + message + "\n"
  }

  function MonthReport(w: Window, fetch: Fetcher, mode: string, basePoints: seq<nat>, direction: string): ReportEntry {
    match Attempt(w, fetch, mode, basePoints)
    case Ok(r) => Formatting(w.name, r.totalIssues, r.keys, basePoints, direction)
    case Err(m) => Failed(ErrorLine(w.name, m))
  }

  function ReportOf(fetch: Fetcher, mode: string, basePoints: seq<nat>, direction: string): ((string, Window)) -> ReportEntry {
    (m: (string, Window)) => MonthReport(m.1, fetch, mode, basePoints, direction)
  }

  /** The month parts of `fullOutput`: one per month, in month order, a
      failed month included. */
  function MonthReports(months: Dict<string, Window>, fetch: Fetcher, mode: string, basePoints: seq<nat>, direction: string): seq<ReportEntry> {
    Map(months, ReportOf(fetch, mode, basePoints, direction))
  }

  /** The body of the loop for one month: the record to store, and what the
      month adds to the report. */
  method ProcessMonth(w: Window, fetch: Fetcher, mode: string, basePoints: seq<nat>, direction: string)
    returns (r: Result<MonthStats>, entry: ReportEntry)
    ensures r == Attempt(w, fetch, mode, basePoints) && entry == MonthReport(w, fetch, mode, basePoints, direction)
  {
    var fetched := fetch(w.start, w.end, mode);
    if fetched.Err? {
      r := Err(fetched.message);
      entry := Failed(ErrorLine(w.name, fetched.message));
      return;
    }
    var issues := fetched.value;
    var changes := AnalyzeEffortChanges(issues, basePoints, mode);
    if changes.Err? {
      r := Err(changes.message);
      entry := Failed(ErrorLine(w.name, changes.message));
      return;
    }
    var distribution := AnalyzeEffortDistribution(issues, mode);
    var byBaseAndTarget := GroupChangesByBaseAndTarget(changes.value, AnalysisBasePoints);
    r := Ok(MonthStats(w.name, |issues|, |changes.value|, byBaseAndTarget, distribution.value, changes.value));
    entry := FormatResults(w.name, |issues|, changes.value, basePoints, direction);
  }

  /** The `for (const [monthKey, monthData] of Object.entries(MONTHS))` loop. */
  method RunMonths(months: Dict<string, Window>, fetch: Fetcher, mode: string, basePoints: seq<nat>, direction: string)
    returns (stats: Dict<string, MonthStats>, report: seq<ReportEntry>)
    ensures stats == MonthlyStats(months, fetch, mode, basePoints)
    ensures report == MonthReports(months, fetch, mode, basePoints, direction)
  {
    stats := [];
    report := [];
    var i := 0;
    while i < |months|
      invariant i <= |months|
      invariant stats == MonthlyStats(months[..i], fetch, mode, basePoints)
      invariant report == MonthReports(months[..i], fetch, mode, basePoints, direction)
    {
      var (monthKey, monthData) := months[i];
      var r, entry := ProcessMonth(monthData, fetch, mode, basePoints, direction);
      RunStep(months, Attempts(fetch, mode, basePoints), ReportOf(fetch, mode, basePoints, direction), i, stats, report, r, entry);
      if r.Ok? {
        stats := Put(stats, monthKey, r.value);
      }
      report := report + [entry];
      i := i + 1;
    }
    assert months[..i] == months;
  }

  // ----- Grand totals -----

  function StatIssues(e: (string, MonthStats)): nat {
    e.1.totalIssues
  }

  function StatChanges(e: (string, MonthStats)): nat {
    e.1.totalChanges
  }

  /** `grandTotalIssues` and `grandTotalChanges`: sums over the stored months. */
  method GrandTotals(stats: Dict<string, MonthStats>) returns (issues: nat, changes: nat)
    ensures issues == SumOf(stats, StatIssues) && changes == SumOf(stats, StatChanges)
  {
    issues, changes := 0, 0;
    var i := 0;
    while i < |stats|
      invariant i <= |stats|
      invariant issues == SumOf(stats[..i], StatIssues) && changes == SumOf(stats[..i], StatChanges)
    {
      assert stats[..i + 1][..i] == stats[..i];
      issues := issues + stats[i].1.totalIssues;
      changes := changes + stats[i].1.totalChanges;
      i := i + 1;
    }
    assert stats[..i] == stats;
  }

  // ----- Properties of a record -----

  /** A record's change count is its number of keys, the base/target table
      holds every base and counts every change, and the distribution counts
      every issue. */
  lemma RecordShape(name: string, issues: seq<Issue>, cfg: ModeConfig)
    ensures var r := MonthRecord(name, issues, cfg, AnalysisBasePoints);
      r.totalIssues == |issues| && r.totalChanges == |r.keys|
      && SumOf(r.byBaseAndTarget, BaseTotal) == r.totalChanges
      && Total(r.distribution) == r.totalIssues
      && forall b :: b in AnalysisBasePoints ==> b in Keys(r.byBaseAndTarget)
  {
    var r := MonthRecord(name, issues, cfg, AnalysisBasePoints);
    assert Distinct(AnalysisBasePoints) by {
      SharedBasePoints("dev");
    }
    ByBaseAndTargetCountsAll(issues, AnalysisBasePoints, cfg);
    DistributionTotal(issues, cfg.customFieldId);
    forall b | b in AnalysisBasePoints ensures b in Keys(r.byBaseAndTarget) {
      ByBaseAndTargetGet(r.keys, AnalysisBasePoints, b);
    }
  }

  // ----- Properties of the month loop -----

  /** For a registered mode the analysis cannot throw: a month fails exactly
      when its fetch fails, and otherwise stores the record built with that
      mode's settings. */
  lemma KnownModeAttempt(w: Window, fetch: Fetcher, mode: string, basePoints: seq<nat>)
    requires LookupMode(mode).Ok?
    ensures Attempt(w, fetch, mode, basePoints).Err? <==> fetch(w.start, w.end, mode).Err?
    ensures fetch(w.start, w.end, mode).Err? ==>
      Attempt(w, fetch, mode, basePoints).message == fetch(w.start, w.end, mode).message
    ensures fetch(w.start, w.end, mode).Ok? ==>
      Attempt(w, fetch, mode, basePoints).value
        == MonthRecord(w.name, fetch(w.start, w.end, mode).value, LookupMode(mode).value, basePoints)
  {
  }

  /** Only month keys are stored. */
  lemma StatsKeysFromMonths(months: Dict<string, Window>, fetch: Fetcher, mode: string, basePoints: seq<nat>)
    ensures forall k :: k in Keys(MonthlyStats(months, fetch, mode, basePoints)) ==> k in Keys(months)
  {
    CollectKeys(months, Attempts(fetch, mode, basePoints));
  }

  /** A month that succeeded is stored under its key with its own record; a
      month that failed is absent, not zero. */
  lemma StatsAt(months: Dict<string, Window>, fetch: Fetcher, mode: string, basePoints: seq<nat>, i: nat)
    requires Distinct(Keys(months)) && i < |months|
    ensures Get(MonthlyStats(months, fetch, mode, basePoints), months[i].0)
      == match Attempt(months[i].1, fetch, mode, basePoints) {
           case Ok(r) => Some(r)
           case Err(_) => None
         }
  {
    CollectAt(months, Attempts(fetch, mode, basePoints), i);
  }

  function RecordIssues(r: MonthStats): nat {
    r.totalIssues
  }

  function RecordChanges(r: MonthStats): nat {
    r.totalChanges
  }

  /** Issues of a month's attempt, 0 for a failed month. */
  function AttemptIssues(fetch: Fetcher, mode: string, basePoints: seq<nat>): ((string, Window)) -> nat {
    Succeeded(Attempts(fetch, mode, basePoints), RecordIssues)
  }

  function AttemptChanges(fetch: Fetcher, mode: string, basePoints: seq<nat>): ((string, Window)) -> nat {
    Succeeded(Attempts(fetch, mode, basePoints), RecordChanges)
  }

  /** The grand totals add up the successful months only. */
  lemma GrandTotalsOverSuccesses(months: Dict<string, Window>, fetch: Fetcher, mode: string, basePoints: seq<nat>)
    requires Distinct(Keys(months))
    ensures SumOf(MonthlyStats(months, fetch, mode, basePoints), StatIssues) == SumOf(months, AttemptIssues(fetch, mode, basePoints))
    ensures SumOf(MonthlyStats(months, fetch, mode, basePoints), StatChanges) == SumOf(months, AttemptChanges(fetch, mode, basePoints))
  {
    var stats := MonthlyStats(months, fetch, mode, basePoints);
    CollectSum(months, Attempts(fetch, mode, basePoints), RecordIssues);
    CollectSum(months, Attempts(fetch, mode, basePoints), RecordChanges);
    SumOfPointwise(stats, StatIssues, stats, EntryMeasure(RecordIssues));
    SumOfPointwise(stats, StatChanges, stats, EntryMeasure(RecordChanges));
  }

  // ----- Properties of `formatResults` -----

  function SectionBase(s: BaseSection): nat {
    s.base
  }

  /** `base => grouped[base].length > 0` */
  function HasChangesFrom(changes: seq<Change>): nat -> bool {
    (b: nat) => |Filter(changes, FromIs(b))| > 0
  }

  /** Sections appear for exactly the bases with a change, in base-point order. */
  lemma {:induction false} SectionBases(changes: seq<Change>, basePoints: seq<nat>)
    ensures Map(Sections(changes, basePoints), SectionBase) == Filter(basePoints, HasChangesFrom(changes))
    decreases |basePoints|
  {
    if basePoints != [] {
      var n := |basePoints| - 1;
      var b := basePoints[n];
      SectionBases(changes, basePoints[..n]);
      var prev := Sections(changes, basePoints[..n]);
      var more := SectionFor(changes, b);
      assert Sections(changes, basePoints) == prev + more;
      MapAppend(prev, more, SectionBase);
      assert Map(more, SectionBase) == if HasChangesFrom(changes)(b) then [b] else [];
      assert Filter(basePoints, HasChangesFrom(changes))
        == Filter(basePoints[..n], HasChangesFrom(changes)) + if HasChangesFrom(changes)(b) then [b] else [];
    }
  }

  /** Each section counts its base's changes (at least one) and lists their targets. */
  lemma {:induction false} SectionContent(changes: seq<Change>, basePoints: seq<nat>)
    ensures forall s :: s in Sections(changes, basePoints) ==>
      s.base in basePoints && s.count == |Filter(changes, FromIs(s.base))| && s.count > 0
      && s.targets == TargetLines(Filter(changes, FromIs(s.base)))
    decreases |basePoints|
  {
    if basePoints != [] {
      var n := |basePoints| - 1;
      SectionContent(changes, basePoints[..n]);
      assert basePoints == basePoints[..n] + [basePoints[n]];
    }
  }

  /** A month without changes has no base sections. */
  lemma NoChangesNoSections(monthName: string, issueCount: nat, changes: seq<Change>, basePoints: seq<nat>, direction: string)
    ensures var e := Formatting(monthName, issueCount, changes, basePoints, direction);
      e.changeCount == |changes| && (e.sections == [] <== changes == [])
      && e.heading == (if direction == "up" then "Increases" else "Decreases")
  {
  }

  /** Targets are listed in strictly ascending order, each target once. */
  lemma TargetLinesAscending(baseChanges: seq<Change>)
    ensures var lines := TargetLines(baseChanges);
      forall i, j :: 0 <= i < j < |lines| ==> lines[i].target < lines[j].target
  {
    var d := KeysByTarget(baseChanges);
    var sorted := SortBy(d, TargetKey);
    GroupByKeys(Map(baseChanges, KeyPair));
    SortBySorted(d, TargetKey);
    EntriesDistinct(d);
    SortByDistinct(d, TargetKey);
    forall i, j | 0 <= i < j < |sorted| ensures sorted[i].0 < sorted[j].0 {
      assert KeyLe(TargetKey(sorted[i]), TargetKey(sorted[j]));
      if sorted[i].0 == sorted[j].0 {
        assert sorted[i] in d && sorted[j] in d;
        SameKeySameEntry(d, sorted[i], sorted[j]);
      }
    }
  }

  function LineTarget(line: TargetLine): real {
    line.target
  }

  /** Each target line lists the keys of the changes to its target, in change order. */
  lemma TargetLinesKeys(baseChanges: seq<Change>)
    ensures forall line :: line in TargetLines(baseChanges) ==>
      line.keys == Select(Map(baseChanges, KeyPair), line.target)
  {
    var items := Map(baseChanges, KeyPair);
    var d := KeysByTarget(baseChanges);
    var sorted := SortBy(d, TargetKey);
    var lines := TargetLines(baseChanges);
    GroupByKeys(items);
    SortBySorted(d, TargetKey);
    forall line | line in lines ensures line.keys == Select(items, line.target) {
      var i :| 0 <= i < |lines| && lines[i] == line;
      assert sorted[i] in d;
      GetEntry(d, sorted[i]);
      GroupByGet(items, sorted[i].0);
    }
  }

  /** The targets listed are exactly the targets of the base's changes. */
  lemma TargetLinesTargets(baseChanges: seq<Change>)
    ensures forall t :: t in Map(TargetLines(baseChanges), LineTarget) <==> t in Map(baseChanges, Target)
  {
    var items := Map(baseChanges, KeyPair);
    var sorted := SortBy(GroupBy(items), TargetKey);
    SortedGroupKeys(items, TargetKey);
    assert Map(TargetLines(baseChanges), LineTarget) == Keys(sorted);
    assert Map(baseChanges, Target) == Keys(items);
  }
}
