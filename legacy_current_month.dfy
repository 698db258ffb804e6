/** legacy/fetch-current-month.js: analyse the month so far and store it, in
    the numeric record shape of the modern analyzer, under the current month's
    key of the data file that legacy/script-all-updates.js writes. */
module LegacyCurrentMonth {
  import opened Common
  import opened Dicts
  import opened DateUtils
  import opened Config
  import opened Jira
  import opened ChangeScan
  import opened Analyzer
  import opened Monthly
  import opened LegacyChanges
  import LegacyAllUpdates

  // ----- The analysis -----

  /** `analyzeStoryPointChanges(issues)`: the numeric `{key, from, to}`
      events of the Story Points field, `from` among `BASE_POINTS`. */
  method AnalyzeStoryPointChanges(issues: seq<Issue>) returns (changes: seq<Change>)
    ensures changes == EffortChanges(issues, BasePoints, Dev)
  {
    SameSettings();
    changes := ScanChanges(issues, Prefix, EffortRule(Dev, BasePoints));
  }

  /** The record `analyzeCurrentMonth` builds from the month's issues. */
  function Record(name: string, issues: seq<Issue>): MonthStats {
    var changes := EffortChanges(issues, BasePoints, Dev);
    MonthStats(name, |issues|, |changes|, ByBaseAndTarget(changes, BasePoints),
      Distribution(issues, StoryPointsId), changes)
  }

  // ----- The data file -----

  /** One value of `story-point-all-updates-data.json`: a month written by
      the all-updates run keeps the item strings, a month written here the
      numbers they parse to. */
  datatype StoredMonth =
    | AllUpdatesMonth(raw: LegacyAllUpdates.RawStats)
    | CurrentMonth(stats: MonthStats)

  const DataFile: string := LegacyAllUpdates.DataFile

  /** `allData` after `allData[currentMonth.key] = monthData`, starting from
      the parsed file or from `{}` when there is none. */
  function Merged(existing: Option<Dict<string, StoredMonth>>, key: string, record: MonthStats): Dict<string, StoredMonth> {
    Put(existing.GetOr([]), key, CurrentMonth(record))
  }

  /** `analyzeCurrentMonth()` on `today`, given the fetch and the existing
      data file: the contents written, or the message of a failed fetch, in
      which case nothing is written. */
  method AnalyzeCurrentMonth(today: Date, fetch: LegacyFetcher, existing: Option<Dict<string, StoredMonth>>)
    returns (r: Result<Dict<string, StoredMonth>>)
    requires ValidDate(today)
    ensures var (key, w) := GetCurrentMonth(today);
      match fetch(w.start, w.end) {
        case Err(m) => r == Err(m)
        case Ok(issues) => r == Ok(Merged(existing, key, Record(w.name, issues)))
      }
  {
    var (key, w) := GetCurrentMonth(today);
    var fetched := fetch(w.start, w.end);
    if fetched.Err? {
      return Err(fetched.message);
    }
    var issues := fetched.value;
    var changes := AnalyzeStoryPointChanges(issues);
    var distribution := Analyzer.AnalyzeStoryPointDistribution(issues);
    var byBaseAndTarget := GroupChangesByBaseAndTarget(changes, BasePoints);
    var keys := Map(changes, (c: Change) => Change(c.key, c.from, c.to));
    assert keys == changes;
    ModeFields();
    var monthData := MonthStats(w.name, |issues|, |changes|, byBaseAndTarget, distribution.value, keys);
    var allData: Dict<string, StoredMonth> := [];
    if existing.Some? {
      allData := existing.value;
    }
    allData := Put(allData, key, CurrentMonth(monthData));
    r := Ok(allData);
  }

  // ----- Properties of the record -----

  /** Every event has a base `from` and a larger `to`; the distribution counts
      every issue once; the table has every base, each mapped to the counts of
      its own changes, and these add up to all the changes; `keys` has one
      entry per change. */
  lemma RecordShape(name: string, issues: seq<Issue>)
    ensures var r := Record(name, issues);
      && (forall c :: c in r.keys ==> c.to > c.from && exists b :: b in BasePoints && c.from == b as real)
      && Total(r.distribution) == r.totalIssues == |issues|
      && Keys(r.byBaseAndTarget) == BasePoints
      && (forall b :: b in BasePoints ==> Get(r.byBaseAndTarget, b) == Some(TargetCounts(r.keys, b)))
      && SumOf(r.byBaseAndTarget, BaseTotal) == r.totalChanges == |r.keys|
  {
    var changes := EffortChanges(issues, BasePoints, Dev);
    SameSettings();
    EffortChangesSound(issues, BasePoints, Dev);
    DistributionTotal(issues, StoryPointsId);
    ByBaseAndTargetKeys(changes, BasePoints);
    forall b | b in BasePoints ensures Get(ByBaseAndTarget(changes, BasePoints), b) == Some(TargetCounts(changes, b)) {
      ByBaseAndTargetGet(changes, BasePoints, b);
    }
    ByBaseAndTargetCountsAll(issues, BasePoints, Dev);
  }

  /** The events are the all-updates run's changes of the same issues, their
      strings read as numbers. */
  lemma SameChangesAsAllUpdates(name: string, issues: seq<Issue>)
    ensures Record(name, issues).keys == Map(LegacyAllUpdates.RawChanges(issues), LegacyAllUpdates.Parsed)
  {
    LegacyAllUpdates.RawMatchesModern(issues);
  }

  // ----- Properties of the merge -----

  /** The merge stores the new record under the current month's key and
      leaves every other month, of either shape, as it was. */
  lemma MergeTouchesOneKey(existing: Option<Dict<string, StoredMonth>>, key: string, record: MonthStats)
    ensures Get(Merged(existing, key, record), key) == Some(CurrentMonth(record))
    ensures forall k :: k != key ==> Get(Merged(existing, key, record), k) == Get(existing.GetOr([]), k)
    ensures Keys(Merged(existing, key, record))
      == if key in Keys(existing.GetOr([])) then Keys(existing.GetOr([])) else Keys(existing.GetOr([])) + [key]
  {
    var d := existing.GetOr([]);
    PutGet(d, key, CurrentMonth(record), key);
    forall k | k != key ensures Get(Merged(existing, key, record), k) == Get(d, k) {
      PutGet(d, key, CurrentMonth(record), k);
    }
    PutKeys(d, key, CurrentMonth(record));
  }

  /** A rerun on the same day with the same issues writes the same file. */
  lemma RerunSameFile(existing: Option<Dict<string, StoredMonth>>, key: string, record: MonthStats)
    ensures Merged(Some(Merged(existing, key, record)), key, record) == Merged(existing, key, record)
  {
    PutIdempotent(existing.GetOr([]), key, CurrentMonth(record));
  }

  /** The month stored is the one the all-updates run lists last for today,
      under the same key, running from day 01 to today. */
  lemma CurrentMonthIsLastListed(today: Date)
    requires ValidDate(today) && !Before(today, StartDate)
    ensures var months := LegacyAllUpdates.Months(today);
      |months| > 0 && months[|months| - 1] == GetCurrentMonth(today)
    ensures GetCurrentMonth(today).1.start == DateText(today.year, today.month, 1)
    ensures GetCurrentMonth(today).1.end == DateText(today.year, today.month, today.day)
  {
    assert FirstOfMonth(StartDate) == StartDate;
    CurrentMonthIsLastWindow(StartDate, today);
    CurrentMonthShape(today);
  }
}
