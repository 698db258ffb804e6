/** src/services/data-updater.js: refresh the current month of a mode's data
    file.  The file is given as its parsed contents (`None` when it does not
    exist) and the written file is returned. */
module DataUpdater {
  import opened Common
  import opened Dicts
  import opened DateUtils
  import opened Config
  import opened Jira
  import opened Analyzer
  import opened Monthly

  /** `mode === 'dev' ? config.paths.devData : config.paths.qaData` */
  function DataPathFor(mode: string): string {
    if mode == "dev" then DevData else QaData
  }

  /** The file written and the `allData` returned, which are the same map. */
  datatype Written = Written(path: string, allData: Dict<string, MonthStats>)

  /** `allData` after `allData[key] = record`, starting from the file's
      contents or from `{}`. */
  function Merged(existing: Option<Dict<string, MonthStats>>, key: string, record: MonthStats): Dict<string, MonthStats> {
    Put(existing.GetOr([]), key, record)
  }

  /** `updateCurrentMonth(mode)` on `today`, given the fetch and the existing
      file.  An unknown mode is rejected before the month is computed or
      anything is fetched; a failing fetch rejects with its message. */
  method UpdateCurrentMonth(mode: string, today: Date, fetch: Fetcher, existing: Option<Dict<string, MonthStats>>)
    returns (r: Result<Written>)
    requires ValidDate(today)
    ensures LookupMode(mode).Err? ==> r == Err(InvalidModeMessage(mode))
    ensures LookupMode(mode).Ok? ==>
      var (key, w) := GetCurrentMonth(today);
      match fetch(w.start, w.end, mode) {
        case Err(m) => r == Err(m)
        case Ok(issues) => r == Ok(Written(DataPathFor(mode),
          Merged(existing, key, MonthRecord(w.name, issues, LookupMode(mode).value, AnalysisBasePoints))))
      }
  {
    var modeConfig := LookupMode(mode);
    if modeConfig.Err? {
      return Err(modeConfig.message);
    }
    var (key, w) := GetCurrentMonth(today);
    var dataPath := if mode == "dev" then DevData else QaData;
    var fetched := fetch(w.start, w.end, mode);
    if fetched.Err? {
      return Err(fetched.message);
    }
    var issues := fetched.value;
    var changes := AnalyzeEffortChanges(issues, AnalysisBasePoints, mode);
    var distribution := AnalyzeEffortDistribution(issues, mode);
    var byBaseAndTarget := GroupChangesByBaseAndTarget(changes.value, AnalysisBasePoints);
    var monthData := MonthStats(w.name, |issues|, |changes.value|, byBaseAndTarget, distribution.value, changes.value);
    var allData: Dict<string, MonthStats> := [];
    if existing.Some? {
      allData := existing.value;
    }
    allData := Put(allData, key, monthData);
    r := Ok(Written(dataPath, allData));
  }

  // ----- Properties -----

  /** `dev` writes the Story Points file; every other mode, `qa-board`
      included, writes the QA Efforts file. */
  lemma PathChoice(mode: string)
    ensures DataPathFor(mode) == DevData <==> mode == "dev"
    ensures DataPathFor(mode) == QaData <==> mode != "dev"
    ensures DataPathFor("qa-board") == QaData
  {
    assert DevData[7] != QaData[7];
  }

  /** The merge sets the current month's key and leaves every other key as it was. */
  lemma MergeTouchesOneKey(existing: Option<Dict<string, MonthStats>>, key: string, record: MonthStats)
    ensures Get(Merged(existing, key, record), key) == Some(record)
    ensures forall k :: k != key ==> Get(Merged(existing, key, record), k) == Get(existing.GetOr([]), k)
    ensures Keys(Merged(existing, key, record))
      == if key in Keys(existing.GetOr([])) then Keys(existing.GetOr([])) else Keys(existing.GetOr([])) + [key]
  {
    PutGet(existing.GetOr([]), key, record, key);
    forall k | k != key ensures Get(Merged(existing, key, record), k) == Get(existing.GetOr([]), k) {
      PutGet(existing.GetOr([]), key, record, k);
    }
    PutKeys(existing.GetOr([]), key, record);
  }

  /** Without a data file the result holds exactly the current month. */
  lemma NoFileOneKey(key: string, record: MonthStats)
    ensures Merged(None, key, record) == [(key, record)]
    ensures Keys(Merged(None, key, record)) == [key]
  {
  }

  /** Running the update twice with the same data leaves the file as after the first run. */
  lemma MergeIdempotent(existing: Option<Dict<string, MonthStats>>, key: string, record: MonthStats)
    ensures Merged(Some(Merged(existing, key, record)), key, record) == Merged(existing, key, record)
  {
    PutIdempotent(existing.GetOr([]), key, record);
  }

  /** The current month is stored under the key and name `generateMonths`
      gives it, with day 01 as its start and today as its end. */
  lemma CurrentMonthKey(today: Date)
    requires ValidDate(today)
    ensures GetCurrentMonth(today) == Windows(FirstOfMonth(today), today)[0]
    ensures GetCurrentMonth(today).1.start == DateText(today.year, today.month, 1)
    ensures GetCurrentMonth(today).1.end == DateText(today.year, today.month, today.day)
  {
    CurrentMonthIsLastWindow(today, today);
    WindowsFromFirst(today, today);
    CurrentMonthShape(today);
  }
}
