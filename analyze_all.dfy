/** src/analyze-all.js: the Story Points run over every month from the
    analysis start date through today, once per direction.  The date `today`
    stands for `new Date()`. */
module AnalyzeAll {
  import opened Common
  import opened Dicts
  import opened DateUtils
  import opened Config
  import opened Monthly

  /** `MODE` */
  const Mode: string := "dev"

  /** What one `main(direction)` produces: the `monthlyStats` written as JSON,
      the month parts of the report, the grand totals and the two file names. */
  datatype Output = Output(
    stats: Dict<string, MonthStats>,
    report: seq<ReportEntry>,
    grandTotalIssues: nat,
    grandTotalChanges: nat,
    dataPath: string,
    reportPath: string)

  /** `generateMonths(config.analysis.startDate)` with today as the end. */
  function Months(today: Date): Dict<string, Window> {
    Windows(StartDate, today)
  }

  function DataPath(direction: string): string {
    if direction == "up" then DevDataUp else DevDataDown
  }

  function ReportPath(direction: string): string {
    if direction == "up" then DevReportUp else DevReportDown
  }

  /** `main(direction)`. The data written does not depend on the direction:
      `MonthlyStats` takes none. */
  method Run(direction: string, today: Date, fetch: Fetcher) returns (out: Output)
    ensures out.stats == MonthlyStats(Months(today), fetch, Mode, AnalysisBasePoints)
    ensures out.report == MonthReports(Months(today), fetch, Mode, AnalysisBasePoints, direction)
    ensures out.grandTotalIssues == SumOf(out.stats, StatIssues)
    ensures out.grandTotalChanges == SumOf(out.stats, StatChanges)
    ensures out.dataPath == DataPath(direction) && out.reportPath == ReportPath(direction)
  {
    var months := GenerateMonthsFromFirst(StartDate, today);
    assert FirstOfMonth(StartDate) == StartDate;
    var stats, report := RunMonths(months, fetch, Mode, AnalysisBasePoints, direction);
    var issues, changes := GrandTotals(stats);
    out := Output(stats, report, issues, changes, DataPath(direction), ReportPath(direction));
  }

  /** The script runs `main('up')` and then `main('down')` over the same data:
      both write the same statistics and totals, to different files. */
  method RunBothDirections(today: Date, fetch: Fetcher) returns (up: Output, down: Output)
    ensures up.stats == down.stats
    ensures up.grandTotalIssues == down.grandTotalIssues && up.grandTotalChanges == down.grandTotalChanges
    ensures up.dataPath == DevDataUp && down.dataPath == DevDataDown && up.dataPath != down.dataPath
    ensures up.reportPath == DevReportUp && down.reportPath == DevReportDown
  {
    up := Run("up", today, fetch);
    down := Run("down", today, fetch);
  }

  // ----- Properties -----

  /** `up` selects the Up files and every other direction the Down files. */
  lemma PathChoice(direction: string)
    ensures DataPath(direction) == DevDataUp <==> direction == "up"
    ensures DataPath(direction) == DevDataDown <==> direction != "up"
    ensures ReportPath(direction) == DevReportUp <==> direction == "up"
    ensures ReportPath(direction) == DevReportDown <==> direction != "up"
  {
    assert DevDataUp[31] != DevDataDown[31];
    assert DevReportUp[31] != DevReportDown[31];
  }

  /** One month per calendar month from March 2025 through today's month,
      each under its own key. */
  lemma MonthsCovered(today: Date)
    requires ValidDate(today)
    ensures |Months(today)| == if MonthIndex(today) < MonthIndex(StartDate) then 0 else MonthIndex(today) - MonthIndex(StartDate) + 1
    ensures forall i :: 0 <= i < |Months(today)| ==> Months(today)[i] == WindowAt(MonthIndex(StartDate) + i, today)
    ensures Distinct(Keys(Months(today)))
  {
    assert FirstOfMonth(StartDate) == StartDate;
    WindowsFromFirst(StartDate, today);
    WindowsKeysDistinct(StartDate, today);
  }

  /** The grand totals count the months that succeeded, and only those. */
  lemma GrandTotalsCountSuccesses(today: Date, fetch: Fetcher)
    ensures SumOf(MonthlyStats(Months(today), fetch, Mode, AnalysisBasePoints), StatIssues)
      == SumOf(Months(today), AttemptIssues(fetch, Mode, AnalysisBasePoints))
    ensures SumOf(MonthlyStats(Months(today), fetch, Mode, AnalysisBasePoints), StatChanges)
      == SumOf(Months(today), AttemptChanges(fetch, Mode, AnalysisBasePoints))
  {
    WindowsKeysDistinct(StartDate, today);
    GrandTotalsOverSuccesses(Months(today), fetch, Mode, AnalysisBasePoints);
  }

  /** With the mode fixed to `dev`, a month is missing from the statistics
      exactly when its fetch failed; otherwise it holds the Story Points record. */
  lemma StoredMonths(today: Date, fetch: Fetcher, i: nat)
    requires i < |Months(today)|
    ensures var w := Months(today)[i].1;
      match fetch(w.start, w.end, Mode) {
        case Err(_) => Get(MonthlyStats(Months(today), fetch, Mode, AnalysisBasePoints), Months(today)[i].0) == None
        case Ok(issues) => Get(MonthlyStats(Months(today), fetch, Mode, AnalysisBasePoints), Months(today)[i].0)
          == Some(MonthRecord(w.name, issues, Dev, AnalysisBasePoints))
      }
  {
    WindowsKeysDistinct(StartDate, today);
    StatsAt(Months(today), fetch, Mode, AnalysisBasePoints, i);
    ModeFields();
    KnownModeAttempt(Months(today)[i].1, fetch, Mode, AnalysisBasePoints);
  }
}
