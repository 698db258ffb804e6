/** src/analyze-all-qa.js: the QA Efforts run over every month from the
    analysis start date through today, once per direction.  Fetch, detection
    and distribution all use the `qa` mode. */
module AnalyzeAllQa {
  import opened Common
  import opened Dicts
  import opened Numbers
  import opened DateUtils
  import opened Config
  import opened Monthly

  /** `MODE` */
  const Mode: string := "qa"

  /** What one `main(direction)` produces: the `monthlyStats` written as JSON,
      the month parts of the report, the summary totals and line, and the two
      file names. */
  datatype Output = Output(
    stats: Dict<string, MonthStats>,
    report: seq<ReportEntry>,
    totalIssues: nat,
    totalChanges: nat,
    summaryLine: string,
    dataPath: string,
    reportPath: string)

  function Months(today: Date): Dict<string, Window> {
    Windows(StartDate, today)
  }

  function DataPath(direction: string): string {
    if direction == "up" then QaDataUp else QaDataDown
  }

  function ReportPath(direction: string): string {
    if direction == "up" then QaReportUp else QaReportDown
  }

  /** `Total QA Efforts Increases: n`, whatever the direction. */
  function SummaryLine(totalChanges: nat): string {
    "Total " + Qa.fieldName + " Increases: " + NatToString(totalChanges)
  }

  /** `main(direction)`. */
  method Run(direction: string, today: Date, fetch: Fetcher) returns (out: Output)
    ensures out.stats == MonthlyStats(Months(today), fetch, Mode, AnalysisBasePoints)
    ensures out.report == MonthReports(Months(today), fetch, Mode, AnalysisBasePoints, direction)
    ensures out.totalIssues == SumOf(out.stats, StatIssues)
    ensures out.totalChanges == SumOf(out.stats, StatChanges)
    ensures out.summaryLine == SummaryLine(out.totalChanges)
    ensures out.dataPath == DataPath(direction) && out.reportPath == ReportPath(direction)
  {
    var months := GenerateMonthsFromFirst(StartDate, today);
    assert FirstOfMonth(StartDate) == StartDate;
    var stats, report := RunMonths(months, fetch, Mode, AnalysisBasePoints, direction);
    var issues, changes := GrandTotals(stats);
    out := Output(stats, report, issues, changes, SummaryLine(changes), DataPath(direction), ReportPath(direction));
  }

  /** `main('up')` then `main('down')`: same statistics and the same summary
      line ("Increases" both times), written to the Up and the Down files. */
  method RunBothDirections(today: Date, fetch: Fetcher) returns (up: Output, down: Output)
    ensures up.stats == down.stats && up.summaryLine == down.summaryLine
    ensures up.totalIssues == down.totalIssues && up.totalChanges == down.totalChanges
    ensures up.dataPath == QaDataUp && down.dataPath == QaDataDown
    ensures up.reportPath == QaReportUp && down.reportPath == QaReportDown
  {
    up := Run("up", today, fetch);
    down := Run("down", today, fetch);
  }

  // ----- Properties -----

  /** `up` selects the Up files and every other direction the Down files. */
  lemma PathChoice(direction: string)
    ensures DataPath(direction) == QaDataUp <==> direction == "up"
    ensures DataPath(direction) == QaDataDown <==> direction != "up"
    ensures ReportPath(direction) == QaReportUp <==> direction == "up"
    ensures ReportPath(direction) == QaReportDown <==> direction != "up"
  {
    assert QaDataUp[30] != QaDataDown[30];
    assert QaReportUp[30] != QaReportDown[30];
  }

  /** The summary names the QA Efforts field and says "Increases". */
  lemma SummaryWording(totalChanges: nat)
    ensures SummaryLine(totalChanges) == "Total QA Efforts Increases: " + NatToString(totalChanges)
  {
  }

  /** The totals count the months that succeeded, and only those. */
  lemma TotalsCountSuccesses(today: Date, fetch: Fetcher)
    ensures SumOf(MonthlyStats(Months(today), fetch, Mode, AnalysisBasePoints), StatIssues)
      == SumOf(Months(today), AttemptIssues(fetch, Mode, AnalysisBasePoints))
    ensures SumOf(MonthlyStats(Months(today), fetch, Mode, AnalysisBasePoints), StatChanges)
      == SumOf(Months(today), AttemptChanges(fetch, Mode, AnalysisBasePoints))
  {
    WindowsKeysDistinct(StartDate, today);
    GrandTotalsOverSuccesses(Months(today), fetch, Mode, AnalysisBasePoints);
  }

  /** Each stored month holds the QA Efforts record of the issues its `qa`
      fetch returned: changes and distribution on `customfield_14664`. */
  lemma StoredMonths(today: Date, fetch: Fetcher, i: nat)
    requires i < |Months(today)|
    ensures var w := Months(today)[i].1;
      match fetch(w.start, w.end, Mode) {
        case Err(_) => Get(MonthlyStats(Months(today), fetch, Mode, AnalysisBasePoints), Months(today)[i].0) == None
        case Ok(issues) => Get(MonthlyStats(Months(today), fetch, Mode, AnalysisBasePoints), Months(today)[i].0)
          == Some(MonthRecord(w.name, issues, Qa, AnalysisBasePoints))
      }
    ensures Qa.customFieldId == "customfield_14664"
  {
    WindowsKeysDistinct(StartDate, today);
    StatsAt(Months(today), fetch, Mode, AnalysisBasePoints, i);
    ModeFields();
    KnownModeAttempt(Months(today)[i].1, fetch, Mode, AnalysisBasePoints);
  }
}
