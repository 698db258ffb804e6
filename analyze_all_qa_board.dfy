/** src/analyze-all-qa-board.js: the QA Efforts run for `qa-board` issues
    (QA Efforts on the development issue types).  Unlike the other two runs it
    keeps the totals in counters that grow only after a month succeeds, and
    builds its report as a list of lines whose header is put in front at the
    end. */
module AnalyzeAllQaBoard {
  import opened Common
  import opened Dicts
  import opened Numbers
  import opened DateUtils
  import opened Config
  import opened Jira
  import opened Analyzer
  import opened Monthly

  const Mode: string := "qa-board"

  /** One entry of `reportLines`.  Rates and the targets inside transition
      lines are floating-point text in the source and are kept as numbers. */
  datatype BoardLine =
    | Text(s: string)
    | Rate(changes: nat, issues: nat)
    | Transition(base: nat, target: real, count: nat)

  function Months(today: Date): Dict<string, Window> {
    Windows(StartDate, today)
  }

  function TransitionOf(base: nat): ((real, nat)) -> BoardLine {
    (e: (real, nat)) => Transition(base, e.0, e.1)
  }

  /** `base → target: count issues` for every base, in base-point order, and
      every target of `byBaseAndTarget[base] || {}`, in entry order. */
  function TransitionLines(byBase: Dict<nat, Dict<real, nat>>, bases: seq<nat>): seq<BoardLine>
    decreases |bases|
  {
    if bases == [] then []
    else
      var n := |bases| - 1;
      TransitionLines(byBase, bases[..n]) + Map(GetOr(byBase, bases[n], []), TransitionOf(bases[n]))
  }

  /** The month's name and the 80-dash rule. */
  function MonthHead(name: string): seq<BoardLine> {
    [Text("\n" + name), Text(Repeat('-', 80))]
  }

  function IssuesLine(n: nat): BoardLine {
    Text("Total Issues: " + NatToString(n))
  }

  function IncreasesLine(n: nat): BoardLine {
    Text(QaBoard.fieldName + " Increases: " + NatToString(n))
  }

  function TransitionsHeading(): BoardLine {
    Text("\nIncreases by Transition:")
  }

  function ErrorLine(message: string): BoardLine {
    Text("ERROR: " + message)
  }

  function SuccessLines(name: string, r: MonthStats): seq<BoardLine> {
    MonthHead(name)
    + [IssuesLine(r.totalIssues), IncreasesLine(r.totalChanges), Rate(r.totalChanges, r.totalIssues)]
    + (if r.totalChanges > 0
       then [TransitionsHeading()] + TransitionLines(r.byBaseAndTarget, AnalysisBasePoints)
       else [])
  }

  function FailureLines(name: string, message: string): seq<BoardLine> {
    MonthHead(name) + [ErrorLine(message)]
  }

  function MonthLines(w: Window, fetch: Fetcher): seq<BoardLine> {
    match Attempt(w, fetch, Mode, AnalysisBasePoints)
    case Ok(r) => SuccessLines(w.name, r)
    case Err(m) => FailureLines(w.name, m)
  }

  /** The month lines of all months, in month order. */
  function BoardLines(months: Dict<string, Window>, fetch: Fetcher): seq<BoardLine>
    decreases |months|
  {
    if months == [] then []
    else
      var n := |months| - 1;
      BoardLines(months[..n], fetch) + MonthLines(months[n].1, fetch)
  }

  function Title(): BoardLine {
    Text(QaBoard.fieldName + " ANALYSIS - ALL MONTHS (QA Board Task)")
  }

  function Rule(): BoardLine {
    Text(Repeat('=', 80))
  }

  function PeriodLine(): BoardLine {
    Text("Analysis Period: March 2025 - Present")
  }

  function TrackingLine(): BoardLine {
    Text("Tracking " + QaBoard.fieldName + " increases from base points: " + Join(Map(AnalysisBasePoints, NatToString), ", "))
  }

  /** The five lines put in front of the month lines. */
  function Header(): seq<BoardLine> {
    [Title(), Rule(), PeriodLine(), TrackingLine(), Text("")]
  }

  function Summary(totalIssues: nat, totalChanges: nat): seq<BoardLine> {
    [Text("\n\nSUMMARY - ALL MONTHS"),
     Rule(),
     Text("Total Issues Analyzed: " + NatToString(totalIssues)),
     Text("Total " + QaBoard.fieldName + " Increases: " + NatToString(totalChanges)),
     Rate(totalChanges, totalIssues)]
  }

  /** What `main` writes: `allMonthsData`, `reportLines`, and the two files. */
  datatype Output = Output(
    allMonthsData: Dict<string, MonthStats>,
    reportLines: seq<BoardLine>,
    totalIssues: nat,
    totalChanges: nat,
    dataPath: string,
    reportPath: string)

  /** The `forEach` over bases and targets that pushes the transition lines. */
  method PushTransitions(lines: seq<BoardLine>, byBase: Dict<nat, Dict<real, nat>>, bases: seq<nat>)
    returns (out: seq<BoardLine>)
    ensures out == lines + TransitionLines(byBase, bases)
  {
    out := lines;
    var i := 0;
    while i < |bases|
      invariant i <= |bases|
      invariant out == lines + TransitionLines(byBase, bases[..i])
    {
      var base := bases[i];
      var targets := GetOr(byBase, base, []);
      assert bases[..i + 1][..i] == bases[..i];
      var j := 0;
      while j < |targets|
        invariant j <= |targets|
        invariant out == lines + TransitionLines(byBase, bases[..i]) + Map(targets[..j], TransitionOf(base))
      {
        assert Map(targets[..j + 1], TransitionOf(base)) == Map(targets[..j], TransitionOf(base)) + [Transition(base, targets[j].0, targets[j].1)];
        out := out + [Transition(base, targets[j].0, targets[j].1)];
        j := j + 1;
      }
      assert targets[..j] == targets;
      i := i + 1;
    }
    assert bases[..i] == bases;
  }

  /** The record of one successful month. */
  method AnalyzeMonth(name: string, issues: seq<Issue>) returns (record: MonthStats)
    ensures record == MonthRecord(name, issues, QaBoard, AnalysisBasePoints)
  {
    BoardMode();
    var changes := AnalyzeEffortChanges(issues, AnalysisBasePoints, Mode);
    var distribution := AnalyzeEffortDistribution(issues, Mode);
    var byBaseAndTarget := GroupChangesByBaseAndTarget(changes.value, AnalysisBasePoints);
    record := MonthStats(name, |issues|, |changes.value|, byBaseAndTarget, distribution.value, changes.value);
  }

  /** The `reportLines.push` calls of one successful month. */
  method PushMonthLines(lines: seq<BoardLine>, name: string, record: MonthStats) returns (out: seq<BoardLine>)
    ensures out == lines + SuccessLines(name, record)
  {
    out := lines + MonthHead(name);
    out := out + [IssuesLine(record.totalIssues)];
    out := out + [IncreasesLine(record.totalChanges)];
    out := out + [Rate(record.totalChanges, record.totalIssues)];
    if record.totalChanges > 0 {
      out := out + [TransitionsHeading()];
      out := PushTransitions(out, record.byBaseAndTarget, AnalysisBasePoints);
    }
  }

  /** `qa-board` is registered, with the QA Board settings. */
  lemma BoardMode()
    ensures LookupMode(Mode) == Ok(QaBoard)
  {
    ModeFields();
  }

  lemma MonthUnfold(months: Dict<string, Window>, fetch: Fetcher, i: nat)
    requires i < |months|
    ensures MonthlyStats(months[..i + 1], fetch, Mode, AnalysisBasePoints)
      == match Attempt(months[i].1, fetch, Mode, AnalysisBasePoints) {
           case Ok(r) => Put(MonthlyStats(months[..i], fetch, Mode, AnalysisBasePoints), months[i].0, r)
           case Err(_) => MonthlyStats(months[..i], fetch, Mode, AnalysisBasePoints)
         }
    ensures BoardLines(months[..i + 1], fetch) == BoardLines(months[..i], fetch) + MonthLines(months[i].1, fetch)
    ensures SumOf(months[..i + 1], AttemptIssues(fetch, Mode, AnalysisBasePoints))
      == SumOf(months[..i], AttemptIssues(fetch, Mode, AnalysisBasePoints)) + AttemptIssues(fetch, Mode, AnalysisBasePoints)(months[i])
    ensures SumOf(months[..i + 1], AttemptChanges(fetch, Mode, AnalysisBasePoints))
      == SumOf(months[..i], AttemptChanges(fetch, Mode, AnalysisBasePoints)) + AttemptChanges(fetch, Mode, AnalysisBasePoints)(months[i])
  {
    assert months[..i + 1][..i] == months[..i];
  }

  /** What a successful month `i` adds to each accumulator. */
  lemma SuccessStep(months: Dict<string, Window>, fetch: Fetcher, i: nat, issues: seq<Issue>, record: MonthStats)
    requires i < |months|
    requires fetch(months[i].1.start, months[i].1.end, Mode) == Ok(issues)
    requires record == MonthRecord(months[i].1.name, issues, QaBoard, AnalysisBasePoints)
    ensures MonthlyStats(months[..i + 1], fetch, Mode, AnalysisBasePoints)
      == Put(MonthlyStats(months[..i], fetch, Mode, AnalysisBasePoints), months[i].0, record)
    ensures BoardLines(months[..i + 1], fetch) == BoardLines(months[..i], fetch) + SuccessLines(months[i].1.name, record)
    ensures SumOf(months[..i + 1], AttemptIssues(fetch, Mode, AnalysisBasePoints))
      == SumOf(months[..i], AttemptIssues(fetch, Mode, AnalysisBasePoints)) + record.totalIssues
    ensures SumOf(months[..i + 1], AttemptChanges(fetch, Mode, AnalysisBasePoints))
      == SumOf(months[..i], AttemptChanges(fetch, Mode, AnalysisBasePoints)) + record.totalChanges
  {
    BoardMode();
    assert Attempt(months[i].1, fetch, Mode, AnalysisBasePoints) == Ok(record);
    MonthUnfold(months, fetch, i);
  }

  /** What a failed month `i` adds: its lines only. */
  lemma FailureStep(months: Dict<string, Window>, fetch: Fetcher, i: nat, message: string)
    requires i < |months|
    requires fetch(months[i].1.start, months[i].1.end, Mode) == Err(message)
    ensures MonthlyStats(months[..i + 1], fetch, Mode, AnalysisBasePoints) == MonthlyStats(months[..i], fetch, Mode, AnalysisBasePoints)
    ensures BoardLines(months[..i + 1], fetch) == BoardLines(months[..i], fetch) + FailureLines(months[i].1.name, message)
    ensures SumOf(months[..i + 1], AttemptIssues(fetch, Mode, AnalysisBasePoints))
      == SumOf(months[..i], AttemptIssues(fetch, Mode, AnalysisBasePoints))
    ensures SumOf(months[..i + 1], AttemptChanges(fetch, Mode, AnalysisBasePoints))
      == SumOf(months[..i], AttemptChanges(fetch, Mode, AnalysisBasePoints))
  {
    assert Attempt(months[i].1, fetch, Mode, AnalysisBasePoints) == Err(message);
    MonthUnfold(months, fetch, i);
  }

  lemma Prepend5<T>(a: T, b: T, c: T, d: T, e: T, body: seq<T>)
    ensures [a] + ([b] + ([c] + ([d] + ([e] + body)))) == [a, b, c, d, e] + body
  {
  }

  /** `allMonthsData`, the month part of `reportLines`, `totalIssues` and `totalChanges`. */
  datatype Accumulators = Accumulators(
    allMonthsData: Dict<string, MonthStats>,
    lines: seq<BoardLine>,
    totalIssues: nat,
    totalChanges: nat)

  /** The accumulators after the given months. */
  function After(months: Dict<string, Window>, fetch: Fetcher): Accumulators {
    Accumulators(
      MonthlyStats(months, fetch, Mode, AnalysisBasePoints),
      BoardLines(months, fetch),
      SumOf(months, AttemptIssues(fetch, Mode, AnalysisBasePoints)),
      SumOf(months, AttemptChanges(fetch, Mode, AnalysisBasePoints)))
  }

  /** The `try`/`catch` body for month `i`. */
  method ProcessMonth(months: Dict<string, Window>, fetch: Fetcher, i: nat, acc: Accumulators) returns (next: Accumulators)
    requires i < |months| && acc == After(months[..i], fetch)
    ensures next == After(months[..i + 1], fetch)
  {
    var key := months[i].0;
    var w := months[i].1;
    var fetched := fetch(w.start, w.end, Mode);
    if fetched.Err? {
      FailureStep(months, fetch, i, fetched.message);
      next := acc.(lines := acc.lines + FailureLines(w.name, fetched.message));
    } else {
      var record := AnalyzeMonth(w.name, fetched.value);
      SuccessStep(months, fetch, i, fetched.value, record);
      var lines := PushMonthLines(acc.lines, w.name, record);
      next := Accumulators(Put(acc.allMonthsData, key, record), lines,
        acc.totalIssues + record.totalIssues, acc.totalChanges + record.totalChanges);
    }
  }

  /** The `for (const monthData of MONTHS)` loop. */
  method RunBoard(months: Dict<string, Window>, fetch: Fetcher) returns (acc: Accumulators)
    ensures acc == After(months, fetch)
  {
    acc := Accumulators([], [], 0, 0);
    var i := 0;
    while i < |months|
      invariant i <= |months|
      invariant acc == After(months[..i], fetch)
    {
      acc := ProcessMonth(months, fetch, i, acc);
      i := i + 1;
    }
    assert months[..i] == months;
  }

  /** The five `unshift` calls and the summary `push` calls. */
  method FrameReport(body: seq<BoardLine>, totalIssues: nat, totalChanges: nat) returns (reportLines: seq<BoardLine>)
    ensures reportLines == Header() + body + Summary(totalIssues, totalChanges)
  {
    reportLines := [Text("")] + body;
    reportLines := [TrackingLine()] + reportLines;
    reportLines := [PeriodLine()] + reportLines;
    reportLines := [Rule()] + reportLines;
    reportLines := [Title()] + reportLines;
    Prepend5(Title(), Rule(), PeriodLine(), TrackingLine(), Text(""), body);
    reportLines := reportLines + Summary(totalIssues, totalChanges);
  }

  /** `main()`. */
  method Run(today: Date, fetch: Fetcher) returns (out: Output)
    ensures out.allMonthsData == MonthlyStats(Months(today), fetch, Mode, AnalysisBasePoints)
    ensures out.reportLines == Header() + BoardLines(Months(today), fetch) + Summary(out.totalIssues, out.totalChanges)
    ensures out.totalIssues == SumOf(out.allMonthsData, StatIssues)
    ensures out.totalChanges == SumOf(out.allMonthsData, StatChanges)
    ensures out.dataPath == QaBoardData && out.reportPath == QaBoardReport
  {
    var months := GenerateMonthsFromFirst(StartDate, today);
    assert FirstOfMonth(StartDate) == StartDate;
    var acc := RunBoard(months, fetch);
    WindowsKeysDistinct(StartDate, today);
    GrandTotalsOverSuccesses(months, fetch, Mode, AnalysisBasePoints);
    var reportLines := FrameReport(acc.lines, acc.totalIssues, acc.totalChanges);
    out := Output(acc.allMonthsData, reportLines, acc.totalIssues, acc.totalChanges, QaBoardData, QaBoardReport);
  }

  // ----- Properties -----

  /** Every month's lines begin with its name and the dash rule; a failed month
      has exactly one more line, its error; a successful one lists transitions
      exactly when it has changes. */
  lemma MonthLinesShape(w: Window, fetch: Fetcher)
    ensures MonthLines(w, fetch)[..2] == MonthHead(w.name)
    ensures fetch(w.start, w.end, Mode).Err? ==>
      MonthLines(w, fetch) == MonthHead(w.name) + [ErrorLine(fetch(w.start, w.end, Mode).message)]
    ensures fetch(w.start, w.end, Mode).Ok? ==>
      |MonthLines(w, fetch)| >= 5
      && (|MonthLines(w, fetch)| > 5 <==> |EffortChanges(fetch(w.start, w.end, Mode).value, AnalysisBasePoints, QaBoard)| > 0)
  {
    BoardMode();
    KnownModeAttempt(w, fetch, Mode, AnalysisBasePoints);
  }

  function LineCount(l: BoardLine): nat {
    if l.Transition? then l.count else 0
  }

  lemma {:induction false} TransitionsOfTargets(targets: Dict<real, nat>, base: nat)
    ensures SumOf(Map(targets, TransitionOf(base)), LineCount) == Total(targets)
    decreases |targets|
  {
    if targets != [] {
      var n := |targets| - 1;
      assert Map(targets, TransitionOf(base))[..n] == Map(targets[..n], TransitionOf(base));
      TransitionsOfTargets(targets[..n], base);
    }
  }

  /** Listing a table's bases in key order gives one transition line per target,
      and their counts add up to the table's total. */
  lemma {:induction false} TransitionLinesSum(byBase: Dict<nat, Dict<real, nat>>, n: nat)
    requires Distinct(Keys(byBase)) && n <= |byBase|
    ensures SumOf(TransitionLines(byBase, Keys(byBase)[..n]), LineCount) == SumOf(byBase[..n], BaseTotal)
    decreases n
  {
    if n > 0 {
      var ks := Keys(byBase)[..n];
      assert ks[..n - 1] == Keys(byBase)[..n - 1];
      assert byBase[..n][..n - 1] == byBase[..n - 1];
      TransitionLinesSum(byBase, n - 1);
      assert byBase[n - 1] in byBase;
      GetEntry(byBase, byBase[n - 1]);
      TransitionsOfTargets(byBase[n - 1].1, ks[n - 1]);
      SumOfAppend(TransitionLines(byBase, ks[..n - 1]), Map(GetOr(byBase, ks[n - 1], []), TransitionOf(ks[n - 1])), LineCount);
    }
  }

  /** Listing a base/target table by its base points accounts for all its counts. */
  lemma TableTransitions(changes: seq<Change>, basePoints: seq<nat>)
    requires Distinct(basePoints)
    ensures SumOf(TransitionLines(ByBaseAndTarget(changes, basePoints), basePoints), LineCount)
      == SumOf(ByBaseAndTarget(changes, basePoints), BaseTotal)
  {
    var d := ByBaseAndTarget(changes, basePoints);
    ByBaseAndTargetKeys(changes, basePoints);
    TransitionLinesSum(d, |d|);
    assert Keys(d)[..|d|] == basePoints;
    assert d[..|d|] == d;
  }

  /** The transition lines of a successful month account for every one of its changes. */
  lemma TransitionsCoverChanges(name: string, issues: seq<Issue>)
    ensures var r := MonthRecord(name, issues, QaBoard, AnalysisBasePoints);
      SumOf(TransitionLines(r.byBaseAndTarget, AnalysisBasePoints), LineCount) == r.totalChanges
  {
    var r := MonthRecord(name, issues, QaBoard, AnalysisBasePoints);
    assert Distinct(AnalysisBasePoints) by {
      SharedBasePoints("dev");
    }
    TableTransitions(r.keys, AnalysisBasePoints);
    RecordShape(name, issues, QaBoard);
  }

  /** The counters count the months that succeeded, and only those. */
  lemma TotalsCountSuccesses(today: Date, fetch: Fetcher)
    ensures SumOf(MonthlyStats(Months(today), fetch, Mode, AnalysisBasePoints), StatIssues)
      == SumOf(Months(today), AttemptIssues(fetch, Mode, AnalysisBasePoints))
    ensures SumOf(MonthlyStats(Months(today), fetch, Mode, AnalysisBasePoints), StatChanges)
      == SumOf(Months(today), AttemptChanges(fetch, Mode, AnalysisBasePoints))
  {
    WindowsKeysDistinct(StartDate, today);
    GrandTotalsOverSuccesses(Months(today), fetch, Mode, AnalysisBasePoints);
  }
}
