/** src/dashboard-app.js: the dashboard's `/` route.  It picks the data file
    from the query's mode and direction, re-aggregates the months exactly as
    `generateDashboardHTML` does (the route repeats that code), and adds the
    story-point heatmap and the per-month distribution table.  `files` and
    `texts` stand for `fs.existsSync` plus the file read: `None` is a missing
    file. */
module DashboardApp {
  import opened Common
  import opened Dicts
  import opened Numbers
  import opened Sorting
  import opened Config
  import opened Jira
  import opened Analyzer
  import opened Monthly
  import opened DashboardData

  // ----- Files -----

  /** The file `loadData(mode, direction)` reads. */
  function DataFile(mode: string, direction: string): string {
    if mode == "dev" then (if direction == "up" then DevDataUp else DevDataDown)
    else if mode == "qa" then (if direction == "up" then QaDataUp else QaDataDown)
    else if direction == "up" then QaBoardDataUp else QaBoardDataDown
  }

  /** The file `loadTextReport(mode, direction)` reads. */
  function ReportFile(mode: string, direction: string): string {
    if mode == "dev" then (if direction == "up" then DevReportUp else DevReportDown)
    else if mode == "qa" then (if direction == "up" then QaReportUp else QaReportDown)
    else if direction == "up" then QaBoardReportUp else QaBoardReportDown
  }

  type DataFiles = string -> Option<Dict<string, MonthStats>>
  type TextFiles = string -> Option<string>

  /** `loadData(mode, direction)`: the parsed file, or `null` when it is missing. */
  function LoadData(mode: string, direction: string, files: DataFiles): Option<Dict<string, MonthStats>> {
    files(DataFile(mode, direction))
  }

  /** `loadTextReport(mode, direction)`: the text, or `''` when it is missing. */
  function LoadTextReport(mode: string, direction: string, texts: TextFiles): string {
    texts(ReportFile(mode, direction)).GetOr("")
  }

  // ----- The heatmap -----

  /** `{ x: mIdx, y: spIdx, v: count }` */
  datatype HeatCell = HeatCell(x: nat, y: nat, v: nat)

  /** `k !== 'null' && parseFloat(k) >= 13`; a NaN compares false. */
  predicate HighBucket(e: (string, nat)) {
    e.0 != "null" && match ParseFloat(e.0) { case Some(v) => v >= 13.0 case None => false }
  }

  /** The count drawn for one story-point category of a month. */
  function CategoryCount(dist: Dict<string, nat>, category: string): nat {
    if category == "13+" then SumOf(Filter(dist, HighBucket), EntryCount) else Count(dist, category)
  }

  /** `CategoryCount` over the distribution of one month. */
  function CountsIn(dist: Dict<string, nat>): string -> nat {
    (category: string) => CategoryCount(dist, category)
  }

  /** The cells of month `x`, one per category with a positive count. */
  function CategoryCells(x: nat, count: string -> nat, categories: seq<string>): seq<HeatCell>
    decreases |categories|
  {
    if categories == [] then []
    else
      var n := |categories| - 1;
      var c := count(categories[n]);
      CategoryCells(x, count, categories[..n]) + if c > 0 then [HeatCell(x, n, c)] else []
  }

  /** `heatmapData` after the given months. */
  function HeatCells(months: seq<Month>): seq<HeatCell>
    decreases |months|
  {
    if months == [] then []
    else
      var n := |months| - 1;
      HeatCells(months[..n]) + CategoryCells(n, CountsIn(months[n].1.distribution), StoryPointCategories)
  }

  /** The inner `spCategories.forEach` for month `x`. */
  method PushCategoryCells(x: nat, dist: Dict<string, nat>, categories: seq<string>) returns (cells: seq<HeatCell>)
    ensures cells == CategoryCells(x, CountsIn(dist), categories)
  {
    cells := [];
    var y := 0;
    while y < |categories|
      invariant y <= |categories|
      invariant cells == CategoryCells(x, CountsIn(dist), categories[..y])
    {
      assert categories[..y + 1][..y] == categories[..y];
      var count := CategoryCount(dist, categories[y]);
      if count > 0 {
        cells := cells + [HeatCell(x, y, count)];
      }
      y := y + 1;
    }
    assert categories[..y] == categories;
  }

  /** The `forEach` over months that fills `heatmapData`. */
  method BuildHeatmap(months: seq<Month>) returns (cells: seq<HeatCell>)
    ensures cells == HeatCells(months)
  {
    cells := [];
    var x := 0;
    while x < |months|
      invariant x <= |months|
      invariant cells == HeatCells(months[..x])
    {
      assert months[..x + 1][..x] == months[..x];
      var monthCells := PushCategoryCells(x, months[x].1.distribution, StoryPointCategories);
      cells := cells + monthCells;
      x := x + 1;
    }
    assert months[..x] == months;
  }

  /** `Math.max(...heatmapData.map(d => d.v), 1)` */
  function MaxHeat(cells: seq<HeatCell>): (r: nat)
    ensures r >= 1
    ensures forall c :: c in cells ==> c.v <= r
    ensures r == 1 || exists c :: c in cells && c.v == r
    decreases |cells|
  {
    if cells == [] then 1
    else
      var n := |cells| - 1;
      var rest := MaxHeat(cells[..n]);
      assert forall c :: c in cells ==> c in cells[..n] || c == cells[n];
      if cells[n].v > rest then cells[n].v else rest
  }

  lemma {:induction false} CategoryCellsContents(x: nat, count: string -> nat, categories: seq<string>)
    ensures forall c :: c in CategoryCells(x, count, categories) <==>
      c.x == x && c.y < |categories| && c.v == count(categories[c.y]) && c.v > 0
    decreases |categories|
  {
    if categories != [] {
      var n := |categories| - 1;
      CategoryCellsContents(x, count, categories[..n]);
      forall c ensures c in CategoryCells(x, count, categories) <==>
        c.x == x && c.y < |categories| && c.v == count(categories[c.y]) && c.v > 0
      {
        if c.y < n {
          assert categories[..n][c.y] == categories[c.y];
        }
      }
    }
  }

  /** A heatmap cell exists exactly for each month and category whose count
      is positive, and holds that count. */
  lemma {:induction false} HeatCellsContents(months: seq<Month>)
    ensures forall c :: c in HeatCells(months) <==>
      c.x < |months| && c.y < |StoryPointCategories|
      && c.v == CategoryCount(months[c.x].1.distribution, StoryPointCategories[c.y]) && c.v > 0
    decreases |months|
  {
    if months != [] {
      var n := |months| - 1;
      HeatCellsContents(months[..n]);
      CategoryCellsContents(n, CountsIn(months[n].1.distribution), StoryPointCategories);
      forall c ensures c in HeatCells(months) <==>
        c.x < |months| && c.y < |StoryPointCategories|
        && c.v == CategoryCount(months[c.x].1.distribution, StoryPointCategories[c.y]) && c.v > 0
      {
        if c.x < n {
          assert months[..n][c.x] == months[c.x];
        }
      }
    }
  }

  // ----- The distribution table -----

  /** `k !== 'null'` */
  predicate HasValue(e: (string, nat)) {
    e.0 != "null"
  }

  /** `tasksWithSP` */
  function TasksWithSP(dist: Dict<string, nat>): nat {
    SumOf(Filter(dist, HasValue), EntryCount)
  }

  /** `dist.null || 0` */
  function TasksWithoutSP(dist: Dict<string, nat>): nat {
    Count(dist, "null")
  }

  /** Tasks with and without a value together are all of a month's tasks. */
  lemma {:induction false} TasksSplit(dist: Dict<string, nat>)
    requires Distinct(Keys(dist))
    ensures TasksWithSP(dist) + TasksWithoutSP(dist) == Total(dist)
    decreases |dist|
  {
    if dist != [] {
      var n := |dist| - 1;
      var e := dist[n];
      assert Keys(dist) == Keys(dist[..n]) + [e.0];
      assert Distinct(Keys(dist[..n]));
      TasksSplit(dist[..n]);
      assert dist == dist[..n] + [e];
      GetSnoc(dist[..n], e, "null");
      if HasValue(e) {
        SumOfAppend(Filter(dist[..n], HasValue), [e], EntryCount);
        assert [e][..0] == [];
      }
    }
  }

  /** For a month the analysis recorded, the two columns add up to its issue count. */
  lemma RecordTasks(name: string, issues: seq<Issue>, cfg: ModeConfig, basePoints: seq<nat>)
    ensures var r := MonthRecord(name, issues, cfg, basePoints);
      TasksWithSP(r.distribution) + TasksWithoutSP(r.distribution) == r.totalIssues
  {
    DistributionKeys(issues, cfg.customFieldId);
    DistributionTotal(issues, cfg.customFieldId);
    TasksSplit(Distribution(issues, cfg.customFieldId));
  }

  /** `(a, b) => b[1] - a[1]`: larger counts first. */
  function CountKey(e: (string, nat)): SortKey {
    SortKey(-(e.1 as real), 0.0, 0.0)
  }

  /** `mostCommon` before it is rendered: the three largest valued buckets. */
  function MostCommon(dist: Dict<string, nat>): seq<(string, nat)> {
    var s := SortBy(Filter(dist, HasValue), CountKey);
    s[..if |s| < 3 then |s| else 3]
  }

  /** `${p}SP (${c})` */
  function Mention(e: (string, nat)): string {
    e.0 + "SP (" + NatToString(e.1) + ")"
  }

  function MostCommonText(dist: Dict<string, nat>): string {
    Join(Map(MostCommon(dist), Mention), ", ")
  }

  /** `mostCommon` lists up to three valued buckets of the month, by
      descending count. */
  lemma MostCommonOrder(dist: Dict<string, nat>)
    ensures var r := MostCommon(dist);
      var valued := Filter(dist, HasValue);
      |r| == (if |valued| < 3 then |valued| else 3)
      && (forall e :: e in r ==> e in dist && e.0 != "null")
      && (forall i, j :: 0 <= i < j < |r| ==> r[i].1 >= r[j].1)
  {
    var valued := Filter(dist, HasValue);
    var s := SortBy(valued, CountKey);
    var r := MostCommon(dist);
    forall e | e in r ensures e in dist && e.0 != "null" {
      assert e in s;
      SortByMember(valued, CountKey, e);
    }
    MostCommonDescending(dist);
  }

  lemma MostCommonDescending(dist: Dict<string, nat>)
    ensures var r := MostCommon(dist);
      forall i, j :: 0 <= i < j < |r| ==> r[i].1 >= r[j].1
  {
    var valued := Filter(dist, HasValue);
    var s := SortBy(valued, CountKey);
    var r := MostCommon(dist);
    SortBySorted(valued, CountKey);
    forall i, j | 0 <= i < j < |r| ensures r[i].1 >= r[j].1 {
      assert KeyLe(CountKey(s[i]), CountKey(s[j]));
    }
  }

  /** No valued bucket left out of `mostCommon` has a larger count than one
      listed. */
  lemma MostCommonMaximal(dist: Dict<string, nat>, e: (string, nat))
    requires e in dist && e.0 != "null" && e !in MostCommon(dist)
    ensures forall i :: 0 <= i < |MostCommon(dist)| ==> MostCommon(dist)[i].1 >= e.1
  {
    var valued := Filter(dist, HasValue);
    var s := SortBy(valued, CountKey);
    var r := MostCommon(dist);
    FilterMember(dist, HasValue, e);
    SortBySorted(valued, CountKey);
    var k :| 0 <= k < |s| && s[k] == e;
    assert k >= |r|;
    forall i | 0 <= i < |r| ensures r[i].1 >= e.1 {
      assert KeyLe(CountKey(s[i]), CountKey(s[k]));
    }
  }

  /** The update rate column: `'0.00'`, or the percentage of changes per
      issue (its decimal rendering is not modelled). */
  datatype Rate = ZeroRate | Percent(changes: nat, issues: nat)

  function UpdateRate(m: MonthStats): (r: Rate)
    ensures r == ZeroRate <==> m.totalIssues == 0
    ensures r.Percent? ==> r.changes == m.totalChanges && r.issues == m.totalIssues && r.issues > 0
  {
    if m.totalIssues > 0 then Percent(m.totalChanges, m.totalIssues) else ZeroRate
  }

  // ----- The route -----

  /** `req.query`: absent or empty strings fall back to the defaults. */
  datatype Query = Query(mode: Option<string>, direction: Option<string>, base: Option<string>)

  datatype Page =
    | InvalidModePage(heading: string)
    | NoDataPage(mode: string, direction: string)
    | DashboardPage(mode: string, direction: string, fieldName: string, view: Dashboard,
        heatmap: seq<HeatCell>, maxHeat: nat)

  /** The heading of the invalid-mode page, which names only two modes. */
  function InvalidModeHeading(mode: string): string {
    "Invalid mode: " + mode + ". Valid modes are: dev, qa"
  }

  /** `req.query.base ? parseInt(req.query.base) : null` */
  function SelectionOf(base: Option<string>): Selection {
    if Truthy(base) then OnlyBase(ParseInt(base.value)) else AllBases
  }

  function RoutePage(q: Query, files: DataFiles): Page {
    var mode := OrElse(q.mode, "dev");
    var direction := OrElse(q.direction, "up");
    match LookupMode(mode)
    case Err(_) => InvalidModePage(InvalidModeHeading(mode))
    case Ok(cfg) =>
      match LoadData(mode, direction, files)
      case None => NoDataPage(mode, direction)
      case Some(data) =>
        var view := Aggregate(data, SelectionOf(q.base), cfg.basePoints);
        var cells := HeatCells(view.filteredMonths);
        DashboardPage(mode, direction, cfg.fieldName, view, cells, MaxHeat(cells))
  }

  /** `app.get('/', ...)` up to the HTML template. */
  method Route(q: Query, files: DataFiles) returns (page: Page)
    ensures page == RoutePage(q, files)
  {
    var mode := OrElse(q.mode, "dev");
    var direction := OrElse(q.direction, "up");
    var modeConfig := LookupMode(mode);
    if modeConfig.Err? {
      return InvalidModePage(InvalidModeHeading(mode));
    }
    var data := LoadData(mode, direction, files);
    if data.None? {
      return NoDataPage(mode, direction);
    }
    var cfg := modeConfig.value;
    var view := GenerateDashboardData(data.value, SelectionOf(q.base), cfg.basePoints);
    var cells := BuildHeatmap(view.filteredMonths);
    page := DashboardPage(mode, direction, cfg.fieldName, view, cells, MaxHeat(cells));
  }

  // ----- Properties -----

  /** `dev` and `qa` have their own files and every other mode reads the
      QA Board files; `up` picks the Up file and anything else the Down file. */
  lemma DataFileChoice(mode: string, direction: string)
    ensures DataFile(mode, direction) == DevDataUp <==> mode == "dev" && direction == "up"
    ensures DataFile(mode, direction) == DevDataDown <==> mode == "dev" && direction != "up"
    ensures DataFile(mode, direction) == QaDataUp <==> mode == "qa" && direction == "up"
    ensures DataFile(mode, direction) == QaDataDown <==> mode == "qa" && direction != "up"
    ensures DataFile(mode, direction) == QaBoardDataUp <==> mode != "dev" && mode != "qa" && direction == "up"
    ensures DataFile(mode, direction) == QaBoardDataDown <==> mode != "dev" && mode != "qa" && direction != "up"
  {
    assert DevDataUp[31] != DevDataDown[31];
    assert QaDataUp[30] != QaDataDown[30];
    assert QaBoardDataUp[28] != QaBoardDataDown[28];
    assert DevDataUp[7] != QaDataUp[7] && DevDataDown[7] != QaDataDown[7];
    assert DevDataUp[7] != QaBoardDataUp[7] && DevDataDown[7] != QaBoardDataDown[7];
    assert DevDataUp[7] != QaDataDown[7] && DevDataDown[7] != QaDataUp[7];
    assert DevDataUp[7] != QaBoardDataDown[7] && DevDataDown[7] != QaBoardDataUp[7];
    assert QaDataUp[10] != QaBoardDataUp[10] && QaDataDown[10] != QaBoardDataDown[10];
    assert QaDataUp[10] != QaBoardDataDown[10] && QaDataDown[10] != QaBoardDataUp[10];
  }

  /** The text report follows the same choice, and a missing one reads as `''`. */
  lemma ReportFileChoice(mode: string, direction: string, texts: TextFiles)
    ensures ReportFile(mode, direction) == DevReportUp <==> mode == "dev" && direction == "up"
    ensures ReportFile(mode, direction) == QaReportUp <==> mode == "qa" && direction == "up"
    ensures ReportFile(mode, direction) == QaBoardReportUp <==> mode != "dev" && mode != "qa" && direction == "up"
    ensures texts(ReportFile(mode, direction)).None? ==> LoadTextReport(mode, direction, texts) == ""
  {
    assert DevReportUp[31] != DevReportDown[31];
    assert QaReportUp[30] != QaReportDown[30];
    assert QaBoardReportUp[28] != QaBoardReportDown[28];
    assert DevReportUp[7] != QaReportUp[7] && DevReportUp[7] != QaReportDown[7];
    assert DevReportUp[7] != QaBoardReportUp[7] && DevReportUp[7] != QaBoardReportDown[7];
    assert QaReportUp[10] != QaBoardReportUp[10] && QaReportUp[10] != QaBoardReportDown[10];
  }

  /** Which page the route answers with: an unknown mode before any file is
      read, a missing file next, and otherwise the aggregation of
      `generateDashboardHTML` over the file's months with the shared base
      points. */
  lemma RouteOutcome(q: Query, files: DataFiles)
    ensures var mode := OrElse(q.mode, "dev");
      var direction := OrElse(q.direction, "up");
      var page := RoutePage(q, files);
      (page.InvalidModePage? <==> mode !in Keys(Modes))
      && (page.NoDataPage? <==> mode in Keys(Modes) && files(DataFile(mode, direction)).None?)
      && (page.DashboardPage? ==>
        files(DataFile(mode, direction)).Some?
        && page.view == Aggregate(files(DataFile(mode, direction)).value, SelectionOf(q.base), AnalysisBasePoints)
        && page.maxHeat >= 1)
  {
    var mode := OrElse(q.mode, "dev");
    if LookupMode(mode).Ok? {
      SharedBasePoints(mode);
    }
  }

  /** With an empty query the dashboard shows the Story Points Up file with
      no base selected. */
  lemma DefaultQuery(files: DataFiles)
    ensures var page := RoutePage(Query(None, None, None), files);
      files(DevDataUp).None? ==> page == NoDataPage("dev", "up")
    ensures var page := RoutePage(Query(None, None, None), files);
      files(DevDataUp).Some? ==> page.DashboardPage? && page.view == Aggregate(files(DevDataUp).value, AllBases, AnalysisBasePoints)
  {
    RegisteredModes();
    SharedBasePoints("dev");
  }

  /** `?base=0x3` selects base point 3, as does a base written after any
      ECMAScript white space; `?base=0x` selects no base (NaN). */
  lemma BaseSelectionParsed(c: char)
    requires IsSpace(c)
    ensures SelectionOf(Some("0x3")) == OnlyBase(Some(3))
    ensures SelectionOf(Some("0x")) == OnlyBase(None)
    ensures SelectionOf(Some([c] + "3")) == OnlyBase(Some(3))
  {
    ParseIntHexExamples();
    LeadingSpaceSkipped(c, 3);
    assert NatToString(3) == "3";
  }
}
