# Effort-change dashboard: a Dafny model

The system reads issues of one Jira project, month by month. For each
issue it follows the changelog, from issue to history to item, and records
every rise of an effort field that starts from a base point. The field is
Story Points for developers and QA Efforts for QA. From these rises it builds
monthly statistics: the number of issues and of changes, the changes grouped
by base and target, the current-value distribution and the changed keys. It
stores these statistics per month and shows them as text reports and as an
HTML dashboard with a base filter. A legacy generation of scripts does the
same for Story Points alone:

- an all-updates variant with base points 1, 2, 3 and 5;
- a 2-to-higher variant;
- a current-month refresher that shares the all-updates data file;
- its own dashboard.

This project models that core in Dafny. Each file is one module, following
the repository's own files:

| module | models |
|---|---|
| `Config` | `src/config/index.js`: the project, the three effort modes, the base points, the file paths |
| `DateUtils` | `src/utils/date.js`: the month windows, the current month, HTML escaping |
| `Analyzer` | `src/services/analyzer.js`: detection of rises, the distribution, the base/target table, the average effort |
| `Jira` | `src/services/jira.js`: the JQL text and the paged fetch loop, against a given sequence of server responses |
| `DataUpdater` | `src/services/data-updater.js`: refreshing the current month in a stored data set |
| `Monthly`, `AnalyzeAll`, `AnalyzeAllQa`, `AnalyzeAllQaBoard` | the month-by-month report scripts under `src/` |
| `DashboardData`, `DashboardApp` | `src/views/dashboard-data.js` and the computing parts of `src/dashboard-app.js` |
| `LegacyChanges`, `LegacyAllUpdates`, `LegacyScript`, `LegacyCurrentMonth`, `LegacyDashboard` | the scripts under `legacy/` |
| `ChangeScan`, `MonthRuns`, `Sorting`, `Dicts`, `Numbers`, `Common` | shared building blocks, described below |

The shared building blocks:

- `ChangeScan` is the issue → history → item walk, shared by all four detectors.
- `MonthRuns` is the month loop. A month whose fetch throws is skipped, and the loop goes on.
- `Sorting` is the stable sort that `Array.prototype.sort` performs; Sorting.SortByStable proves the stability.
- `Dicts` models JavaScript objects used as dictionaries, as sequences of entries in insertion order.
- `Numbers` models `parseFloat`, `parseInt`, `Number` and decimal rendering.
- `Common` holds sequence helpers.

The source's loops are methods with loop invariants. Each such method is
proved equal to a specification function. Lemmas then state what the
programs promise about those functions: the detection rule in both
directions, the tallies' totals, per-month sums, ordering, and "every other
key is unchanged". Where the same logic appears in several generations of
scripts, lemmas relate the versions; for example, `LegacyScript.TwoIsAllUpdatesFromTwo`
and `LegacyCurrentMonth.SameChangesAsAllUpdates`.

Three behaviours of the code that the model keeps as written:

- `src/analyze-all.js` and `src/analyze-all-qa.js` call `analyzeEffortChanges`
  with `direction` as a fourth argument. `src/services/analyzer.js` declares
  only `(issues, basePoints, mode)`, so the direction is silently dropped and
  the `down` run also reports increases. The direction affects only the file
  paths. `AnalyzeAll.RunBothDirections` and `AnalyzeAllQa.RunBothDirections`
  show that both runs produce the same statistics.
- The invalid-mode page of the dashboard route names only `dev` and `qa` as
  valid modes, although three are registered.
- `generateMonths` keeps the start date's day of the month while it steps
  month by month (see Findings). The scripts' start date, 2025-03-01, is the
  first of a month, so this does not show for them.
  `DateUtils.WindowsAsWrittenAgree` proves that both versions agree for such starts.

## Model

| member | source | states |
|---|---|---|
| Config.ProjectFrom | src/config/index.js:7 | the project key is `JIRA_PROJECT` when that is set and non-empty, and `OPT` otherwise |
| Config.LookupMode | src/config/index.js:9-28 | a mode resolves exactly when it is registered, to its registered configuration; any other name gives the `Invalid mode` message |
| Config.ModeIds | src/config/index.js:9-28 | the registered modes, in registration order, are `dev`, `qa`, `qa-board` |
| Config.RegisteredModes | src/config/index.js:9-28 | a name resolves exactly when it is one of those three |
| Config.InvalidModeText | src/services/analyzer.js:8 | the error text is `Invalid mode: <mode>. Valid modes are: dev, qa, qa-board` |
| Config.ModeFields | src/config/index.js:10-27 | `dev` watches `customfield_10008` / `Story Points`; `qa` and `qa-board` both watch `customfield_14664` / `QA Efforts` |
| Config.ModeIssueTypes | src/config/index.js:11-23 | `qa-board` uses the three development issue types, and `qa` uses only `QA (OPT)` |
| Config.SharedBasePoints | src/config/index.js:14-37 | every mode's base points equal the analysis base points `1, 2, 3, 5, 8, 13, 17, 21, 34`, in strictly increasing order |
| Config.LegacyPathsAreUp | src/config/index.js:49-69 | the backward-compatible data and report paths name the same files as the `up` paths |
| Analyzer.ItemChange | src/services/analyzer.js:21-31 | an item yields a change only when both its field id and its field label are the mode's, its parsed `fromString` is a base point and its parsed `toString` is strictly greater; the change carries the issue's key and both parsed values |
| Analyzer.ItemChangeIff | src/services/analyzer.js:21-31 | the converse as well: an item yields a change exactly when it is the mode's field, `from` is a base point and `to` is a number greater than `from` |
| Analyzer.NaNNeverQualifies | src/services/analyzer.js:22-25 | an item whose `fromString` or `toString` is not a number (NaN) never yields a change |
| Analyzer.NoDecrease | src/services/analyzer.js:25 | an item whose new value is not greater than its old one never yields a change |
| Analyzer.AnalyzeEffortChanges | src/services/analyzer.js:3-38 | an unregistered mode throws `Invalid mode: <mode>. Valid modes are: dev, qa, qa-board`; a registered one returns the scan of the issues, histories and items in order with that mode's field |
| Analyzer.EffortChangesSound | src/services/analyzer.js:14-37 | every reported change starts at a base point, ends strictly higher and belongs to an issue whose key starts with the project prefix `<project>-` |
| Analyzer.AnalyzeStoryPointChanges | src/services/analyzer.js:93 | the backward-compatible alias is the `dev` analysis and never throws |
| Analyzer.AliasIsDev | src/services/analyzer.js:93 | the `dev` mode resolves to the Story Points configuration, and calling with the analysis base points is the same as calling with the dev mode's own base points |
| Analyzer.AnalyzeEffortDistribution | src/services/analyzer.js:40-63 | an unregistered mode throws the same message; otherwise each issue is counted once under `'null'` (missing or null field) or under the field value's string |
| Analyzer.AnalyzeStoryPointDistribution | src/services/analyzer.js:94 | the alias is the `dev` distribution and never throws |
| Analyzer.DistributionTotal | src/services/analyzer.js:51-60 | the bucket counts add up to the number of issues |
| Analyzer.DistributionCount | src/services/analyzer.js:51-60 | the count under a bucket is the number of issues that fall in it (0 for an absent bucket) |
| Analyzer.DistributionKeys | src/services/analyzer.js:51-60 | the buckets are distinct and are exactly the buckets of the given issues |
| Analyzer.GroupChangesByBaseAndTarget | src/services/analyzer.js:65-73 | the loop builds the base → target → count table, one base point at a time |
| Analyzer.CountTargets | src/services/analyzer.js:68-70 | the inner loop tallies, by target value, the changes whose `from` is the base point |
| Analyzer.ByBaseAndTargetGet | src/services/analyzer.js:66-72 | a base point has a (possibly empty) table exactly when it is listed, and that table tallies the targets of the changes from it |
| Analyzer.ByBaseAndTargetKeys | src/services/analyzer.js:66-72 | with distinct base points, the table's keys are the base points in their order |
| Analyzer.TargetCountsTotal | src/services/analyzer.js:68-70 | a base point's counts add up to the number of changes from it |
| Analyzer.ByBaseAndTargetTotal | src/services/analyzer.js:65-73 | with distinct base points, all counts add up to the number of changes from any listed base point |
| Analyzer.ByBaseAndTargetCountsAll | src/services/analyzer.js:3-73 | grouping the changes the analysis found with the same distinct base points counts every change exactly once |
| Analyzer.CalculateAverageEffort | src/services/analyzer.js:75-90 | no distribution gives 0; otherwise the weighted average of the numeric buckets, 0 when they hold no task, and NaN when a non-`'null'` bucket is not a number |
| Analyzer.SumEfforts | src/services/analyzer.js:78-87 | the loop's totals are the weighted sum of the non-`'null'` buckets and the number of tasks in them |
| Analyzer.AverageStep | src/services/analyzer.js:82-87 | one more entry adds its weighted value and its count when it is not `'null'`, and nothing otherwise |
| Analyzer.OnlyNullAverage | src/services/analyzer.js:83-89 | a distribution holding only `'null'` has no task and an average of 0 |
| Analyzer.EffortChanges | src/services/analyzer.js:14-37 | defines what `analyzeEffortChanges` returns for a registered mode: the shared issue → history → item scan with the mode's item rule; ItemChangeIff and EffortChangesSound state its events |
| Analyzer.Distribution | src/services/analyzer.js:49-62 | defines the distribution: the tally of each issue's bucket, `'null'` or `String(value)`; DistributionTotal, DistributionCount and DistributionKeys state its counts and keys |
| Analyzer.ByBaseAndTarget | src/services/analyzer.js:65-73 | defines the table: each base in turn set to the target counts of its changes; ByBaseAndTargetGet, ByBaseAndTargetKeys and ByBaseAndTargetTotal state its keys and totals |
| Jira.Quote | src/services/jira.js:11-12 | a quoted value is the value between two double quotes |
| Jira.BuildJQL | src/services/jira.js:3-15 | the query builder throws exactly for an unregistered mode, with the `Invalid mode` message |
| Jira.QaQuery | src/services/jira.js:11-14 | for `qa` the query is `created >= "<start>" AND project = OPT AND type IN ("QA (OPT)") AND status IN ("Done", "UAT PARTNER", "UAT REPORTER") AND created <= "<end>"` |
| Jira.StatusList | src/services/jira.js:12 | the status clause quotes and comma-joins `Done`, `UAT PARTNER`, `UAT REPORTER` in that order |
| Jira.QaTypeList | src/services/jira.js:11 | the `qa` type clause is the single quoted type `QA (OPT)` |
| Jira.QuotedListUnfold | src/services/jira.js:11-12 | a quoted list of two or more values is the first quoted value, `, `, then the quoted rest |
| Jira.QueryBounds | src/services/jira.js:14 | every query built opens with the quoted start date and the project clause and closes with the quoted end date |
| Jira.StopIndex | src/services/jira.js:31-65 | the loop stops at the first response that is a failure, is marked last or carries no next-page token |
| Jira.FetchAllPages | src/services/jira.js:17-68 | an unregistered mode throws before any request; otherwise one request per response up to the stopping one, the first without a token and each later one with the previous page's token, and the result is that response's HTTP error or every page's issues in order |
| Jira.TokensStep | src/services/jira.js:28-64 | each request after the first sends the token of the previous page |
| Jira.FlattenStep | src/services/jira.js:57-60 | one more page appends its issues to those accumulated |
| Jira.AtStop | src/services/jira.js:62-65 | a stopping response seen before the stop position is the stop position |
| Jira.OutcomeAt | src/services/jira.js:45-67 | the outcome is the stopping response's `HTTP error! status: <status> - <text>` when it failed, and otherwise all pages' issues up to and including it |
| Jira.FlattenAppend | src/services/jira.js:57-60 | the issues of two runs of pages are the issues of the first followed by those of the second |
| Jira.FlattenCons | src/services/jira.js:57-60 | the issues of a run of pages are the first page's issues followed by the rest's |
| Jira.FirstPageLast | src/services/jira.js:62 | a first page marked last ends the loop at once, and its issues are the result |
| Jira.FailureNoPartial | src/services/jira.js:45-49 | the fetch fails exactly when the stopping response is a failure, so a failure discards every page already accumulated |
| Jira.OutcomeUnfold | src/services/jira.js:31-65 | after a page that does not stop the loop, the outcome is that page's issues in front of the outcome of the remaining responses |
| DateUtils.DaysInMonth | src/utils/date.js:17 | the day before the first of the next month (`new Date(year, month + 1, 0)`) is day 28 to 31 of the month, and February has 29 days exactly in a leap year |
| DateUtils.NextMonth | src/utils/date.js:25 | `setMonth(getMonth() + 1)` keeps the date valid and advances one or two months; a day of 28 or less lands on the same day of the next month, and a later day that the next month lacks overflows into the month after |
| DateUtils.ToLower | src/utils/date.js:13 | lower-casing keeps the length |
| DateUtils.LowerMonthNamesAre | src/utils/date.js:1-13 | the twelve month names, lower-cased, are the twelve key prefixes |
| DateUtils.LowerMonthNamesLetters | src/utils/date.js:1-13 | no key prefix holds a digit |
| DateUtils.LowerMonthNamesDistinct | src/utils/date.js:1 | the twelve key prefixes differ |
| DateUtils.MonthKeyDistinct | src/utils/date.js:13 | two different (year, month) pairs have different keys, so `months[key] = …` never overwrites |
| DateUtils.Visits | src/utils/date.js:7-26 | every date the loop visits is a valid calendar date |
| DateUtils.VisitsIncreasing | src/utils/date.js:9-25 | the visited months strictly increase from the start month and none lies after `end` |
| DateUtils.Entries | src/utils/date.js:10-23 | one entry per visited date, in visiting order |
| DateUtils.GenerateMonths | src/utils/date.js:3-29 | the loop, as written, from `startDate` to `end`, builds the windows of the visited dates in order |
| DateUtils.WindowsUnfold | src/utils/date.js:9-26 | a date not after `end` contributes its window, followed by the windows from the next visited date |
| DateUtils.StepWindows | src/utils/date.js:19-25 | storing the current month under its key and moving on keeps what is built, plus what remains, equal to the whole result |
| DateUtils.StepKeyFresh | src/utils/date.js:13-19 | the key stored in a turn was not stored before |
| DateUtils.WindowKey | src/utils/date.js:13 | the i-th key is the key of the i-th visited date |
| DateUtils.WindowsKeysDistinct | src/utils/date.js:13-19 | the keys of the result are distinct |
| DateUtils.WindowsKeys | src/utils/date.js:13-19 | the keys of the result are the keys of the visited dates, in order |
| DateUtils.WindowsEmpty | src/utils/date.js:9 | the result is empty exactly when the start lies after `end` |
| DateUtils.DateAt | src/utils/date.js:20 | the date of a month index is the valid first of that month |
| DateUtils.DateAtIndex | src/utils/date.js:20 | a first of the month is the date of its own month index |
| DateUtils.FirstOfMonth | src/utils/date.js:20 | the first of a date's month has day 1 and the same month |
| DateUtils.GenerateMonthsFromFirst | src/utils/date.js:3-29 | the corrected loop, started from the first of the start month, builds the windows from that first |
| DateUtils.VisitsFromFirst | src/utils/date.js:9-26 | from a first of the month, the loop visits every month from the start month to `end`'s month once, each on its first day |
| DateUtils.WindowsFromFirst | src/utils/date.js:3-29 | from the first of the start month, there is one window for every calendar month from the start month to `end`'s month, in order |
| DateUtils.WindowFromFirstAt | src/utils/date.js:10-23 | the i-th window from the first of the start month is that of the i-th month after it |
| DateUtils.VisitFromFirstAt | src/utils/date.js:25 | the i-th visited date from the first of the start month is the first of the i-th month after it |
| DateUtils.WindowOfVisit | src/utils/date.js:10-23 | there are as many windows as visited dates, and the i-th window belongs to the i-th visited date |
| DateUtils.WindowStart | src/utils/date.js:20 | a window starts on day `01` of its month, written `YYYY-MM-01` with a two-digit month |
| DateUtils.FirstDayText | src/utils/date.js:20 | day 1 is written `01` |
| DateUtils.WindowEnd | src/utils/date.js:15-21 | a window ends on `end`'s day in `end`'s own month and on the month's last day otherwise |
| DateUtils.EntryNaming | src/utils/date.js:12-22 | the key is the lower-case month name followed by the year, and the name is `<Month> <year>` |
| DateUtils.VisitsAsWrittenAgree | src/utils/date.js:7-25 | from a day of 28 or less that is not after `end`'s day, the loop as written visits the same months as from the first of the month |
| DateUtils.WindowsAsWrittenAgree | src/utils/date.js:3-29 | under the same condition the as-written windows equal the corrected ones, as for the callers' `2025-03-01` |
| DateUtils.CurrentMonthIsLastWindow | src/utils/date.js:3-44 | from any start not after today, the last window (from the first of the start month) is today's `getCurrentMonth` |
| DateUtils.LastVisitFromFirst | src/utils/date.js:9-25 | from the first of the start month, the last visited date is the first of `end`'s month |
| DateUtils.LastWindowIsCurrent | src/utils/date.js:15-43 | the window of the first of today's month, up to today, is today's current-month entry |
| DateUtils.CurrentMonthShape | src/utils/date.js:31-44 | the current month runs from the first of today's month to today, under the key `<month><year>` |
| DateUtils.Year2025 | src/utils/date.js:13 | the year 2025 is written `2025` |
| DateUtils.MonthKeys | src/utils/date.js:13 | one key per date |
| DateUtils.Key2025 | src/utils/date.js:13 | a month of 2025 has the key `<month>2025` |
| DateUtils.KeysIn2025 | src/utils/date.js:13 | the keys in 2025 are `january2025`, `february2025`, `march2025`, `april2025`, `may2025` |
| DateUtils.KeysOfTwo | src/utils/date.js:13 | the keys of two dates are their month keys in order |
| DateUtils.KeysOfThree | src/utils/date.js:13 | the keys of three dates are their month keys in order |
| DateUtils.VisitsFromJanuary31 | src/utils/date.js:25 | from 2025-01-31 the loop visits 2025-01-31 and then 2025-03-03 (the 31st of February overflows) |
| DateUtils.VisitsFromJanuary1 | src/utils/date.js:25 | from 2025-01-01 to 2025-03-31 the loop visits the firsts of January, February and March |
| DateUtils.VisitsFromMarch15 | src/utils/date.js:9-25 | from 2025-03-15 to 2025-05-10 the loop visits March 15 and April 15 only |
| DateUtils.VisitsFromMarch1 | src/utils/date.js:9-25 | from 2025-03-01 to 2025-05-10 the loop visits the firsts of March, April and May |
| DateUtils.SkipsFebruaryFromJanuary31 | src/utils/date.js:3-29 | as written, a start on 2025-01-31 gives no `february2025` window; from the first of the month it does |
| DateUtils.MissesEndMonthFromMidMonth | src/utils/date.js:3-29 | as written, a start on 2025-03-15 with `end` 2025-05-10 gives no `may2025` window; from the first of the month it does |
| DateUtils.ReplaceAllAppend | src/utils/date.js:47-51 | a global single-character replacement of a concatenation is the concatenation of the replacements |
| DateUtils.ReplaceAllAbsent | src/utils/date.js:47-51 | a replacement leaves a text without that character unchanged |
| DateUtils.ReplaceAllOne | src/utils/date.js:47-51 | on one character the replacement substitutes it exactly when it is the target |
| DateUtils.EscapeHtmlAppend | src/utils/date.js:46-51 | escaping a concatenation is the concatenation of the escaped parts |
| DateUtils.LaterPassesKeep | src/utils/date.js:48-51 | the passes after `&` leave unchanged a text that holds none of `<`, `>`, `"`, `'` |
| DateUtils.EscapeHtmlChar | src/utils/date.js:46-51 | a single character escapes to `&amp;`, `&lt;`, `&gt;`, `&quot;`, `&#039;` or to itself, so the `&` of an entity added later is never escaped again |
| DateUtils.EscapeHtmlEach | src/utils/date.js:46-51 | the five chained replacements equal escaping each character on its own |
| DateUtils.EscapeEachPlain | src/utils/date.js:46-51 | escaping each character of a text free of the five special characters leaves it unchanged |
| DateUtils.EscapeHtmlPlain | src/utils/date.js:46-51 | a text free of the five special characters escapes to itself |
| DateUtils.GetCurrentMonth | src/utils/date.js:31-44 | defines `getCurrentMonth()` for a given `today`: the month's key and a window from day 01 to today; CurrentMonthShape and CurrentMonthIsLastWindow state its fields |
| DateUtils.EscapeHtml | src/utils/date.js:46-51 | defines `escapeHtml` as its five global replacements in turn, `&` first; EscapeHtmlEach, EscapeHtmlChar and EscapeHtmlPlain state what it does to each character |
| Monthly.FormatResults | src/analyze-all.js:12-43 | the month's report section holds the month name, the issue count, the Increases/Decreases heading and the change count, then, when there are changes, a section per base point (in base-point order) that has changes |
| Monthly.SectionBases | src/analyze-all.js:23-26 | the sections are for exactly the base points some change starts from, in base-point order |
| Monthly.SectionContent | src/analyze-all.js:24-37 | each section is for a listed base point, counts the changes from it (at least one) and lists their target lines |
| Monthly.NoChangesNoSections | src/analyze-all.js:15-17 | the change count is the number of changes, no changes means no sections, and the heading is `Increases` exactly for `up` |
| Monthly.TargetLinesAscending | src/analyze-all.js:33 | the target lines of a section are in strictly ascending numeric target order |
| Monthly.TargetLinesKeys | src/analyze-all.js:28-35 | each target line lists the keys of that section's changes to that target, in change order |
| Monthly.TargetLinesTargets | src/analyze-all.js:28-34 | a target has a line exactly when some change of the section goes to it |
| Monthly.ProcessMonth | src/analyze-all.js:56-77 | one month either stores the record of its fetched issues (issue count, change count, base/target table, distribution, changes) and adds its formatted section, or, when the fetch or the analysis throws, stores nothing and adds `\n<name>: ERROR - <message>\n` |
| Monthly.KnownModeAttempt | src/analyze-all.js:56-77 | for a registered mode a month fails exactly when its fetch fails, with the fetch's message, and otherwise stores the record of the fetched issues |
| Monthly.RunMonths | src/analyze-all.js:53-78 | the month loop stores the records of the successful months under their keys and adds one report entry per month, in month order |
| Monthly.StatsKeysFromMonths | src/analyze-all.js:62 | only month keys are stored |
| Monthly.StatsAt | src/analyze-all.js:53-78 | with distinct month keys, a month's key holds its record when its attempt succeeded and nothing when it failed |
| Monthly.GrandTotals | src/analyze-all.js:112-113 | the grand totals add up the issue counts and the change counts of the stored months |
| Monthly.GrandTotalsOverSuccesses | src/analyze-all.js:56-113 | the grand totals are the sums, over all months, of what each successful month found, a failed month counting 0 |
| Monthly.RecordShape | src/analyze-all.js:58-69 | a record's change count is the number of its keys, its base/target table holds every analysis base point and counts every change, and its distribution counts every issue |
| AnalyzeAll.Run | src/analyze-all.js:45-162 | `main(direction)` over the months from the start date to today: the stored records, the report entries, the grand totals over them, and the `dev` data and report paths of the direction |
| AnalyzeAll.RunBothDirections | src/analyze-all.js:164-173 | the `up` and `down` runs store the same records (the analyzer ignores the direction) and the same totals, but write them to different files |
| AnalyzeAll.PathChoice | src/analyze-all.js:143-148 | `up` selects the Up data and report files and every other direction the Down files |
| AnalyzeAll.MonthsCovered | src/analyze-all.js:48 | there is one month for each calendar month from March 2025 to today's month, in order, with distinct keys |
| AnalyzeAll.GrandTotalsCountSuccesses | src/analyze-all.js:74-113 | the grand totals count the months whose fetch succeeded, and only those |
| AnalyzeAll.StoredMonths | src/analyze-all.js:56-77 | a month whose fetch failed has no entry, and one whose fetch succeeded holds the Story Points record of its issues |
| AnalyzeAllQa.Run | src/analyze-all-qa.js:46-154 | `main(direction)` in `qa` mode: the stored records, the report entries, the summary totals, the summary line and the QA data and report paths of the direction |
| AnalyzeAllQa.RunBothDirections | src/analyze-all-qa.js:156-165 | both runs store the same records and print the same summary line, to different files |
| AnalyzeAllQa.PathChoice | src/analyze-all-qa.js:134-139 | `up` selects the QA Up files and every other direction the QA Down files |
| AnalyzeAllQa.SummaryWording | src/analyze-all-qa.js:127 | the summary line reads `Total QA Efforts Increases: <n>` whatever the direction |
| AnalyzeAllQa.TotalsCountSuccesses | src/analyze-all-qa.js:75-124 | the summary totals count the months whose `qa` fetch succeeded, and only those |
| AnalyzeAllQa.StoredMonths | src/analyze-all-qa.js:57-70 | a month whose fetch failed has no entry, and one whose fetch succeeded holds the QA Efforts record (on `customfield_14664`) of its issues |
| AnalyzeAllQaBoard.BoardMode | src/analyze-all-qa-board.js:9-10 | `qa-board` is registered, with the QA Board settings |
| AnalyzeAllQaBoard.PushTransitions | src/analyze-all-qa-board.js:73-78 | the transition loop appends `base → target: count issues` for each base point in order and each target of that base's table (an empty table for a missing base) in entry order |
| AnalyzeAllQaBoard.AnalyzeMonth | src/analyze-all-qa-board.js:31-46 | a fetched month's record is the `qa-board` record of its issues |
| AnalyzeAllQaBoard.PushMonthLines | src/analyze-all-qa-board.js:65-79 | a successful month appends its name, the dash rule, its issue, increase and update-rate lines, and its transitions only when it has changes |
| AnalyzeAllQaBoard.MonthUnfold | src/analyze-all-qa-board.js:27-87 | one more month adds its record when its attempt succeeds and nothing otherwise |
| AnalyzeAllQaBoard.SuccessStep | src/analyze-all-qa-board.js:39-79 | a successful month stores its record, appends its lines and adds its issues and changes to the counters |
| AnalyzeAllQaBoard.FailureStep | src/analyze-all-qa-board.js:81-86 | a failed month only appends its name, the dash rule and `ERROR: <message>`; the stored data and the counters are unchanged |
| AnalyzeAllQaBoard.ProcessMonth | src/analyze-all-qa-board.js:30-86 | the `try`/`catch` body moves the accumulators from the months before to the months up to this one |
| AnalyzeAllQaBoard.RunBoard | src/analyze-all-qa-board.js:27-87 | the loop leaves the stored data, the month lines and the counters of all months |
| AnalyzeAllQaBoard.FrameReport | src/analyze-all-qa-board.js:89-99 | the report is the five header lines, the month lines, then the summary lines |
| AnalyzeAllQaBoard.Run | src/analyze-all-qa-board.js:8-120 | `main()` stores the successful months' `qa-board` records, frames the month lines, keeps counters equal to the sums over the stored months, and writes to the QA Board data and report paths |
| AnalyzeAllQaBoard.MonthLinesShape | src/analyze-all-qa-board.js:65-86 | each month's lines begin with its name and the dash rule; a failed month has just its error line after them, while a successful one has at least five lines, and more than five exactly when it has changes |
| AnalyzeAllQaBoard.TransitionsOfTargets | src/analyze-all-qa-board.js:75-77 | the transition lines of one base add up to that base's total |
| AnalyzeAllQaBoard.TransitionLinesSum | src/analyze-all-qa-board.js:73-78 | listing a table's bases in key order accounts for all of its counts |
| AnalyzeAllQaBoard.TableTransitions | src/analyze-all-qa-board.js:73-78 | listing a base/target table by its distinct base points accounts for all of its counts |
| AnalyzeAllQaBoard.TransitionsCoverChanges | src/analyze-all-qa-board.js:33-78 | the transition counts of a successful month add up to its number of changes |
| AnalyzeAllQaBoard.TotalsCountSuccesses | src/analyze-all-qa-board.js:48-98 | the counters count the months that succeeded, and only those |
| DataUpdater.UpdateCurrentMonth | src/services/data-updater.js:8-65 | an unregistered mode is rejected before anything is fetched; a failing fetch rejects with its message; otherwise the current month's record (on the mode's field, with the analysis base points) is stored under the current month's key in the existing file's contents, or in `{}` when there is no file, and that map is written to the mode's data path and returned |
| DataUpdater.PathChoice | src/services/data-updater.js:17 | `dev` writes the Story Points file and every other mode, `qa-board` included, the QA Efforts file |
| DataUpdater.MergeTouchesOneKey | src/services/data-updater.js:43-49 | the merge sets the current month's key, leaves every other key as it was, and appends the key only when it is new |
| DataUpdater.NoFileOneKey | src/services/data-updater.js:43-49 | without a data file the result holds exactly the current month |
| DataUpdater.MergeIdempotent | src/services/data-updater.js:49 | merging the same record twice gives the file of the first merge |
| DataUpdater.CurrentMonthKey | src/services/data-updater.js:16 | the current month is the window `generateMonths` gives today's month, from day 01 to today |
| DataUpdater.Merged | src/services/data-updater.js:43-49 | defines `allData` after `allData[currentMonth.key] = monthData`, starting from the file's contents or `{}`; MergeTouchesOneKey, NoFileOneKey and MergeIdempotent state its properties |
| DashboardData.CollectTransitions | src/views/dashboard-data.js:9-18 | the nested loops collect each `base→target` pair of an included base once, in first-seen order over months, bases and targets |
| DashboardData.AddTargetsContents | src/views/dashboard-data.js:13-15 | adding a base's targets to the set keeps it duplicate-free and adds exactly the pairs of that base and those targets |
| DashboardData.AddBasesContents | src/views/dashboard-data.js:11-17 | one month adds exactly the pairs of its included, listed bases and their targets |
| DashboardData.AllTransitionsContents | src/views/dashboard-data.js:9-18 | the transition set is duplicate-free and holds a pair exactly when some month has that target under an included base |
| DashboardData.SortedTransitionsOrder | src/views/dashboard-data.js:20-24 | the sorted transitions are the same pairs, ordered by base and then by target, strictly |
| DashboardData.FilterMonth | src/views/dashboard-data.js:28-49 | one month is rebuilt with the table of its included bases, a change total recomputed from those tables, and its keys restricted to the selected base |
| DashboardData.FilterMonths | src/views/dashboard-data.js:28-49 | every month is rebuilt that way, in order |
| DashboardData.FilteredTableContents | src/views/dashboard-data.js:32-34 | the filtered table holds, in base-point order, the table (or `{}`) of exactly the included bases |
| DashboardData.IncludedSumContents | src/views/dashboard-data.js:35-37 | the recomputed change total is the sum of the included bases' counts |
| DashboardData.OnlyBaseKept | src/views/dashboard-data.js:12-33 | with a selected base, only that base is included, and none when it is not a listed base point (or NaN) |
| DashboardData.AllBasesWholeTable | src/views/dashboard-data.js:28-49 | with no selection, a month whose table has exactly the base points is unchanged except that its change total becomes the sum of its table |
| DashboardData.AllBasesKeepsRecord | src/views/dashboard-data.js:28-49 | with no selection, a record written by the analysis is left exactly as it is |
| DashboardData.OnlyBaseMonth | src/views/dashboard-data.js:28-49 | with a selected base, a month keeps only that base's table and its total, only the keys whose `parseInt(from)` is that base, and its name, issue count and distribution |
| DashboardData.FilteredMonthsShape | src/views/dashboard-data.js:28-52 | there is one filtered month per month, with the same key, name, issue count and distribution and the recomputed change total |
| DashboardData.GrandTotals | src/views/dashboard-data.js:67-68 | the grand total of issues ignores the selection, and the grand total of changes sums the included bases' counts of every month |
| DashboardData.TransitionTotalsContents | src/views/dashboard-data.js:70-74 | the per-transition totals have exactly the sorted transitions as keys, each the sum over the filtered months of that cell (0 where absent) |
| DashboardData.TotalEffortByPoint | src/views/dashboard-data.js:78-86 | the loop adds every month's non-`'null'` buckets into one distribution |
| DashboardData.AddToCount | src/views/dashboard-data.js:83 | adding to a bucket raises that bucket's count by the amount and no other |
| DashboardData.AddBucket | src/views/dashboard-data.js:81-85 | one entry adds its count to its bucket unless it is `'null'`, keeping the buckets distinct |
| DashboardData.AddDistributionContents | src/views/dashboard-data.js:81-85 | adding a month's distribution adds exactly its non-`'null'` buckets and their counts |
| DashboardData.EffortByPointContents | src/views/dashboard-data.js:78-86 | the effort totals hold each non-`'null'` bucket of some month once, with the sum of its counts over all months |
| DashboardData.PieChart | src/views/dashboard-data.js:88-89 | the pie labels are those buckets in ascending numeric order without `'null'`, and each slice is the bucket's total over all months |
| DashboardData.PieIgnoresSelection | src/views/dashboard-data.js:28-86 | the pie is the same whatever base is selected, since filtering leaves the distributions alone |
| DashboardData.GenerateDashboardData | src/views/dashboard-data.js:5-107 | the aggregate returned is built from the filtered months, the sorted transitions, one data row per transition, the per-month totals and grand totals, the per-transition totals and the pie, as the lemmas above state each part |
| DashboardData.Aggregate | src/views/dashboard-data.js:5-107 | defines the values `generateDashboardHTML` computes before it renders them; GenerateDashboardData and the lemmas above state their properties |
| DashboardApp.DataFileChoice | src/dashboard-app.js:15-32 | `dev` and `qa` read their own data files, every other mode reads the QA Board file, and `up` picks the Up file while any other direction picks the Down file |
| DashboardApp.ReportFileChoice | src/dashboard-app.js:34-50 | the text report follows the same choice, and a missing report reads as the empty text |
| DashboardApp.Route | src/dashboard-app.js:52-174 | the `/` route, up to the HTML: an invalid-mode page, a no-data page, or the dashboard of the loaded months with its heatmap |
| DashboardApp.RouteOutcome | src/dashboard-app.js:52-174 | with `dev` and `up` as defaults, the page is the invalid-mode page exactly for an unregistered mode and the no-data page exactly when the chosen file is missing; otherwise it shows the aggregate of that file with the selected base, and its heat scale is at least 1 |
| DashboardApp.BaseSelectionParsed | src/dashboard-app.js:68 | `?base=0x3` selects base point 3, as does a base after any ECMAScript white space, and `?base=0x` selects no base (NaN) |
| DashboardApp.DefaultQuery | src/dashboard-app.js:53-68 | a query without parameters reads the `dev` Up file and shows every base point, or says that no data was found |
| DashboardApp.PushCategoryCells | src/dashboard-app.js:159-171 | the inner loop pushes a cell for each category, in category order, whose count is positive |
| DashboardApp.BuildHeatmap | src/dashboard-app.js:155-172 | the outer loop pushes the cells of each filtered month in month order |
| DashboardApp.CategoryCellsContents | src/dashboard-app.js:159-171 | a cell is pushed for a month exactly for a category with a positive count, at that category's position and with that count |
| DashboardApp.HeatCellsContents | src/dashboard-app.js:155-172 | a heat cell exists exactly for a month and a category (`1`, `2`, `3`, `5`, `8`, or `13+` for every numeric bucket of 13 or more) whose count is positive |
| DashboardApp.MaxHeat | src/dashboard-app.js:174 | the heat scale is at least 1, bounds every cell, and is either 1 or the value of some cell |
| DashboardApp.TasksSplit | src/dashboard-app.js:1083-1086 | with distinct buckets, the tasks with a value and those under `'null'` make up every task of the month |
| DashboardApp.RecordTasks | src/dashboard-app.js:1083-1086 | for a record written by the analysis, those two columns add up to the month's issue count |
| DashboardApp.MostCommonOrder | src/dashboard-app.js:1097-1102 | the top column lists the three valued buckets of largest count (fewer when there are fewer), none of them `'null'`, by descending count |
| DashboardApp.MostCommonDescending | src/dashboard-app.js:1099 | the listed buckets are in descending count order |
| DashboardApp.MostCommonMaximal | src/dashboard-app.js:1097-1100 | a valued bucket left out of the column has a count no larger than any listed one |
| DashboardApp.UpdateRate | src/dashboard-app.js:901-903 | the update rate is `0.00` exactly for a month without issues, and otherwise the ratio of its changes to its issues |
| DashboardApp.LoadData | src/dashboard-app.js:15-32 | defines `loadData(mode, direction)`: the parsed file at the chosen path, or `null` when it is missing; DataFileChoice states the path chosen |
| DashboardApp.LoadTextReport | src/dashboard-app.js:34-50 | defines `loadTextReport(mode, direction)`: the report text at the chosen path, or `''` when it is missing; ReportFileChoice states the path chosen |
| DashboardApp.RoutePage | src/dashboard-app.js:52-174 | defines the page the `/` route builds: the invalid-mode page, the no-data page, or the dashboard values with the heatmap; RouteOutcome states which one is built |
| DashboardApp.HighBucket | src/dashboard-app.js:163 | defines the `13+` filter: a bucket other than `'null'` whose `parseFloat` is at least 13, a NaN failing; HeatCellsContents uses it |
| DashboardApp.MostCommon | src/dashboard-app.js:1097-1100 | defines `mostCommon` before rendering: the buckets other than `'null'`, sorted by descending count, the first three kept; MostCommonOrder, MostCommonDescending and MostCommonMaximal state its order |
| LegacyChanges.Author | legacy/script-all-updates.js:105 | the author is the history's display name when it is set and non-empty, and `Unknown` otherwise |
| LegacyChanges.SameSettings | legacy/script-all-updates.js:7-95 | the hard-coded prefix `OPT-`, field id and field label are the `dev` mode's, and the base points `1, 2, 3, 5` are distinct analysis base points |
| LegacyAllUpdates.RawItemChange | legacy/script-all-updates.js:95-107 | an item yields a change only for the Story Points field, with a base `from` and a strictly greater `to`; the change keeps the item's own `from`/`to` strings, the history's date and its author |
| LegacyAllUpdates.RawItemChangeIff | legacy/script-all-updates.js:95-99 | the converse as well: an item yields a change exactly when it is the Story Points field, its `from` parses to a base point and its `to` to a larger number |
| LegacyAllUpdates.AnalyzeStoryPointChanges | legacy/script-all-updates.js:87-114 | the loop scans issues, histories and items in order and pushes each qualifying change of a key starting with `OPT-` |
| LegacyAllUpdates.RawMatchesModern | legacy/script-all-updates.js:87-114 | parsing each change's strings gives exactly what the shared analyzer reports for the `dev` mode with base points `1, 2, 3, 5` |
| LegacyAllUpdates.RawChangesSound | legacy/script-all-updates.js:91-106 | every change belongs to an `OPT-` key, starts at a base point and rises |
| LegacyAllUpdates.AnalyzeStoryPointDistribution | legacy/script-all-updates.js:116-126 | the distribution counts each issue once under `'null'` or under its Story Points' string, as the shared analyzer does for `dev` |
| LegacyAllUpdates.GroupByBaseAndTarget | legacy/script-all-updates.js:190-196 | the loop gives each base point, in order, the tally of its changes by their `to` string |
| LegacyAllUpdates.CountTargets | legacy/script-all-updates.js:191-194 | the inner reduce tallies, by `to` string, the changes whose parsed `from` is the base point |
| LegacyAllUpdates.TableStep | legacy/script-all-updates.js:190-196 | storing one more base point's tally extends the table by that base point |
| LegacyAllUpdates.GetSnocPut | legacy/script-all-updates.js:191 | storing a new key appends it |
| LegacyAllUpdates.RawTableKeys | legacy/script-all-updates.js:190-196 | the table's keys are the base points `1, 2, 3, 5` in order |
| LegacyAllUpdates.RawTableCounts | legacy/script-all-updates.js:190-196 | the table's counts add up to the sum over the base points of the changes from each |
| LegacyAllUpdates.RawTableTotal | legacy/script-all-updates.js:187-196 | the table built from the month's changes counts every change exactly once |
| LegacyAllUpdates.RecordShape | legacy/script-all-updates.js:198-205 | a record has one key per change, a table over exactly the base points that counts every change, a distribution that counts every issue, and only `OPT-` keys from base points |
| LegacyAllUpdates.FormatResults | legacy/script-all-updates.js:128-173 | the month section holds the month name, the issue count, a section per base point with changes, the no-changes marker and the total |
| LegacyAllUpdates.FormatSections | legacy/script-all-updates.js:139-153 | the loop prints a section for each base point, in order, that has a target group |
| LegacyAllUpdates.GroupsCount | legacy/script-all-updates.js:129-147 | the target groups of some changes hold all of them, and there is a group exactly when there is a change |
| LegacyAllUpdates.GroupsOrder | legacy/script-all-updates.js:131-141 | the groups are in ascending numeric order of their target, and each holds the changes to that target in change order |
| LegacyAllUpdates.GroupsAscending | legacy/script-all-updates.js:141 | the groups are in ascending numeric order of their target |
| LegacyAllUpdates.GroupsSelect | legacy/script-all-updates.js:131-146 | each group holds exactly the changes to its target, in change order |
| LegacyAllUpdates.SectionBases | legacy/script-all-updates.js:139-144 | the sections are for exactly the base points that have a target group, in order |
| LegacyAllUpdates.SectionContent | legacy/script-all-updates.js:140-152 | each section is for a listed base point and lists its (non-empty) groups |
| LegacyAllUpdates.FormattedSections | legacy/script-all-updates.js:128-153 | a month's sections are for exactly the base points some change starts from, and each section's groups hold all of that base point's changes |
| LegacyAllUpdates.NoChangesFound | legacy/script-all-updates.js:155-170 | `No changes found` is printed exactly when there is no change, the total is the number of changes, and no change means no section |
| LegacyAllUpdates.ProcessMonth | legacy/script-all-updates.js:185-213 | one month stores its record and adds its section, or stores nothing and adds its ERROR line when the fetch throws |
| LegacyAllUpdates.RunMonths | legacy/script-all-updates.js:182-214 | the loop stores the successful months' records and adds one entry per month, in month order |
| LegacyAllUpdates.Run | legacy/script-all-updates.js:175-286 | `main()` over the as-written months from 2025-03-01 to today: the stored records, the entries, the grand totals over the stored months and the two file names |
| LegacyAllUpdates.TotalsCountSuccesses | legacy/script-all-updates.js:210-249 | the grand totals count the months whose fetch succeeded, and only those |
| LegacyAllUpdates.StoredMonths | legacy/script-all-updates.js:185-213 | a month whose fetch failed has no entry and reports its ERROR line; one whose fetch succeeded holds the record of its issues and reports their formatted section |
| LegacyScript.TwoItemChange | legacy/script.js:94-104 | an item yields a change only for the Story Points field with a `fromString` that is exactly `'2'` and a `toString` that parses to more than 2; the change keeps the item's strings, the history's date and its author |
| LegacyScript.TwoItemChangeIff | legacy/script.js:94-97 | the converse as well: an item yields a change exactly under those four conditions |
| LegacyScript.AnalyzeStoryPointChanges | legacy/script.js:86-111 | the loop scans issues, histories and items in order and pushes each qualifying change of a key starting with `OPT-` |
| LegacyScript.TwoChangesSound | legacy/script.js:90-104 | every change belongs to an `OPT-` key, has `from` exactly `'2'` and a `to` above 2 |
| LegacyScript.ParseWhole | legacy/script.js:96-97 | `parseFloat` of a whole number written in decimal gives back that number |
| LegacyScript.ParseTwo | legacy/script.js:96-97 | a `fromString` of exactly `'2'` parses to 2, so every reported change is a rise from 2 |
| LegacyScript.TwoRuleFiltered | legacy/script.js:94-97 | on one item, this detector is the all-updates detector restricted to a `from` of `'2'` |
| LegacyScript.TwoIsAllUpdatesFromTwo | legacy/script.js:86-111 | the 2-to-higher changes are the all-updates changes whose `from` is the string `'2'`, in the same order |
| LegacyScript.OtherTwoTextsExcluded | legacy/script.js:96 | a `from` text other than `'2'` that parses to 2 (such as `'2.0'`) is taken by the all-updates detector and not by this one |
| LegacyScript.CountByTarget | legacy/script.js:159-162 | the reduce builds the per-`to` tally of the month's changes, whose properties RecordShape states |
| LegacyScript.RecordShape | legacy/script.js:164-170 | `byTarget` holds each target once, counts every change once and counts, for a target, the changes to it; `keys` is the `{key, to}` projection of the changes |
| LegacyScript.FormattingShape | legacy/script.js:113-143 | `No changes found` is printed exactly when there is no change, and then no group; the groups are in ascending numeric order of target, each holds its target's changes in order, and their sizes add up to the total |
| LegacyScript.ProcessMonth | legacy/script.js:155-178 | one month stores its record and adds its section, or stores nothing and adds its ERROR line when the fetch throws |
| LegacyScript.RunMonths | legacy/script.js:152-179 | the loop stores the successful months' records and adds one entry per month, in month order |
| LegacyScript.TotalsCountSuccesses | legacy/script.js:175-197 | the grand totals count the months whose fetch succeeded, and only those |
| LegacyScript.StoredMonths | legacy/script.js:155-178 | a month whose fetch failed has no entry and reports its ERROR line; one whose fetch succeeded holds its own record |
| LegacyScript.AllTargetKeysIn | legacy/script.js:181 | a target is collected exactly when some stored month has it |
| LegacyScript.SortedTargetsSpec | legacy/script.js:181-182 | the comparison's targets are distinct, in ascending numeric order, and are exactly the targets of the stored months |
| LegacyScript.RowsAddUp | legacy/script.js:188-194 | every comparison row has one cell per target, and a month's cells add up to its change total |
| LegacyScript.RowAddsUp | legacy/script.js:192 | the cells of one stored month add up to its change total |
| LegacyScript.GrandTotalByTarget | legacy/script.js:198-203 | the reduce adds every month's `byTarget` into one table, whose counts GrandByTargetCount and GrandTotal state |
| LegacyScript.GrandByTargetCount | legacy/script.js:198-203 | the grand count of a target is the sum of the months' counts for it |
| LegacyScript.GrandKeys | legacy/script.js:198-203 | the grand table holds each target once, and only targets some month has |
| LegacyScript.GrandTotal | legacy/script.js:196-203 | the grand table counts every change of every stored month once |
| LegacyScript.TotalRowAddsUp | legacy/script.js:205-207 | the TOTAL row's target cells add up to the grand total of changes |
| LegacyScript.StoredRecordsTallied | legacy/script.js:159-170 | every record the month loop stores keeps each target once in `byTarget`, and its counts add up to its `totalChanges` |
| LegacyScript.Run | legacy/script.js:145-235 | `main()` over the as-written months from 2025-03-01 to today: the stored records, the entries, the sorted targets, one comparison row per stored month, the grand totals and the TOTAL row's cells, and the two file names |
| LegacyScript.SortedTargets | legacy/script.js:181-182 | defines `sortedTargets`: the distinct targets of all stored months, sorted by `parseFloat`; SortedTargetsSpec states its properties |
| LegacyScript.Comparison | legacy/script.js:188-194 | defines the comparison rows, one per stored month with its count for each sorted target, 0 where it has none; RowsAddUp states their sums |
| LegacyScript.GrandByTarget | legacy/script.js:198-203 | defines `grandTotalByTarget` as each month's `byTarget` added in turn; GrandByTargetCount, GrandKeys and GrandTotal state its counts |
| LegacyCurrentMonth.AnalyzeStoryPointChanges | legacy/fetch-current-month.js:72-97 | the reduce yields the numeric `{key, from, to}` rises from a base point of 1, 2, 3 or 5, which is the shared rise detector with the legacy base points |
| LegacyCurrentMonth.AnalyzeCurrentMonth | legacy/fetch-current-month.js:116-157 | for the current month from day 01 to today: a failed fetch ends the run with its error and writes nothing; otherwise the file's object gets the month's record under the month's key |
| LegacyCurrentMonth.RecordShape | legacy/fetch-current-month.js:126-146 | every change rises from a base point; the distribution counts every issue once; `byBaseAndTarget` has every base point, each with the counts of its own changes, adding up to `totalChanges`, which is the number of `keys` |
| LegacyCurrentMonth.SameChangesAsAllUpdates | legacy/fetch-current-month.js:72-97 | the changes are those the all-updates script finds in the same issues, with their strings read as numbers |
| LegacyCurrentMonth.MergeTouchesOneKey | legacy/fetch-current-month.js:148-155 | the merge stores the record under the month's key, leaves every other month as it was, and adds the key at the end only when it is new |
| LegacyCurrentMonth.RerunSameFile | legacy/fetch-current-month.js:148-157 | running again on the same day with the same issues writes the same file |
| LegacyCurrentMonth.CurrentMonthIsLastListed | legacy/fetch-current-month.js:9-22 | the month stored is the month the all-updates script lists last for the same day, under the same key, from day 01 to today |
| LegacyCurrentMonth.Merged | legacy/fetch-current-month.js:148-155 | defines the file's object after `allData[currentMonth.key] = monthData`, starting from the parsed file or `{}`; MergeTouchesOneKey and RerunSameFile state its properties |
| LegacyDashboard.GroupKeys | legacy/dashboard.js:436-440 | the loop builds the per-target lists of issue keys whose properties DetailGroups states |
| LegacyDashboard.ChangeRate | legacy/dashboard.js:361-363 | the rate is `'0.00'` exactly when the month has no issues; otherwise it is the month's changes over its issues, with more than zero issues |
| LegacyDashboard.Render | legacy/dashboard.js:25-464 | the `/` route builds the page the model's `PageOf` describes, whose properties PageShape, DatasetsShape, GrandTotalsAddUp and ReportEscaped state |
| LegacyDashboard.MonthDetailOf | legacy/dashboard.js:433-452 | one month's detail block, whose properties DetailGroups states |
| LegacyDashboard.MonthDetails | legacy/dashboard.js:433-456 | the details tab has one block per month, in the file's order |
| LegacyDashboard.PageShape | legacy/dashboard.js:25-370 | the no-data page is sent exactly when the file is missing; otherwise the labels, the change and issue series, the rates and the detail blocks have one entry per month, in order, holding that month's name, changes and issues, with a zero rate exactly for a month with no issues |
| LegacyDashboard.DatasetsShape | legacy/dashboard.js:33-48 | the targets are each target of some month, once each, in ascending numeric order; there is one dataset per target, holding each month's count for it, 0 when the month lacks it |
| LegacyDashboard.GrandTotalsAddUp | legacy/dashboard.js:50-378 | the grand totals add up the months' issues and changes; each TOTAL cell is the sum of its target's dataset, and the cells add up to the grand total of changes |
| LegacyDashboard.DetailGroups | legacy/dashboard.js:433-452 | a month gets no block exactly when it has no keys; otherwise its groups are in ascending numeric order of target, hold each target of its keys once and only those, list a target's issue keys in order, and add up to the number of keys |
| LegacyDashboard.GroupsAscending | legacy/dashboard.js:445 | groups sorted by `parseFloat` of the target are in ascending numeric order |
| LegacyDashboard.PairKeys | legacy/dashboard.js:437-440 | the targets of the `{key, to}` pairs are exactly the targets of the keys |
| LegacyDashboard.ReportEscaped | legacy/dashboard.js:18-23 | the report tab shows the report text with HTML escaped, and is empty when the report file is missing |
| LegacyDashboard.PageOf | legacy/dashboard.js:25-464 | defines the values the `/` route puts into the page; PageShape, DatasetsShape, GrandTotalsAddUp, DetailGroups and ReportEscaped state their properties |
| ChangeScan.ScanChanges | src/services/analyzer.js:14-37 | the reduce over issues, histories and items pushes the events of the matching items of prefixed issues, in order |
| ChangeScan.ForeignIssueIgnored | src/services/analyzer.js:17 | an issue whose key lacks the project prefix contributes nothing, wherever it sits in the list |
| ChangeScan.ScanOnlyPrefixed | src/services/analyzer.js:17 | scanning only the prefixed issues gives the same events as scanning them all |
| ChangeScan.ScanSound | src/services/analyzer.js:19-34 | a property every event of a prefixed item has holds for every event of the scan |
| ChangeScan.ScanMap | src/services/analyzer.js:19-34 | two item rules that differ by a mapping of their events give scans that differ by the same mapping |
| ChangeScan.ScanFilter | src/services/analyzer.js:19-34 | an item rule that is another rule filtered by a predicate gives that rule's scan filtered by the predicate |
| MonthRuns.CollectKeys | src/analyze-all.js:53-78 | the month loop stores only keys of listed months |
| MonthRuns.CollectSound | src/analyze-all.js:56-73 | a property of every successful month's record holds for every stored record |
| MonthRuns.CollectAt | src/analyze-all.js:56-78 | a listed month is stored with its own record when its fetch succeeds, and is absent when it throws |
| MonthRuns.CollectSum | src/analyze-all.js:53-78 | summing a measure over the stored records sums it over the listed months whose fetch succeeded |
| Sorting.SortBySorted | src/analyze-all.js:33 | the sort leaves its input in order of the key, with the same length and the same elements |
| Sorting.SortByDistinct | src/analyze-all.js:33 | sorting distinct elements keeps them distinct |
| Sorting.SortByStable | src/analyze-all.js:33 | the sort is stable, as `Array.prototype.sort` is: for every sort key, the elements with that key come out in the order they went in |
| Sorting.SortByKeys | src/analyze-all.js:87-91 | sorting the entries of an object keeps its keys, each once |
| Sorting.SortedGroupsContent | src/analyze-all.js:27-33 | after grouping and sorting, each group holds exactly its key's values, in order |
| Sorting.SortedGroupKeys | src/analyze-all.js:27-33 | after grouping and sorting, each key appears once, and exactly the keys of the items appear |
| Numbers.NatToStringValue | src/services/analyzer.js:58 | the decimal text of a whole number denotes that number |
| Numbers.NatToStringInjective | src/services/analyzer.js:58 | two whole numbers with the same decimal text are equal |
| Numbers.ParseNatToString | src/services/analyzer.js:22-23 | `parseFloat`, `Number` and `parseInt` read the decimal text of a whole number back as that number |
| Numbers.ParseFloatNaN | src/services/analyzer.js:22-23 | `parseFloat` gives NaN for text that, after leading blanks, is empty or does not start with a digit, a sign or a point |
| Numbers.ParseIntDigits | src/views/dashboard-data.js:47 | `parseInt` of a non-empty run of decimal digits is the run's value |
| Numbers.ParseIntHex | src/dashboard-app.js:68 | `parseInt` of `0x` followed by hexadecimal digits is their base-16 value, and NaN when no digit follows |
| Numbers.ParseIntHexExamples | src/dashboard-app.js:68 | `parseInt('0x3')` is 3, `parseInt('0x1a')` is 26 and `parseInt('0x')` is NaN |
| Numbers.LeadingSpaceIgnored | src/services/analyzer.js:22-23 | one leading ECMAScript white-space character does not change what `parseFloat` or `parseInt` reads |
| Numbers.LeadingSpaceSkipped | src/services/analyzer.js:22-23 | a whole number after any ECMAScript white-space character (U+3000 included) reads as that number with `parseFloat` and `parseInt` |
| Numbers.SurroundingSpaceTrimmed | src/views/dashboard-data.js:21-22 | `Number` reads a whole number surrounded by an ECMAScript white-space character as that number |
| Dicts.TallyCount | src/services/analyzer.js:55-58 | the tally `acc[k]` incremented from 0 counts each key as often as it occurs |
| Dicts.TallyTotal | src/services/analyzer.js:55-58 | the tally's counts add up to the number of keys tallied |
| Dicts.TallyKeys | src/services/analyzer.js:55-58 | the tally holds each key once, and exactly the keys tallied |
| Dicts.GroupByGet | src/analyze-all.js:29 | the grouping that pushes each value onto the list under its key lists, under a key, that key's values in order |
| Dicts.GroupByKeys | src/analyze-all.js:29 | the grouping holds each key once, exactly the keys of the items, and as many values as items |
| Dicts.PutGet | src/services/data-updater.js:49 | after `obj[k] = v`, `k` reads `v` and every other key reads what it did before |
| Dicts.PutKeys | src/services/data-updater.js:49 | `obj[k] = v` keeps the keys in the same order, and appends `k` only when it is new |
| Dicts.PutIdempotent | src/services/data-updater.js:49 | assigning the same value twice is the same as assigning it once |
| Common.DedupSpec | legacy/script.js:181 | `[...new Set(xs)]` holds each element of `xs` once, and only those |
| Numbers.ParseFloat | src/services/analyzer.js:22-23 | defines `parseFloat`: the longest decimal prefix after leading ECMAScript white space (all of `StrWhiteSpaceChar`, U+3000 and U+2028 included), `None` for NaN; ParseNatToString and ParseFloatNaN state its results |
| Numbers.ParseInt | src/dashboard-app.js:68-110 | defines `parseInt` without a radix: after ECMAScript white space and an optional sign, a `0x` or `0X` prefix reads a hexadecimal digit run and otherwise a decimal one, `None` (NaN) when that run is empty; ParseIntDigits, ParseIntHex and LeadingSpaceSkipped state its results |
| Numbers.ToNumber | src/views/dashboard-data.js:21-22 | defines `Number(s)`: the whole text, trimmed of ECMAScript white space, must be a decimal literal, and blank text is 0; ParseNatToString and SurroundingSpaceTrimmed state its result on a whole number's text |

## Left out

- HTTP: `fetch` and its responses become a parameter. In `Jira`, this is a sequence of server responses. In the report scripts and the updater, it is a function from a month window to a `Result`. The legacy scripts' own `fetchAllPages` and JQL are covered by that same fetch parameter, the `LegacyFetcher` type.
- Jira.FetchAllPages: requires that the response sequence eventually stops, with a page marked `isLast`, a missing `nextPageToken`, or a failure. An endless server is not modelled.
- File I/O and JSON: a data file that is read becomes an `Option` value, `None` when missing. A written file is the method's result. `mkdirSync` and path joining are left out; the paths are constants in `Config`.
- The report prose: only the structural content of the text reports is modelled. That means which sections, groups, counts and ERROR lines appear, and in what order. Left out are the headers, the QA average section, the per-month and overall rate lines, `overallAvg`, and the following sections, none of which appear in the output of the member named:
  - AnalyzeAll.Run and AnalyzeAllQa.Run: the "distribution by month" and "all affected keys" sections of `src/analyze-all.js` and `src/analyze-all-qa.js`;
  - LegacyAllUpdates.Run: the STORY POINT DISTRIBUTION BY MONTH section (`legacy/script-all-updates.js:216-246`), the GRAND TOTALS heading and its two lines (251-253; the two totals themselves are modelled) and the ALL AFFECTED ISSUE KEYS listing (255-277);
  - LegacyScript.Run: the MONTHLY COMPARISON heading and padding (`legacy/script.js:184-186`; the rows are modelled) and the ALL AFFECTED ISSUE KEYS listing (209-225);
  - LegacyDashboard.Render: the AVERAGE row of the trend table (`legacy/dashboard.js:415-425`) and the per-month bar widths and colours (401-411).
- Express routing, HTML, CSS and the Chart.js scripts: the dashboards are modelled up to the values they put into the page. Left out are the colours, percentages, `toFixed`/`toLocaleString` text, the `averageEffortData` series, the month-detail grouping `keysByTransition` of `src/dashboard-app.js:1140-1160` and the rest of the markup.
- `loadTextReport` is modelled (DashboardApp.LoadTextReport), although the `/` route of `src/dashboard-app.js` never calls it (34-50).
- Config.LookupMode: only the own keys of `modes` count as registered. In the source, `config.jira.modes[mode]` is a lookup on a plain object literal, so a name inherited from `Object.prototype` (`constructor`, `toString`, `hasOwnProperty`, `__proto__` and the like) also resolves, to a truthy value, and passes every `!modeConfig` test. The model treats such a name as unregistered and returns the invalid-mode error.
- Config.RegisteredModes: lists the three own keys as the only modes that resolve; in the source the `Object.prototype` names resolve too, as above.
- DashboardApp.RouteOutcome: states the invalid-mode page exactly for a mode that is not an own key. For `GET /?mode=constructor`, the source shows no such page. It reads the qa-board data file, falls back to `config.analysis.basePoints` and has no field name. The same holds for DashboardApp.RoutePage and DashboardApp.Route.
- Analyzer.AnalyzeEffortChanges: for an `Object.prototype` name, the source does not throw. It reads an undefined field id and label, and the model returns the invalid-mode error instead. The same holds for Analyzer.AnalyzeEffortDistribution, where every issue falls into `'null'`.
- Jira.BuildJQL: for an `Object.prototype` name, the source passes the mode check and then throws a TypeError at `modeConfig.issueTypes.map` (`src/services/jira.js:11`); the model throws the invalid-mode error. The same holds for Jira.FetchAllPages and DataUpdater.UpdateCurrentMonth, whose failure message differs in the same way.
- Floating point: efforts and averages are exact reals, and NaN is `None`.
- Numbers.ParseFloat: reads a decimal prefix only, without an exponent or `Infinity`, because the model's numbers are exact reals with no infinity. So `parseFloat('1e3')` is 1000 in JavaScript and 1 here, and `parseFloat('Infinity')` is NaN here.
- Numbers.ToNumber: reads whole decimal literals only, while `Number` also reads an exponent, `Infinity` and the `0x`, `0o` and `0b` forms. At `src/views/dashboard-data.js:21-22` it splits transition labels that are built from the table's keys, and those keys hold decimal text when the analysis writes them.
- Numbers.ParseInt: the value is an unbounded integer, where JavaScript rounds a digit run beyond 2^53 to the nearest double. No base point is that large, so the `?base=` selection is the same.
- JavaScript's enumeration order for integer-like object keys: the model keeps insertion order for every key. A JavaScript object lists keys such as `"8"` or `"13"` first, in ascending numeric order, whatever order they were inserted in. This shows wherever the source enumerates such an object without sorting it: the per-base target order of AnalyzeAllQaBoard.PushTransitions (`src/analyze-all-qa-board.js:75-77`) and the order of equal counts in DashboardApp.MostCommon, whose stable sort keeps the object's own order. It also shows in the legacy scripts' `parseFloat` sorts, wherever two target texts parse to the same number (`"5"` and `"5.0"`). JavaScript lists the integer-like `"5"` first whatever the insertion order, and the stable sort keeps that tie. The model keeps the order of first insertion instead: in the target groups of LegacyAllUpdates.FormatResults (`legacy/script-all-updates.js:131-141`), in LegacyScript.SortedTargets (`legacy/script.js:181-182`) and in LegacyDashboard.DetailOf (`legacy/dashboard.js:445`).
- Wall clock and time zone: `new Date()` becomes a `today` parameter. Dates are calendar dates, so there is no UTC parsing against local `getMonth`, and no time of day in the `current <= end` comparison.
- `process.env`, `dotenv`, console logging and the hard-coded credentials in the legacy scripts.
- Missing distributions: the model's records always carry a distribution, so the dashboards' `!month.distribution` guards are never exercised.
- The unused `paths` binding in `src/services/data-updater.js`.
- `legacy/google-sheets-upload.js`, `scripts/weekly-update.js` and `src/dashboard.js` are not part of this model. They handle Sheets requests, process orchestration and server start-up.

## Findings

| source | as written | input that shows it | evidently intended | confidence | as-written member | corrected member |
|---|---|---|---|---|---|---|
| src/utils/date.js:7-25 | `current` starts at the start date itself and advances with `setMonth(getMonth() + 1)`. It keeps the day of the month, which overflows into the following month, and it is compared with `end` on that day | a start of 2025-01-31 jumps to 2025-03-03, so no `february2025` window. A start of 2025-03-15 with an end of 2025-05-10 stops after April, so no `may2025` window | one window for every calendar month from the start month through the end month, as iterating from the first of the start month gives | not executed | DateUtils.SkipsFebruaryFromJanuary31, DateUtils.MissesEndMonthFromMidMonth, over DateUtils.GenerateMonths | DateUtils.GenerateMonthsFromFirst, characterised by DateUtils.WindowsFromFirst |
