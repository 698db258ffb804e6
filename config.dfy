/** The static configuration (src/config/index.js): the Jira project, the
    statuses that count as finished, the registry of analysis modes, the
    analysis settings and the data and report file names. */
module Config {
  import opened Common
  import opened Dicts
  import opened DateUtils

  /** One entry of `jira.modes`. */
  datatype ModeConfig = ModeConfig(
    issueTypes: seq<string>,
    customFieldId: string,
    fieldName: string,
    basePoints: seq<nat>)

  /** `process.env.JIRA_PROJECT || 'OPT'` */
  function ProjectFrom(env: Option<string>): (p: string)
    ensures Truthy(env) ==> p == env.value
    ensures !Truthy(env) ==> p == "OPT"
  {
    OrElse(env, "OPT")
  }

  /** The project the scripts run against: the default, with no override. */
  const Project: string := "OPT"

  const Statuses: seq<string> := ["Done", "UAT PARTNER", "UAT REPORTER"]

  const AnalysisBasePoints: seq<nat> := [1, 2, 3, 5, 8, 13, 17, 21, 34]

  const StoryPointCategories: seq<string> := ["1", "2", "3", "5", "8", "13+"]

  /** `analysis.startDate`, 2025-03-01. */
  const StartDate: Date := Date(2025, 3, 1)

  const DevTypes: seq<string> := ["Web Service (OPT)", "Experiment (OPT)", "Personalization (OPT)"]

  const Dev: ModeConfig := ModeConfig(DevTypes, "customfield_10008", "Story Points", AnalysisBasePoints)
  const Qa: ModeConfig := ModeConfig(["QA (OPT)"], "customfield_14664", "QA Efforts", AnalysisBasePoints)
  const QaBoard: ModeConfig := ModeConfig(DevTypes, "customfield_14664", "QA Efforts", AnalysisBasePoints)

  /** `jira.modes`, in declaration order. */
  const Modes: Dict<string, ModeConfig> := [("dev", Dev), ("qa", Qa), ("qa-board", QaBoard)]

  /** The message every service throws for a mode that is not registered. */
  function InvalidModeMessage(mode: string): string {
    "Invalid mode: " + mode + ". Valid modes are: " + Join(Keys(Modes), ", ")
  }

  /** `modes[mode]`, or the error thrown when it is missing. */
  function LookupMode(mode: string): (r: Result<ModeConfig>)
    ensures r.Ok? <==> mode in Keys(Modes)
    ensures r.Ok? ==> Get(Modes, mode) == Some(r.value)
    ensures r.Err? ==> r.message == InvalidModeMessage(mode)
  {
    match Get(Modes, mode)
    case Some(cfg) => Ok(cfg)
    case None => Err(InvalidModeMessage(mode))
  }

  predicate StrictlyIncreasing(s: seq<nat>) {
    forall i, j :: 0 <= i < j < |s| ==> s[i] < s[j]
  }

  // ----- File names (`paths`) -----

  const DevDataUp := "./data/story-point-all-updates-up-data.json"
  const DevReportUp := "./data/story-point-all-updates-up-report.txt"
  const DevDataDown := "./data/story-point-all-updates-down-data.json"
  const DevReportDown := "./data/story-point-all-updates-down-report.txt"
  const QaDataUp := "./data/qa-efforts-all-updates-up-data.json"
  const QaReportUp := "./data/qa-efforts-all-updates-up-report.txt"
  const QaDataDown := "./data/qa-efforts-all-updates-down-data.json"
  const QaReportDown := "./data/qa-efforts-all-updates-down-report.txt"
  const QaBoardDataUp := "./data/qa-board-all-updates-up-data.json"
  const QaBoardReportUp := "./data/qa-board-all-updates-up-report.txt"
  const QaBoardDataDown := "./data/qa-board-all-updates-down-data.json"
  const QaBoardReportDown := "./data/qa-board-all-updates-down-report.txt"
  /** The names kept for older callers. */
  const DevData := "./data/story-point-all-updates-up-data.json"
  const QaData := "./data/qa-efforts-all-updates-up-data.json"
  const QaBoardData := "./data/qa-board-all-updates-up-data.json"
  const QaBoardReport := "./data/qa-board-all-updates-up-report.txt"

  // ----- Properties of the registry -----

  lemma ModeIds()
    ensures Keys(Modes) == ["dev", "qa", "qa-board"]
  {
  }

  /** Exactly three modes are registered, `dev`, `qa` and `qa-board`. */
  lemma RegisteredModes()
    ensures forall mode :: LookupMode(mode).Ok? <==> mode == "dev" || mode == "qa" || mode == "qa-board"
  {
    ModeIds();
  }

  /** The error message lists the registered modes in declaration order. */
  lemma InvalidModeText(mode: string)
    ensures InvalidModeMessage(mode) == "Invalid mode: " + mode + ". Valid modes are: dev, qa, qa-board"
  {
    ModeIds();
    var ids := ["dev", "qa", "qa-board"];
    assert ids[1..] == ["qa", "qa-board"];
    assert ids[1..][1..] == ["qa-board"];
    assert Join(ids, ", ") == "dev" + ", " + ("qa" + ", " + "qa-board");
  }

  /** `dev` watches Story Points; `qa` and `qa-board` watch QA Efforts. */
  lemma ModeFields()
    ensures LookupMode("dev") == Ok(Dev) && Dev.customFieldId == "customfield_10008" && Dev.fieldName == "Story Points"
    ensures LookupMode("qa") == Ok(Qa) && Qa.customFieldId == "customfield_14664" && Qa.fieldName == "QA Efforts"
    ensures LookupMode("qa-board") == Ok(QaBoard) && QaBoard.customFieldId == Qa.customFieldId && QaBoard.fieldName == Qa.fieldName
  {
    RegisteredModes();
  }

  /** `qa-board` shares `dev`'s issue types; `qa` has only `QA (OPT)`. */
  lemma ModeIssueTypes()
    ensures QaBoard.issueTypes == Dev.issueTypes && |Dev.issueTypes| == 3
    ensures Qa.issueTypes == ["QA (OPT)"]
  {
  }

  /** Every mode has the analysis base points, which are strictly increasing. */
  lemma SharedBasePoints(mode: string)
    requires LookupMode(mode).Ok?
    ensures LookupMode(mode).value.basePoints == AnalysisBasePoints
    ensures StrictlyIncreasing(AnalysisBasePoints)
  {
    RegisteredModes();
  }

  /** The older single-file names point at the `up` files. */
  lemma LegacyPathsAreUp()
    ensures DevData == DevDataUp && QaData == QaDataUp && QaBoardData == QaBoardDataUp
    ensures QaBoardReport == QaBoardReportUp
  {
  }
}
