/** What the legacy scripts legacy/script.js, legacy/script-all-updates.js and
    legacy/fetch-current-month.js share: the project prefix, the Story Points
    field and the base points written into the code, the change record they
    push, and a fetch that takes no mode. */
module LegacyChanges {
  import opened Common
  import opened Jira
  import opened Config
  import opened Analyzer

  /** `'OPT-'` */
  const Prefix: string := "OPT-"

  const StoryPointsId: string := "customfield_10008"

  const StoryPointsName: string := "Story Points"

  /** `BASE_POINTS` */
  const BasePoints: seq<nat> := [1, 2, 3, 5]

  /** `{key, from, to, created, author}`: `from` and `to` are the item's own
      strings, not the numbers they parse to. */
  datatype RawChange = RawChange(key: string, from: string, to: string, created: string, author: string)

  /** `history.author?.displayName || 'Unknown'` */
  function Author(h: History): (a: string)
    ensures Truthy(h.author) ==> a == h.author.value
    ensures !Truthy(h.author) ==> a == "Unknown"
  {
    OrElse(h.author, "Unknown")
  }

  function RawTo(c: RawChange): string {
    c.to
  }

  /** `fetchAllPages(startDate, endDate)`: the issues of the window, or the
      message thrown. */
  type LegacyFetcher = (string, string) -> Result<seq<Issue>>

  /** The hard-coded settings are those of the `dev` mode; the legacy base
      points are distinct and among the analysis base points. */
  lemma SameSettings()
    ensures Prefix == KeyPrefix
    ensures StoryPointsId == Dev.customFieldId && StoryPointsName == Dev.fieldName
    ensures Distinct(BasePoints)
    ensures forall b :: b in BasePoints ==> b in AnalysisBasePoints
  {
    ModeFields();
  }
}
