/** The Jira search service (src/services/jira.js): the JQL query for a date
    range and a mode, and the loop that requests result pages until the server
    says there are no more.  The HTTP request itself is not modelled: the loop
    reads the server's successive responses from a given sequence. */
module Jira {
  import opened Common
  import opened Numbers
  import opened Config

  /** One entry of a history's `items`: which field changed, from what to what
      (as Jira's display strings). `None` stands for a missing or null property. */
  datatype ChangeItem = ChangeItem(
    fieldId: Option<string>,
    field: Option<string>,
    fromString: Option<string>,
    toString: Option<string>)

  /** One entry of `changelog.histories`: when, by whom (the display name, if
      any), and the fields it changed.  A missing `items` list is empty. */
  datatype History = History(created: string, author: Option<string>, items: seq<ChangeItem>)

  /** An issue as returned by the search: its key, its change history (empty
      when the changelog is missing) and its current field values, each as the
      text `String(value)` gives; a field that is null or missing is absent. */
  datatype Issue = Issue(key: Option<string>, histories: seq<History>, fields: map<string, string>)

  /** `"${s}"` */
  function Quote(s: string): (q: string)
    ensures |q| == |s| + 2 && q[0] == '"' && q[|q| - 1] == '"' && q[1..|q| - 1] == s
  {
    "\"" + s + "\""
  }

  /** `xs.map(t => `"${t}"`).join(', ')` */
  function QuotedList(xs: seq<string>): string {
    Join(Map(xs, Quote), ", ")
  }

  /** The query text: `created >= "S" AND project = P AND type IN (T) AND
      status IN (U) AND created <= "E"`, assembled from its parts. */
  function Query(startDate: string, endDate: string, project: string, types: string, stats: string): string {
    QueryHead(startDate, project) + QueryBody(types, stats) + QueryTail(endDate)
  }

  function QueryHead(startDate: string, project: string): string {
    "created >= \"" + startDate + "\" AND project = " + project + " AND type IN ("
  }

  function QueryBody(types: string, stats: string): string {
    types + ") AND status IN (" + stats + ") AND created <= \""
  }

  function QueryTail(endDate: string): string {
    endDate + "\""
  }

  /** `buildJQL(startDate, endDate, mode)` */
  function BuildJQL(startDate: string, endDate: string, mode: string): (r: Result<string>)
    ensures r.Err? <==> LookupMode(mode).Err?
    ensures r.Err? ==> r.message == InvalidModeMessage(mode)
  {
    match LookupMode(mode)
    case Err(m) => Err(m)
    case Ok(cfg) => Ok(Query(startDate, endDate, Project, QuotedList(cfg.issueTypes), QuotedList(Statuses)))
  }

  /** One response of the search endpoint: a failure (`!response.ok`) with its
      status and body text, or a page of issues with `isLast` (a missing flag is
      false) and `nextPageToken`. */
  datatype Response =
    | Failure(status: nat, text: string)
    | Page(issues: seq<Issue>, isLast: bool, nextPageToken: Option<string>)

  /** The message thrown for a failed response. */
  function HttpError(status: nat, text: string): string {
    "HTTP error! status: " + NatToString(status) + " - " + text
  }

  /** A response after which no further request is made: a failure, a page
      marked last, or a page without a (non-empty) next-page token. */
  predicate Stops(r: Response) {
    r.Failure? || r.isLast || !Truthy(r.nextPageToken)
  }

  /** The server eventually gives a response that ends the loop. */
  predicate Ends(server: seq<Response>) {
    exists i :: 0 <= i < |server| && Stops(server[i])
  }

  /** The position of the response that ends the loop. */
  function StopIndex(server: seq<Response>): (n: nat)
    requires Ends(server)
    ensures n < |server| && Stops(server[n])
    ensures forall j :: 0 <= j < n ==> !Stops(server[j])
    decreases |server|
  {
    if Stops(server[0]) then 0
    else
      assert Ends(server[1..]) by {
        var i :| 0 <= i < |server| && Stops(server[i]);
        assert server[1..][i - 1] == server[i];
      }
      1 + StopIndex(server[1..])
  }

  function TokenOf(r: Response): Option<string> {
    if r.Page? then r.nextPageToken else None
  }

  function PageIssues(r: Response): seq<Issue> {
    if r.Page? then r.issues else []
  }

  /** The issues of the given responses, in order. */
  function Flatten(rs: seq<Response>): seq<Issue>
    decreases |rs|
  {
    if rs == [] then [] else Flatten(rs[..|rs| - 1]) + PageIssues(rs[|rs| - 1])
  }

  /** What `fetchAllPages` returns, for a registered mode: the failure that
      ends the loop, or the issues of every page up to the last one requested. */
  function Outcome(server: seq<Response>): Result<seq<Issue>>
    requires Ends(server)
  {
    var n := StopIndex(server);
    match server[n]
    case Failure(status, text) => Err(HttpError(status, text))
    case Page(_, _, _) => Ok(Flatten(server[..n + 1]))
  }

  /** `fetchAllPages(startDate, endDate, mode)` against a server whose
      successive responses are `server`.  `sent` is the `nextPageToken` passed
      with each request made. */
  method FetchAllPages(startDate: string, endDate: string, mode: string, server: seq<Response>)
    returns (r: Result<seq<Issue>>, sent: seq<Option<string>>)
    requires Ends(server)
    ensures LookupMode(mode).Err? ==> r == Err(InvalidModeMessage(mode)) && sent == []
    ensures LookupMode(mode).Ok? ==> r == Outcome(server) && |sent| == StopIndex(server) + 1
    ensures LookupMode(mode).Ok? ==> TokensSent(sent, server)
  {
    sent := [];
    var cfg := LookupMode(mode);
    if cfg.Err? {
      r := Err(cfg.message);
      return;
    }
    var allIssues: seq<Issue> := [];
    var nextPageToken: Option<string> := None;
    var i := 0;
    while true
      invariant i <= StopIndex(server) && |sent| == i
      invariant allIssues == Flatten(server[..i])
      invariant nextPageToken == if i == 0 then None else TokenOf(server[i - 1])
      invariant TokensSent(sent, server)
      decreases StopIndex(server) - i
    {
      var response := server[i];
      TokensStep(sent, server, nextPageToken);
      sent := sent + [nextPageToken];
      FlattenStep(server, i);
      if response.Failure? {
        AtStop(server, i);
        r := Err(HttpError(response.status, response.text));
        return;
      }
      allIssues := allIssues + response.issues;
      i := i + 1;
      if response.isLast {
        AtStop(server, i - 1);
        break;
      }
      nextPageToken := response.nextPageToken;
      if !Truthy(nextPageToken) {
        AtStop(server, i - 1);
        break;
      }
    }
    r := Ok(allIssues);
  }

  /** The first request carries no token; each later one carries the token of
      the response before it. */
  predicate TokensSent(sent: seq<Option<string>>, server: seq<Response>) {
    |sent| <= |server|
    && (|sent| > 0 ==> sent[0] == None)
    && forall k :: 0 < k < |sent| ==> sent[k] == TokenOf(server[k - 1])
  }

  lemma TokensStep(sent: seq<Option<string>>, server: seq<Response>, token: Option<string>)
    requires TokensSent(sent, server) && |sent| < |server|
    requires token == if |sent| == 0 then None else TokenOf(server[|sent| - 1])
    ensures TokensSent(sent + [token], server)
  {
  }

  lemma FlattenStep(server: seq<Response>, i: nat)
    requires i < |server|
    ensures Flatten(server[..i + 1]) == Flatten(server[..i]) + PageIssues(server[i])
  {
    assert server[..i + 1][..i] == server[..i];
  }

  /** The first response that stops the loop is the one at `StopIndex`. */
  lemma AtStop(server: seq<Response>, i: nat)
    requires Ends(server) && i <= StopIndex(server) && Stops(server[i])
    ensures i == StopIndex(server)
  {
  }

  // ----- Properties of the query -----

  lemma StatusList()
    ensures QuotedList(Statuses) == Quote("Done") + ", " + (Quote("UAT PARTNER") + ", " + Quote("UAT REPORTER"))
  {
    var q := Map(Statuses, Quote);
    var a, b, c := Quote("Done"), Quote("UAT PARTNER"), Quote("UAT REPORTER");
    assert q == [a, b, c];
    var ids := [a, b, c];
    assert ids[1..] == [b, c];
    assert ids[1..][1..] == [c];
    assert Join(ids[1..][1..], ", ") == c;
    assert Join(ids[1..], ", ") == b + ", " + c;
    assert Join(ids, ", ") == a + ", " + (b + ", " + c);
  }

  lemma QaTypeList()
    ensures QuotedList(Qa.issueTypes) == Quote("QA (OPT)")
  {
    assert Map(Qa.issueTypes, Quote) == [Quote("QA (OPT)")];
  }

  /** Each issue type and status is quoted, and they are joined with `, ` in
      configuration order. */
  lemma QuotedListUnfold(xs: seq<string>)
    requires |xs| >= 2
    ensures QuotedList(xs) == Quote(xs[0]) + ", " + QuotedList(xs[1..])
  {
    assert Map(xs, Quote)[1..] == Map(xs[1..], Quote);
  }

  /** The `qa` query: the fixed shape, with the one `qa` issue type and the three statuses. */
  lemma QaQuery(startDate: string, endDate: string)
    ensures BuildJQL(startDate, endDate, "qa") == Ok(Query(startDate, endDate, "OPT",
      Quote("QA (OPT)"), Quote("Done") + ", " + (Quote("UAT PARTNER") + ", " + Quote("UAT REPORTER"))))
  {
    ModeFields();
    StatusList();
    QaTypeList();
  }

  /** The query opens with the start bound and the project and closes with the end bound. */
  lemma QueryBounds(startDate: string, endDate: string, mode: string)
    requires BuildJQL(startDate, endDate, mode).Ok?
    ensures StartsWith(BuildJQL(startDate, endDate, mode).value, QueryHead(startDate, "OPT"))
    ensures var q := BuildJQL(startDate, endDate, mode).value;
      |q| >= |endDate| + 1 && q[|q| - |endDate| - 1..] == endDate + "\""
  {
    var cfg := LookupMode(mode).value;
    var head, body, tail := QueryHead(startDate, "OPT"), QueryBody(QuotedList(cfg.issueTypes), QuotedList(Statuses)), QueryTail(endDate);
    var q := head + body + tail;
    assert BuildJQL(startDate, endDate, mode).value == q;
    assert q[..|head|] == head;
    assert q[|q| - |tail|..] == tail;
  }

  // ----- Properties of the page loop -----

  lemma {:induction false} FlattenAppend(a: seq<Response>, b: seq<Response>)
    ensures Flatten(a + b) == Flatten(a) + Flatten(b)
    decreases |b|
  {
    if b == [] {
      assert a + b == a;
    } else {
      var n := |b| - 1;
      assert (a + b)[..|a + b| - 1] == a + b[..n];
      FlattenAppend(a, b[..n]);
    }
  }

  lemma OutcomeAt(server: seq<Response>)
    requires Ends(server)
    ensures var n := StopIndex(server);
      Outcome(server) == if server[n].Failure? then Err(HttpError(server[n].status, server[n].text))
                         else Ok(Flatten(server[..n + 1]))
  {
  }

  lemma FlattenCons(server: seq<Response>, m: nat)
    requires 0 < m < |server|
    ensures Flatten(server[..m + 1]) == PageIssues(server[0]) + Flatten(server[1..][..m])
  {
    assert server[..m + 1] == [server[0]] + server[1..][..m];
    FlattenAppend([server[0]], server[1..][..m]);
    assert [server[0]][..0] == [];
  }

  /** A last page ends the loop at once: one request, and exactly its issues. */
  lemma FirstPageLast(issues: seq<Issue>, token: Option<string>, rest: seq<Response>)
    ensures Ends([Page(issues, true, token)] + rest)
    ensures StopIndex([Page(issues, true, token)] + rest) == 0
    ensures Outcome([Page(issues, true, token)] + rest) == Ok(issues)
  {
    var server := [Page(issues, true, token)] + rest;
    assert Stops(server[0]);
    assert StopIndex(server) == 0;
    assert server[..1] == [server[0]];
    assert server[..1][..0] == [];
    assert Flatten(server[..1]) == issues;
    OutcomeAt(server);
  }

  /** A failure ends the loop with an error, whatever pages came before it:
      there is no partial result. */
  lemma FailureNoPartial(server: seq<Response>)
    requires Ends(server)
    ensures Outcome(server).Err? <==> server[StopIndex(server)].Failure?
    ensures Outcome(server).Err? ==> exists j :: 0 <= j < |server| && server[j].Failure?
  {
    var n := StopIndex(server);
    if server[n].Failure? {
      assert 0 <= n < |server| && server[n].Failure?;
    }
  }

  /** A page that is neither last nor without a token leads to one more request,
      and its issues come before everything fetched after it. */
  lemma {:induction false} OutcomeUnfold(server: seq<Response>)
    requires Ends(server) && !Stops(server[0])
    ensures Ends(server[1..])
    ensures StopIndex(server) == 1 + StopIndex(server[1..])
    ensures Outcome(server) == match Outcome(server[1..])
      case Ok(rest) => Ok(server[0].issues + rest)
      case Err(m) => Err(m)
  {
    var n := StopIndex(server[1..]);
    assert server[StopIndex(server)] == server[1..][n];
    OutcomeAt(server);
    OutcomeAt(server[1..]);
    FlattenCons(server, n + 1);
  }
}
