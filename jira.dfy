/**
 * The Jira provider of app/pm/jira_provider.py: construction from the three
 * settings, the JQL of the task search, and the mapping of Jira issues onto
 * tasks.
 *
 * The HTTP transport is an oracle: a search request (url, JQL, result limit,
 * field list) answers with the decoded search body or fails; an issue request
 * answers with the decoded issue or fails; a comment post answers with the
 * decoded reply or fails. The Basic authorisation header is not modelled.
 */
module Jira {
  import opened Common
  import opened Strings
  import opened Models
  import opened PmBase

  // ---------------------------------------------------------------------------
  // Settings and construction

  /** `JIRA_BASE_URL`, `JIRA_EMAIL` and `JIRA_API_TOKEN` as read from the environment. */
  datatype JiraSettings = JiraSettings(baseUrl: Option<string>, email: Option<string>, apiToken: Option<string>)

  predicate Configured(cfg: JiraSettings)
  {
    IsSet(cfg.baseUrl) && IsSet(cfg.email) && IsSet(cfg.apiToken)
  }

  /** A constructed provider: the base url without trailing slashes and the credentials. */
  datatype JiraProvider = JiraProvider(base: string, email: string, apiToken: string)

  const ProviderName: string := "jira"

  /** `JiraProvider()`: refuses to start unless all three settings are set. */
  function NewJiraProvider(cfg: JiraSettings): (r: Result<JiraProvider>)
    ensures r.Ok? <==> Configured(cfg)
    ensures r.Err? ==> r.error.RuntimeError?
    ensures r.Ok? ==>
      var url := cfg.baseUrl.value;
      && StartsWith(url, r.value.base)
      && (forall k :: |r.value.base| <= k < |url| ==> url[k] == '/')
      && (r.value.base != [] ==> r.value.base[|r.value.base| - 1] != '/')
      && r.value.email == cfg.email.value && r.value.apiToken == cfg.apiToken.value
  {
    if Configured(cfg) then Ok(JiraProvider(RStripChar(cfg.baseUrl.value, '/'), cfg.email.value, cfg.apiToken.value))
    else Err(RuntimeError("Jira env vars missing. Set JIRA_BASE_URL, JIRA_EMAIL, JIRA_API_TOKEN."))
  }

  /** "https://x.atlassian.net//" is stored as "https://x.atlassian.net". */
  lemma TrailingSlashesTrimmed()
    ensures var r := NewJiraProvider(JiraSettings(Some("https://x.atlassian.net//"), Some("e"), Some("t")));
      r.Ok? && r.value.base == "https://x.atlassian.net"
  {
    var url := "https://x.atlassian.net//";
    var u1 := url[..|url| - 1];
    var u2 := u1[..|u1| - 1];
    assert u1 == "https://x.atlassian.net/";
    assert u2 == "https://x.atlassian.net";
    assert u2[|u2| - 1] == 't';
    assert RStripChar(u2, '/') == u2;
    assert RStripChar(url, '/') == RStripChar(u1, '/') == RStripChar(u2, '/');
  }

  // ---------------------------------------------------------------------------
  // Search

  const FieldList: string := "summary,description,priority,duedate,status,project"

  const OrderClause: string := " ORDER BY priority DESC, updated DESC"

  /** The JQL clauses, in order. */
  function JqlClauses(assigneeMe: bool): seq<string>
  {
    (if assigneeMe then ["assignee = currentUser()"] else []) + ["statusCategory != Done"]
  }

  /** The search JQL: the clauses joined with " AND ", then the ordering. For the caller's
      own tasks it is the assignee clause and the open-status clause; for everyone's tasks
      the open-status clause alone. */
  function Jql(assigneeMe: bool): (q: string)
    ensures assigneeMe ==> q == "assignee = currentUser()" + " AND " + "statusCategory != Done" + " ORDER BY priority DESC, updated DESC"
    ensures !assigneeMe ==> q == "statusCategory != Done" + " ORDER BY priority DESC, updated DESC"
  {
    var a, b := "assignee = currentUser()", "statusCategory != Done";
    assert JqlClauses(true) == [a, b] && JqlClauses(false) == [b];
    assert [a, b][1..] == [b];
    assert Join([b], " AND ") == b;
    Join(JqlClauses(assigneeMe), " AND ") + OrderClause
  }

  /** A GET of `/rest/api/3/search` with its query parameters. */
  datatype SearchRequest = SearchRequest(url: string, jql: string, maxResults: int, fields: string)

  /** A GET of `/rest/api/3/issue/<id>` with its field list. */
  datatype IssueRequest = IssueRequest(url: string, fields: string)

  /** A POST of a JSON body. */
  datatype PostRequest = PostRequest(url: string, body: string)

  /** `{"name": ...}` sub-objects (priority, status, project). */
  datatype Named = Named(name: Option<string>)

  /** An issue description: missing or falsy, a plain string, or a non-empty rich-text
      document, carried with its `str()` rendering. */
  datatype Description = NoDescription | Text(text: string) | Rich(rendered: string)

  datatype Fields = Fields(
    summary: Option<string>,
    description: Description,
    priority: Option<Named>,
    duedate: Option<string>,
    status: Option<Named>,
    project: Option<Named>)

  /** An issue as decoded from JSON; a missing "fields" object reads as all fields missing. */
  datatype Issue = Issue(key: Option<string>, id: Option<string>, fields: Option<Fields>)

  /** The search body; a missing "issues" list reads as empty. */
  datatype SearchData = SearchData(issues: Option<seq<Issue>>)

  const NoFields: Fields := Fields(None, NoDescription, None, None, None, None)

  function FieldsOf(it: Issue): Fields
  {
    it.fields.GetOr(NoFields)
  }

  /** `(f.get(x) or {}).get("name")`. */
  function NameOf(o: Option<Named>): Option<string>
  {
    match o
    case Some(n) => n.name
    case None => None
  }

  /** `f.get("summary") or key`. */
  function TitleOf(it: Issue): (t: Option<string>)
    ensures IsSet(FieldsOf(it).summary) ==> t == FieldsOf(it).summary
    ensures !IsSet(FieldsOf(it).summary) ==> t == it.key
  {
    if IsSet(FieldsOf(it).summary) then FieldsOf(it).summary else it.key
  }

  /** The `/browse/` link of an issue. */
  function BrowseUrl(p: JiraProvider, key: Option<string>): (u: string)
    ensures StartsWith(u, p.base + "/browse/")
    ensures u[|p.base| + 8..] == Show(key)
  {
    var u := p.base + "/browse/" + Show(key);
    assert u[..|p.base + "/browse/"|] == p.base + "/browse/";
    u
  }

  /** The issue → Task mapping. `stringify` says whether a rich description is turned into
      its string form (as `list_tasks` does); otherwise (as in `get_task`) it is handed to
      the Task record as is, which refuses it. A missing id or title is refused as well. */
  function IssueToTask(p: JiraProvider, it: Issue, stringify: bool): (r: Result<Task>)
    ensures r.Ok? <==> it.id.Some? && TitleOf(it).Some? && (stringify || !FieldsOf(it).description.Rich?)
    ensures r.Err? ==> r.error == ValidationError("Task")
    ensures r.Ok? ==>
      var f := FieldsOf(it);
      && r.value.provider == ProviderName && r.value.id == it.id.value && r.value.key == it.key
      && r.value.title == TitleOf(it).value
      && r.value.url == Some(BrowseUrl(p, it.key))
      && r.value.status == Some(NormalizeStatus(NameOf(f.status))) && IsStatusLabel(r.value.status.value)
      && r.value.priority == NameOf(f.priority) && r.value.project == NameOf(f.project) && r.value.dueIso == f.duedate
      && (f.description.NoDescription? ==> r.value.description == Some(""))
      && (f.description.Text? ==> r.value.description == Some(f.description.text))
      && (f.description.Rich? ==> r.value.description == Some(f.description.rendered))
      && r.value.ai.None? && r.value.priorityScore.None?
  {
    var f := FieldsOf(it);
    var desc: Option<string> :=
      match f.description
      case NoDescription => Some("")
      case Text(s) => Some(s)
      case Rich(s) => if stringify then Some(s) else None;
    if it.id.None? || TitleOf(it).None? || desc.None? then Err(ValidationError("Task"))
    else Ok(Task(ProviderName, it.id.value, it.key, TitleOf(it).value, desc,
                 Some(NormalizeStatus(NameOf(f.status))), NameOf(f.priority), f.duedate,
                 Some(BrowseUrl(p, it.key)), NameOf(f.project), None, None))
  }

  /** The search request `list_tasks` sends. */
  function SearchRequestFor(p: JiraProvider, assigneeMe: bool, limit: int): SearchRequest
  {
    SearchRequest(p.base + "/rest/api/3/search", Jql(assigneeMe), limit, FieldList)
  }

  /** What `list_tasks` gives: the search failure, a refused issue, or one task per issue. */
  function ListTasksResult(p: JiraProvider, assigneeMe: bool, limit: int, search: SearchRequest -> Result<SearchData>): (r: Result<seq<Task>>)
    ensures var resp := search(SearchRequestFor(p, assigneeMe, limit));
      && (resp.Err? ==> r == Err(resp.error))
      && (r.Ok? ==> resp.Ok? && |r.value| == |resp.value.issues.GetOr([])|)
      && (r.Err? && resp.Ok? ==> r.error == ValidationError("Task"))
  {
    match search(SearchRequestFor(p, assigneeMe, limit))
    case Err(e) => Err(e)
    case Ok(data) =>
      var issues := data.issues.GetOr([]);
      var rs := seq(|issues|, i requires 0 <= i < |issues| => IssueToTask(p, issues[i], true));
      if AllOk(rs) then Ok(Values(rs)) else Err(ValidationError("Task"))
  }

  /** `list_tasks`: one task per returned issue, in issue order, with rich descriptions
      stringified; the search failing, or an issue without id or title, fails the call. */
  lemma ListTasksProperties(p: JiraProvider, assigneeMe: bool, limit: int, search: SearchRequest -> Result<SearchData>)
    ensures var resp := search(SearchRequestFor(p, assigneeMe, limit));
      var r := ListTasksResult(p, assigneeMe, limit, search);
      && SearchRequestFor(p, assigneeMe, limit).maxResults == limit
      && (resp.Err? ==> r == Err(resp.error))
      && (resp.Ok? ==>
            var issues := resp.value.issues.GetOr([]);
            && (r.Ok? <==> forall i :: 0 <= i < |issues| ==> issues[i].id.Some? && TitleOf(issues[i]).Some?)
            && (r.Ok? ==> (|r.value| == |issues|
                  && forall i :: 0 <= i < |issues| ==> Ok(r.value[i]) == IssueToTask(p, issues[i], true))))
  {
    var resp := search(SearchRequestFor(p, assigneeMe, limit));
    if resp.Ok? {
      var issues := resp.value.issues.GetOr([]);
      var rs := seq(|issues|, i requires 0 <= i < |issues| => IssueToTask(p, issues[i], true));
      assert forall i :: 0 <= i < |issues| ==> rs[i] == IssueToTask(p, issues[i], true);
    }
  }

  /** `list_tasks` with its loop: the search, then each issue mapped and appended in turn. */
  method ListTasks(p: JiraProvider, assigneeMe: bool, limit: int, search: SearchRequest -> Result<SearchData>)
    returns (r: Result<seq<Task>>)
    ensures r == ListTasksResult(p, assigneeMe, limit, search)
  {
    var resp := search(SearchRequestFor(p, assigneeMe, limit));
    if resp.Err? {
      return Err(resp.error);
    }
    var issues := resp.value.issues.GetOr([]);
    ghost var rs := seq(|issues|, i requires 0 <= i < |issues| => IssueToTask(p, issues[i], true));
    var out: seq<Task> := [];
    for i := 0 to |issues|
      invariant |out| == i
      invariant forall j :: 0 <= j < i ==> rs[j] == Ok(out[j])
    {
      var t := IssueToTask(p, issues[i], true);
      assert rs[i] == t;
      if t.Err? {
        return Err(ValidationError("Task"));
      }
      out := out + [t.value];
    }
    assert AllOk(rs);
    assert Values(rs) == out;
    r := Ok(out);
  }

  /** `get_task`: a fetch of one issue, mapped without stringifying its description. */
  function GetTask(p: JiraProvider, taskId: string, fetch: IssueRequest -> Result<Issue>): (r: Result<Task>)
    ensures var resp := fetch(IssueRequest(p.base + "/rest/api/3/issue/" + taskId, FieldList));
      && (resp.Err? ==> r == Err(resp.error))
      && (resp.Ok? ==> r == IssueToTask(p, resp.value, false))
      && (resp.Ok? && FieldsOf(resp.value).description.Rich? ==> r.Err?)
  {
    match fetch(IssueRequest(p.base + "/rest/api/3/issue/" + taskId, FieldList))
    case Err(e) => Err(e)
    case Ok(it) => IssueToTask(p, it, false)
  }

  /** An issue with a rich-text description is listed, with the description stringified,
      but cannot be fetched on its own. */
  lemma RichDescriptionListedNotFetched(p: JiraProvider, it: Issue)
    requires it.id.Some? && TitleOf(it).Some? && FieldsOf(it).description.Rich?
    ensures IssueToTask(p, it, true).Ok?
    ensures IssueToTask(p, it, true).value.description == Some(FieldsOf(it).description.rendered)
    ensures IssueToTask(p, it, false).Err?
  {
  }

  /** The request `comment_task` sends: `{"body": text}` to the issue's comment endpoint. */
  function CommentRequest(p: JiraProvider, taskId: string, text: string): (req: PostRequest)
    ensures req.body == text
    ensures StartsWith(req.url, p.base + "/rest/api/3/issue/" + taskId)
    ensures |req.url| >= 8 && req.url[|req.url| - 8..] == "/comment"
  {
    var url := p.base + "/rest/api/3/issue/" + taskId + "/comment";
    assert url[..|p.base + "/rest/api/3/issue/" + taskId|] == p.base + "/rest/api/3/issue/" + taskId;
    PostRequest(url, text)
  }

  /** `comment_task`: whatever the post answers. */
  function CommentTask(p: JiraProvider, taskId: string, text: string, post: PostRequest -> Result<Reply>): (r: Result<Reply>)
    ensures r == post(PostRequest(p.base + "/rest/api/3/issue/" + taskId + "/comment", text))
  {
    post(CommentRequest(p, taskId, text))
  }

  /** `update_task_status` is not implemented for Jira either. */
  function UpdateTaskStatus(p: JiraProvider, taskId: string, newStatus: string): (r: Result<Reply>)
    ensures r == BaseUpdateTaskStatus(taskId, newStatus)
    ensures r.Err? && r.error == NotImplementedError
  {
    Err(NotImplementedError)
  }
}
