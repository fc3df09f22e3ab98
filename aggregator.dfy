/**
 * The task aggregator of app/pm/aggregator.py: collect the tasks of every
 * active provider (skipping a provider whose listing fails), summarise and
 * score each task (falling back to a score of 0 when that fails), and rank
 * them by score with a stable sort.
 *
 * The provider transport and the summarizer are oracles; the clock is the
 * `now` of the scoring environment, read once for the whole request.
 */
module Aggregator {
  import opened Common
  import opened Strings
  import opened Models
  import opened PmBase
  import opened Jira
  import opened Priority
  import opened Ranking

  /** `active_providers`: Jira when its three settings are set and it constructs. */
  function ActiveProviders(cfg: JiraSettings): (ps: seq<JiraProvider>)
    ensures |ps| <= 1
    ensures |ps| == 1 <==> Configured(cfg)
    ensures |ps| == 1 ==> NewJiraProvider(cfg) == Ok(ps[0])
  {
    if Configured(cfg) then
      match NewJiraProvider(cfg)
      case Ok(p) => [p]
      case Err(_) => []
    else []
  }

  /** The tasks of the providers whose listing succeeds, provider by provider. */
  function Collected(ps: seq<JiraProvider>, assigneeMe: bool, limit: int, search: SearchRequest -> Result<SearchData>): (ts: seq<Task>)
    ensures ts != [] ==> exists i :: 0 <= i < |ps| && ListTasksResult(ps[i], assigneeMe, limit, search).Ok?
  {
    if ps == [] then []
    else
      var rest := Collected(ps[..|ps| - 1], assigneeMe, limit, search);
      match ListTasksResult(ps[|ps| - 1], assigneeMe, limit, search)
      case Ok(ts) => rest + ts
      case Err(_) => rest
  }

  lemma CollectedSnoc(ps: seq<JiraProvider>, assigneeMe: bool, limit: int, search: SearchRequest -> Result<SearchData>)
    requires ps != []
    ensures var r := ListTasksResult(ps[|ps| - 1], assigneeMe, limit, search);
      var init := Collected(ps[..|ps| - 1], assigneeMe, limit, search);
      Collected(ps, assigneeMe, limit, search) == if r.Ok? then init + r.value else init
  {
  }

  /** The tasks of the successful listings among `rs`, in order. */
  function OkTasks(rs: seq<Result<seq<Task>>>): seq<Task>
  {
    if rs == [] then []
    else OkTasks(rs[..|rs| - 1]) + (if rs[|rs| - 1].Ok? then rs[|rs| - 1].value else [])
  }

  lemma {:induction false} OkTasksMembers(rs: seq<Result<seq<Task>>>, t: Task)
    ensures t in OkTasks(rs) <==> exists i :: 0 <= i < |rs| && rs[i].Ok? && t in rs[i].value
  {
    if rs != [] {
      var n := |rs| - 1;
      var init := rs[..n];
      OkTasksMembers(init, t);
      if t in OkTasks(init) {
        var i :| 0 <= i < n && init[i].Ok? && t in init[i].value;
        assert rs[i] == init[i];
      }
      if exists i :: 0 <= i < |rs| && rs[i].Ok? && t in rs[i].value {
        var i :| 0 <= i < |rs| && rs[i].Ok? && t in rs[i].value;
        if i < n {
          assert init[i] == rs[i];
        }
      }
    }
  }

  /** Each provider's listing, in order. */
  function Listings(ps: seq<JiraProvider>, assigneeMe: bool, limit: int, search: SearchRequest -> Result<SearchData>): (rs: seq<Result<seq<Task>>>)
    ensures |rs| == |ps|
    ensures forall i :: 0 <= i < |ps| ==> rs[i] == ListTasksResult(ps[i], assigneeMe, limit, search)
  {
    seq(|ps|, i requires 0 <= i < |ps| => ListTasksResult(ps[i], assigneeMe, limit, search))
  }

  lemma {:induction false} CollectedIsOkTasks(ps: seq<JiraProvider>, assigneeMe: bool, limit: int, search: SearchRequest -> Result<SearchData>)
    ensures Collected(ps, assigneeMe, limit, search) == OkTasks(Listings(ps, assigneeMe, limit, search))
  {
    if ps != [] {
      var n := |ps| - 1;
      CollectedIsOkTasks(ps[..n], assigneeMe, limit, search);
      var rs := Listings(ps, assigneeMe, limit, search);
      assert rs[..n] == Listings(ps[..n], assigneeMe, limit, search);
      CollectedSnoc(ps, assigneeMe, limit, search);
    }
  }

  /** A task is collected exactly when some provider's successful listing holds it. */
  lemma CollectedMembers(ps: seq<JiraProvider>, assigneeMe: bool, limit: int, search: SearchRequest -> Result<SearchData>, t: Task)
    ensures t in Collected(ps, assigneeMe, limit, search) <==>
      exists i :: 0 <= i < |ps| && ListTasksResult(ps[i], assigneeMe, limit, search).Ok?
        && t in ListTasksResult(ps[i], assigneeMe, limit, search).value
  {
    var rs := Listings(ps, assigneeMe, limit, search);
    CollectedIsOkTasks(ps, assigneeMe, limit, search);
    OkTasksMembers(rs, t);
  }

  /** A provider whose listing fails contributes nothing; the others are kept in order. */
  lemma FailingProviderSkipped(ps: seq<JiraProvider>, p: JiraProvider, assigneeMe: bool, limit: int, search: SearchRequest -> Result<SearchData>)
    requires ListTasksResult(p, assigneeMe, limit, search).Err?
    ensures Collected(ps + [p], assigneeMe, limit, search) == Collected(ps, assigneeMe, limit, search)
  {
    assert (ps + [p])[..|ps|] == ps;
  }

  /** Every task of one provider's successful listing carries a normalised status. */
  lemma ListedStatusNormalised(p: JiraProvider, assigneeMe: bool, limit: int, search: SearchRequest -> Result<SearchData>, t: Task)
    requires ListTasksResult(p, assigneeMe, limit, search).Ok?
    requires t in ListTasksResult(p, assigneeMe, limit, search).value
    ensures t.status.Some? && IsStatusLabel(t.status.value)
  {
    ListTasksProperties(p, assigneeMe, limit, search);
    var ts := ListTasksResult(p, assigneeMe, limit, search).value;
    var k :| 0 <= k < |ts| && ts[k] == t;
    var issues := search(SearchRequestFor(p, assigneeMe, limit)).value.issues.GetOr([]);
    assert Ok(t) == IssueToTask(p, issues[k], true);
  }

  /** Every collected task carries a normalised status. */
  lemma {:induction false} CollectedStatusesNormalised(ps: seq<JiraProvider>, assigneeMe: bool, limit: int, search: SearchRequest -> Result<SearchData>)
    ensures forall t :: t in Collected(ps, assigneeMe, limit, search) ==> t.status.Some? && IsStatusLabel(t.status.value)
  {
    forall t | t in Collected(ps, assigneeMe, limit, search)
      ensures t.status.Some? && IsStatusLabel(t.status.value)
    {
      CollectedMembers(ps, assigneeMe, limit, search, t);
      var i :| 0 <= i < |ps| && ListTasksResult(ps[i], assigneeMe, limit, search).Ok?
        && t in ListTasksResult(ps[i], assigneeMe, limit, search).value;
      ListedStatusNormalised(ps[i], assigneeMe, limit, search, t);
    }
  }

  // ---------------------------------------------------------------------------
  // Enrichment and ranking

  /** `"blocked" in (task.status or "")`. */
  predicate TaskBlocked(t: Task)
  {
    Contains(t.status.GetOr(""), "blocked")
  }

  /** `_score`: the summary scored with sender role "pm", arriving now. */
  function TaskScore(t: Task, s: AISummary, env: Env): (score: real)
    ensures ExpLike(env.exp) ==> 14.0 <= score <= 100.0
  {
    assert ExpLike(env.exp) ==> 14.0 <= ComputePriority(s, env.now, Some("pm"), TaskBlocked(t), env) <= 100.0 by {
      if ExpLike(env.exp) {
        ScoreBounds(s, env.now, Some("pm"), TaskBlocked(t), env);
      }
    }
    ComputePriority(s, env.now, Some("pm"), TaskBlocked(t), env)
  }

  /** One task after enrichment: the summary and its score, or a score of 0 when the
      summarizer failed. */
  function Enrich(t: Task, summary: Result<AISummary>, env: Env): (e: Task)
    ensures e.(ai := t.ai, priorityScore := t.priorityScore) == t
    ensures summary.Err? ==> e.ai == t.ai && e.priorityScore == Some(0.0)
    ensures summary.Ok? ==> e.ai == Some(summary.value) && e.priorityScore == Some(TaskScore(t, summary.value, env))
  {
    match summary
    case Ok(s) => t.(ai := Some(s), priorityScore := Some(TaskScore(t, s, env)))
    case Err(_) => t.(priorityScore := Some(0.0))
  }

  function EnrichAll(ts: seq<Task>, summarize: Task -> Result<AISummary>, env: Env): (es: seq<Task>)
    ensures |es| == |ts|
    ensures forall i :: 0 <= i < |ts| ==> es[i] == Enrich(ts[i], summarize(ts[i]), env)
  {
    seq(|ts|, i requires 0 <= i < |ts| => Enrich(ts[i], summarize(ts[i]), env))
  }

  /** Enriching one more task appends its enrichment. */
  lemma EnrichAllSnoc(ts: seq<Task>, i: int, summarize: Task -> Result<AISummary>, env: Env)
    requires 0 <= i < |ts|
    ensures EnrichAll(ts[..i + 1], summarize, env) == EnrichAll(ts[..i], summarize, env) + [Enrich(ts[i], summarize(ts[i]), env)]
  {
    var a, b := EnrichAll(ts[..i + 1], summarize, env), EnrichAll(ts[..i], summarize, env) + [Enrich(ts[i], summarize(ts[i]), env)];
    assert |a| == |b|;
    forall k | 0 <= k < |a| ensures a[k] == b[k] {
      assert ts[..i + 1][k] == ts[k];
    }
  }

  /** The sort key `x.priority_score or 0`. */
  function ScoreKey(t: Task): real
  {
    t.priorityScore.GetOr(0.0)
  }

  /** `list_tasks_all`. */
  method ListTasksAll(cfg: JiraSettings, limitPerProvider: int, assigneeMe: bool,
                      search: SearchRequest -> Result<SearchData>,
                      summarize: Task -> Result<AISummary>, env: Env)
    returns (tasks: seq<Task>)
    ensures tasks == SortByKeyDesc(EnrichAll(Collected(ActiveProviders(cfg), assigneeMe, limitPerProvider, search), summarize, env), ScoreKey)
  {
    var ps := ActiveProviders(cfg);
    var collected: seq<Task> := [];
    for i := 0 to |ps|
      invariant collected == Collected(ps[..i], assigneeMe, limitPerProvider, search)
    {
      CollectedSnoc(ps[..i + 1], assigneeMe, limitPerProvider, search);
      assert ps[..i + 1][..i] == ps[..i] && ps[..i + 1][i] == ps[i];
      var r := ListTasks(ps[i], assigneeMe, limitPerProvider, search);
      if r.Ok? {
        collected := collected + r.value;
      }
    }
    assert ps[..|ps|] == ps;
    var enriched: seq<Task> := [];
    for i := 0 to |collected|
      invariant enriched == EnrichAll(collected[..i], summarize, env)
    {
      var t := collected[i];
      var e := Enrich(t, summarize(t), env);
      EnrichAllSnoc(collected, i, summarize, env);
      enriched := enriched + [e];
    }
    assert collected[..|collected|] == collected;
    tasks := SortByKeyDesc(enriched, ScoreKey);
  }

  /** The ranked list holds every collected task exactly once (after enrichment), ordered by
      non-increasing score, with tasks of equal score in collection order. */
  lemma ListTasksAllRanked(ts: seq<Task>, summarize: Task -> Result<AISummary>, env: Env)
    ensures var out := SortByKeyDesc(EnrichAll(ts, summarize, env), ScoreKey);
      && |out| == |ts|
      && multiset(out) == multiset(EnrichAll(ts, summarize, env))
      && SortedDesc(out, ScoreKey)
      && forall v :: WithKey(out, ScoreKey, v) == WithKey(EnrichAll(ts, summarize, env), ScoreKey, v)
  {
    SortByKeyDescCorrect(EnrichAll(ts, summarize, env), ScoreKey);
  }

  /** A task scores with the project-management tier (0.6) and no recency decay, since it
      is scored as arriving now. */
  lemma TaskScoreFormula(t: Task, s: AISummary, env: Env)
    requires ExpLike(env.exp)
    ensures RawScore(s, env.now, Some("pm"), TaskBlocked(t), env) ==
      35.0 * MapLevel(Some(s.urgency)) + 25.0 * MapLevel(Some(s.importance))
      + 15.0 * DeadlineProximity(s.suggestedDueIso, env) + (if TaskBlocked(t) then 10.0 else 0.0) + 6.0 + 5.0
  {
    SenderTierExamples();
    assert ElapsedHours(env.now, env.now) == 0.0;
    assert RecencyDecay(0.0, env.exp) == 1.0;
  }

  /** Over tasks that came from a provider, the blocked flag is set exactly for the status
      "blocked". */
  lemma BlockedFlagMeansBlockedStatus(ps: seq<JiraProvider>, assigneeMe: bool, limit: int, search: SearchRequest -> Result<SearchData>, t: Task)
    requires t in Collected(ps, assigneeMe, limit, search)
    ensures TaskBlocked(t) <==> t.status == Some("blocked")
  {
    CollectedStatusesNormalised(ps, assigneeMe, limit, search);
    BlockedFlagOnLabels(t.status.value);
  }
}
