/**
 * The Gmail ranking of `gmail_recent` (main.py, and its router copy in
 * app/routes_gmail.py) and `summarize_email`: each recent message is fetched,
 * summarised, flagged as blocking by keyword and scored; the items are ranked
 * by score with a stable sort, and any failure on the way answers HTTP 500.
 *
 * The Gmail client and the summarizer are oracles; the clock is the `now` of
 * the scoring environment.
 */
module Gmail {
  import opened Common
  import opened Strings
  import opened Models
  import opened Utils
  import opened Priority
  import opened Ranking

  // ---------------------------------------------------------------------------
  // Blocking keywords

  const BlockerPhrases: seq<string> := ["waiting on you", "blocked", "need by", "asap", "urgent", "eod", "by eod"]

  /** Some blocker phrase occurs in the lower-cased snippet; spelled out phrase by phrase,
      "by eod" adds nothing, since any text holding it holds "eod". */
  predicate SnippetBlocked(snippet: string)
    ensures var l := Lower(snippet);
      SnippetBlocked(snippet) <==>
        Contains(l, "waiting on you") || Contains(l, "blocked") || Contains(l, "need by")
        || Contains(l, "asap") || Contains(l, "urgent") || Contains(l, "eod")
  {
    BlockerPhrasesSpelledOut(Lower(snippet));
    exists k :: 0 <= k < |BlockerPhrases| && Contains(Lower(snippet), BlockerPhrases[k])
  }

  /** Some blocker phrase occurs in `l` exactly when one of the six other than "by eod" does. */
  lemma BlockerPhrasesSpelledOut(l: string)
    ensures (exists k :: 0 <= k < |BlockerPhrases| && Contains(l, BlockerPhrases[k])) <==>
        Contains(l, "waiting on you") || Contains(l, "blocked") || Contains(l, "need by")
        || Contains(l, "asap") || Contains(l, "urgent") || Contains(l, "eod")
  {
    if Contains(l, "by eod") {
      assert OccursAt("by eod", "eod", 3);
      ContainsTransitive(l, "by eod", "eod");
    }
    if Contains(l, "eod") {
      assert BlockerPhrases[5] == "eod";
    }
    if Contains(l, "urgent") {
      assert BlockerPhrases[4] == "urgent";
    }
    if Contains(l, "asap") {
      assert BlockerPhrases[3] == "asap";
    }
    if Contains(l, "need by") {
      assert BlockerPhrases[2] == "need by";
    }
    if Contains(l, "blocked") {
      assert BlockerPhrases[1] == "blocked";
    }
    if Contains(l, "waiting on you") {
      assert BlockerPhrases[0] == "waiting on you";
    }
  }

  /** Letter case does not matter: "Need this by EOD" is blocking. */
  lemma ShoutedDeadlineBlocks()
    ensures SnippetBlocked("by EOD")
  {
    var l := Lower("by EOD");
    assert l == "by eod";
    assert OccursAt(l, "eod", 3);
    assert BlockerPhrases[5] == "eod";
  }

  // ---------------------------------------------------------------------------
  // Messages and items

  /** The `internalDate` entry: missing, a decimal number, or text `int()` refuses. */
  datatype InternalDate = NoDate | Digits(ms: int) | Malformed

  /** The fields of a fetched message the handler reads; a missing payload reads as no
      headers, and `headers` is `None` only for an explicit null. */
  datatype Message = Message(
    id: Option<string>,
    threadId: Option<string>,
    headers: Option<seq<Header>>,
    snippet: Option<string>,
    internalDate: InternalDate)

  /** The summarizer, asked with (body, subject, sender). */
  type Summarizer = (string, Option<string>, Option<string>) -> Result<AISummary>

  /** The handler's HTTP 500; the exception text the source appends to the detail is not modelled. */
  const FetchFailed: Error := HttpError(500, "Failed to fetch Gmail")

  /** `int(full.get("internalDate", "0"))`. */
  function Timestamp(d: InternalDate): (r: Result<int>)
    ensures d.NoDate? ==> r == Ok(0)
    ensures d.Digits? ==> r == Ok(d.ms)
    ensures d.Malformed? ==> r.Err?
  {
    match d
    case NoDate => Ok(0)
    case Digits(n) => Ok(n)
    case Malformed => Err(ExternalError("invalid literal for int()"))
  }

  function MailUrl(id: string): string
  {
    "https://mail.google.com/mail/u/0/#inbox/" + id
  }

  /** The ranked item of one listed message. */
  function ItemFor(id: string, getMessage: string -> Result<Message>, summarize: Summarizer, env: Env): (r: Result<InboxItem>)
    ensures r.Ok? ==> getMessage(id).Ok? && getMessage(id).value.id.Some?
    ensures r.Ok? ==>
      var m := getMessage(id).value;
      var snippet := m.snippet.GetOr("");
      var subject, sender := HeaderLookup(m.headers, "Subject"), HeaderLookup(m.headers, "From");
      && Timestamp(m.internalDate).Ok?
      && summarize(snippet, subject, sender).Ok?
      && r.value.source == "gmail" && r.value.id == m.id.value && r.value.threadId == m.threadId
      && r.value.subject == subject && r.value.from == sender && r.value.snippet == snippet
      && r.value.internalTs == Timestamp(m.internalDate).value
      && r.value.url == Some(MailUrl(m.id.value))
      && r.value.ai == Some(summarize(snippet, subject, sender).value)
      && r.value.priorityScore == Some(ComputePriority(summarize(snippet, subject, sender).value,
                                                       r.value.internalTs, None, SnippetBlocked(snippet), env))
    ensures getMessage(id).Err? ==> r.Err?
    ensures getMessage(id).Ok? && getMessage(id).value.internalDate.Malformed? ==> r.Err?
  {
    match getMessage(id)
    case Err(e) => Err(e)
    case Ok(m) =>
      var subject := HeaderLookup(m.headers, "Subject");
      var sender := HeaderLookup(m.headers, "From");
      var snippet := m.snippet.GetOr("");
      match Timestamp(m.internalDate)
      case Err(e) => Err(e)
      case Ok(ts) =>
        match summarize(snippet, subject, sender)
        case Err(e) => Err(e)
        case Ok(ai) =>
          if m.id.None? then Err(ValidationError("InboxItem"))
          else
            var score := ComputePriority(ai, ts, None, SnippetBlocked(snippet), env);
            Ok(InboxItem("gmail", m.id.value, m.threadId, subject, sender, snippet, ts,
                         Some(MailUrl(m.id.value)), Some(ai), Some(score)))
  }

  /** The sort key `x.priority_score or 0`. */
  function ItemKey(it: InboxItem): real
  {
    it.priorityScore.GetOr(0.0)
  }

  function ItemsFor(ids: seq<string>, getMessage: string -> Result<Message>, summarize: Summarizer, env: Env): (rs: seq<Result<InboxItem>>)
    ensures |rs| == |ids|
    ensures forall i :: 0 <= i < |ids| ==> rs[i] == ItemFor(ids[i], getMessage, summarize, env)
  {
    seq(|ids|, i requires 0 <= i < |ids| => ItemFor(ids[i], getMessage, summarize, env))
  }

  /** What `gmail_recent` answers: the ranked items, or HTTP 500 on any failure. */
  function RecentResult(maxResults: int, listRecent: int -> Result<seq<string>>, getMessage: string -> Result<Message>,
                        summarize: Summarizer, env: Env): (r: Result<seq<InboxItem>>)
    ensures r.Err? ==> r.error == FetchFailed
    ensures listRecent(maxResults).Err? ==> r.Err?
  {
    match listRecent(maxResults)
    case Err(_) => Err(FetchFailed)
    case Ok(ids) =>
      var rs := ItemsFor(ids, getMessage, summarize, env);
      if AllOk(rs) then Ok(SortByKeyDesc(Values(rs), ItemKey)) else Err(FetchFailed)
  }

  /** `gmail_recent`: fetch, summarise, flag and score each listed message in turn, then
      sort. */
  method GmailRecent(maxResults: int, listRecent: int -> Result<seq<string>>, getMessage: string -> Result<Message>,
                     summarize: Summarizer, env: Env)
    returns (r: Result<seq<InboxItem>>)
    ensures r == RecentResult(maxResults, listRecent, getMessage, summarize, env)
  {
    var listed := listRecent(maxResults);
    if listed.Err? {
      return Err(FetchFailed);
    }
    var ids := listed.value;
    ghost var rs := ItemsFor(ids, getMessage, summarize, env);
    var items: seq<InboxItem> := [];
    for i := 0 to |ids|
      invariant |items| == i
      invariant forall j :: 0 <= j < i ==> rs[j] == Ok(items[j])
    {
      var m := getMessage(ids[i]);
      if m.Err? {
        assert rs[i].Err?;
        return Err(FetchFailed);
      }
      var full := m.value;
      var subject := HeaderLookup(full.headers, "Subject");
      var sender := HeaderLookup(full.headers, "From");
      var snippet := full.snippet.GetOr("");
      var ts := Timestamp(full.internalDate);
      if ts.Err? {
        assert rs[i].Err?;
        return Err(FetchFailed);
      }
      var ai := summarize(snippet, subject, sender);
      if ai.Err? {
        assert rs[i].Err?;
        return Err(FetchFailed);
      }
      var blocked := SnippetBlocked(snippet);
      var score := ComputePriority(ai.value, ts.value, None, blocked, env);
      if full.id.None? {
        assert rs[i].Err?;
        return Err(FetchFailed);
      }
      var item := InboxItem("gmail", full.id.value, full.threadId, subject, sender, snippet, ts.value,
                            Some(MailUrl(full.id.value)), Some(ai.value), Some(score));
      assert rs[i] == Ok(item);
      items := items + [item];
    }
    assert AllOk(rs);
    assert Values(rs) == items;
    r := Ok(SortByKeyDesc(items, ItemKey));
  }

  /** The answer of `gmail_recent`: one item per listed message, ranked by non-increasing
      score, stable among equal scores; a failure of the listing, of any fetch, timestamp
      or summary, is HTTP 500. */
  lemma RecentProperties(maxResults: int, listRecent: int -> Result<seq<string>>, getMessage: string -> Result<Message>,
                         summarize: Summarizer, env: Env)
    ensures var r := RecentResult(maxResults, listRecent, getMessage, summarize, env);
      && (r.Err? ==> r.error == FetchFailed)
      && (listRecent(maxResults).Err? ==> r.Err?)
      && (r.Ok? ==>
            var ids := listRecent(maxResults).value;
            var rs := ItemsFor(ids, getMessage, summarize, env);
            && listRecent(maxResults).Ok? && AllOk(rs)
            && |r.value| == |ids|
            && multiset(r.value) == multiset(Values(rs))
            && SortedDesc(r.value, ItemKey)
            && forall v :: WithKey(r.value, ItemKey, v) == WithKey(Values(rs), ItemKey, v))
      && (listRecent(maxResults).Ok? && !AllOk(ItemsFor(listRecent(maxResults).value, getMessage, summarize, env)) ==> r.Err?)
  {
    var r := RecentResult(maxResults, listRecent, getMessage, summarize, env);
    if r.Ok? {
      var rs := ItemsFor(listRecent(maxResults).value, getMessage, summarize, env);
      SortByKeyDescCorrect(Values(rs), ItemKey);
    }
  }

  // ---------------------------------------------------------------------------
  // Single-email summary

  /** The answer of `summarize_email`. */
  datatype EmailSummary =
    | NoEmails(emailSnippet: string, summary: string)
    | FirstEmail(emailSnippet: string, summaryJson: Option<AISummary>, priorityScore: Option<real>,
                 subject: Option<string>, from: Option<string>, url: Option<string>)

  /** The summary of the best-ranked item, or the fixed "No emails found." answer. */
  function SummaryOf(items: seq<InboxItem>): (s: EmailSummary)
    ensures items == [] <==> s == NoEmails("No emails found.", "")
    ensures items != [] ==>
      && s.FirstEmail? && s.emailSnippet == items[0].snippet && s.summaryJson == items[0].ai
      && s.priorityScore == items[0].priorityScore && s.subject == items[0].subject
      && s.from == items[0].from && s.url == items[0].url
  {
    if items == [] then NoEmails("No emails found.", "")
    else FirstEmail(items[0].snippet, items[0].ai, items[0].priorityScore, items[0].subject, items[0].from, items[0].url)
  }

  /** `summarize_email`: `gmail_recent` for one message, then its summary; a failure of the
      fetch propagates. */
  method SummarizeEmail(listRecent: int -> Result<seq<string>>, getMessage: string -> Result<Message>,
                        summarize: Summarizer, env: Env)
    returns (r: Result<EmailSummary>)
    ensures var recent := RecentResult(1, listRecent, getMessage, summarize, env);
      && (recent.Err? ==> r == Err(recent.error))
      && (recent.Ok? ==> r == Ok(SummaryOf(recent.value)))
  {
    var items := GmailRecent(1, listRecent, getMessage, summarize, env);
    if items.Err? {
      return Err(items.error);
    }
    r := Ok(SummaryOf(items.value));
  }

  /** The summarised item is the best-scored one. */
  lemma SummaryIsTopScored(listRecent: int -> Result<seq<string>>, getMessage: string -> Result<Message>,
                           summarize: Summarizer, env: Env)
    requires RecentResult(1, listRecent, getMessage, summarize, env).Ok?
    ensures var items := RecentResult(1, listRecent, getMessage, summarize, env).value;
      items != [] ==> forall j :: 0 <= j < |items| ==> ItemKey(items[j]) <= ItemKey(items[0])
  {
    RecentProperties(1, listRecent, getMessage, summarize, env);
  }
}
