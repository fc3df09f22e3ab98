# WorkInFlow core, modelled in Dafny

WorkInFlow is a FastAPI service that gathers a person's work from several places and ranks it. This project models its core:

- **Knowledge base.** Uploaded files and fetched links are normalised, cut into overlapping chunks, embedded and stored with metadata. A query picks a diverse set of retrieved chunks, one per pair of neighbouring chunks of a document, and asks a language model to answer with numbered citations. A flashcard endpoint falls back to a fixed card when the model's answer is unusable.
- **Gmail triage.** Recent messages are fetched and summarised. Each is flagged as blocking by keyword, scored by the priority formula and ranked with a stable descending sort. Any failure answers HTTP 500.
- **Project management.** The Jira provider turns search results into tasks with a normalised status. The aggregator collects tasks from every configured provider, skipping providers that fail. It then summarises and scores each task, scoring 0 when the summary fails, and ranks them.
- **Slack.** Channels and users are listed page by page. A channel or a person is resolved by name: an exact pass runs first, then a substring pass. `slack_send` normalises a free-form or structured request into targets and delivers to each in order. A target that cannot be found aborts the request; any other failure is recorded and the loop goes on.
- **Priority scorer.** The score is a weighted sum, with weights summing to 100, of urgency, importance, deadline proximity, a blocked flag, the sender's tier and recency. It is rounded to three decimals.

Everything outside the process is a parameter:

- The Slack Web API, the Gmail client, the Jira HTTP transport, the vector store and the language models are oracle functions. Their failures are modelled as `Result` errors.
- The clock is a number.
- `math.exp` is a function parameter. Lemmas that need its properties assume only `exp(0) = 1`, values in (0, 1] for non-positive arguments, and monotonicity.
- ISO-8601 parsing is an oracle.

Python exceptions become `Err` values of one `Error` type: HTTP errors, runtime errors, `NotImplementedError`, validation errors raised by the pydantic records, and failures raised by outside code.

Modules, one file each:

| module | file | what it models |
|---|---|---|
| `Common` | `common.dfy` | shared types (`Option`, `Error`, `Result`) and generic loop helpers |
| `Strings` | `strings.dfy` | the string operations the code uses |
| `Models` | `models.dfy` | the records of `app/models.py` |
| `Ranking` | `ranking.dfy` | the stable `sort(key=…, reverse=True)` |
| `Utils` | `utils.dfy` | `app/utils.py` |
| `Priority` | `priority.dfy` | `app/priority.py` |
| `PmBase` | `pm_base.dfy` | `app/pm/base.py` |
| `Jira` | `jira.dfy` | `app/pm/jira_provider.py` |
| `Aggregator` | `aggregator.dfy` | `app/pm/aggregator.py` |
| `Gmail` | `gmail.dfy` | the Gmail endpoints of `main.py` and `app/routes_gmail.py` |
| `KnowledgeBase` | `knowledge_base.dfy` | the knowledge-base endpoints of `main.py` and `app/routes_kb.py` |
| `Slack` | `slack.dfy` | `app/slack_service.py` and `slack_send` of `main.py` |

Operations that loop in the source are methods whose loops carry invariants, and each is proved equal to a specification function:

- the chunker;
- the knowledge-base selection and context building;
- the Jira task listing;
- the aggregator;
- the Gmail ranking;
- Slack paging;
- `slack_send`.

Properties are then proved about those functions.

## Model

| member | source | states |
|---|---|---|
| Common.FirstWhere | app/slack_service.py:23-26 | the index returned is that of the first element passing the test, or the length when none does |
| Common.MapUntilErrProperties | main.py:202-225 | a map that stops at the first error succeeds exactly when every element succeeds, then holds the values in order; otherwise it fails with the error of the first failing element |
| Common.MapUntilErrStep | main.py:203-224 | one more element appends its value, or its error ends the map |
| Common.MapUntilErrSticks | main.py:221-222 | once a prefix fails, the whole map fails with the same error, which is why returning early is right |
| Strings.LStrip | app/utils.py:16 | the result is a suffix of the input that does not start with whitespace |
| Strings.LStripRemovesBlank | app/utils.py:16 | what the left strip removes is whitespace only |
| Strings.RStrip | app/utils.py:16 | the result is a prefix of the input that does not end with whitespace |
| Strings.RStripRemovesBlank | app/utils.py:16 | what the right strip removes is whitespace only |
| Strings.StripSlice | main.py:187-191 | `strip()` is a slice of the input with only whitespace cut off each end |
| Strings.Strip | main.py:191 | `strip()` is no longer than its input and, when not empty, neither starts nor ends with whitespace |
| Strings.StripEmptyIffBlank | main.py:45 | `not text.strip()` holds exactly when the text is all whitespace |
| Strings.StripUnchanged | main.py:191 | a string with non-space ends is its own `strip()` |
| Strings.BlankIffNoNonSpace | main.py:45 | a string is blank exactly when it has no character other than whitespace |
| Strings.NonSpaceConcat | app/utils.py:11 | the non-whitespace characters of a concatenation are those of its parts, in order |
| Strings.StripKeepsNonSpace | app/utils.py:11 | `strip()` keeps every character that is not whitespace, in order |
| Strings.LStripChar | app/slack_service.py:22 | `lstrip(c)` removes exactly the leading run of `c` |
| Strings.RStripChar | app/pm/jira_provider.py:14 | `rstrip(c)` removes exactly the trailing run of `c` |
| Strings.Lower | app/pm/base.py:24 | lower-casing keeps the length and maps each character |
| Strings.LowerIdempotent | app/pm/base.py:24 | lower-casing twice equals lower-casing once |
| Strings.ContainsTransitive | main.py:144 | a string holding `mid` holds every substring of `mid` |
| Strings.NatToStringInjective | main.py:50 | distinct numbers print differently |
| Strings.Take | main.py:95 | `s[:n]` is a prefix of at most `n` characters, all of `s` when it is short enough |
| PmBase.Classify | app/pm/base.py:25-29 | the classification of a lower-cased status is always one of the five labels |
| PmBase.NormalizeStatus | app/pm/base.py:23-29 | `normalize_status` always yields one of todo, in_progress, done, blocked, other |
| PmBase.NormalizeStatusCaseInsensitive | app/pm/base.py:24 | letter case does not matter; a missing or empty status is "other" |
| PmBase.NormalizeStatusExactNames | app/pm/base.py:25-27 | the exact names of each group map to their label in any case |
| PmBase.NormalizeStatusBlocked | app/pm/base.py:28-29 | outside the exact names, the status is "blocked" if and only if it mentions "block", else "other" |
| PmBase.InProgressExample | app/pm/base.py:26 | "In Progress" is in_progress |
| PmBase.BacklogExample | app/pm/base.py:25 | "BACKLOG" is todo |
| PmBase.UnblockedIsBlocked | app/pm/base.py:28 | "Unblocked" is classified as blocked, since it mentions "block" |
| PmBase.InProgressLabelIsOther | app/pm/base.py:23-29 | normalising is not idempotent: the label "in_progress" itself maps to "other" |
| PmBase.NormalizeStatusFixedLabels | app/pm/base.py:23-29 | the labels todo, done, blocked and other map to themselves |
| PmBase.BlockedFlagOnLabels | app/pm/aggregator.py:26 | over normalised labels, containing "blocked" holds exactly for "blocked" |
| PmBase.BaseListTasks | app/pm/base.py:8-9 | the base provider's `list_tasks` raises NotImplementedError |
| PmBase.BaseGetTask | app/pm/base.py:11-12 | the base provider's `get_task` raises NotImplementedError |
| PmBase.BaseCommentTask | app/pm/base.py:14-15 | the base provider's `comment_task` raises NotImplementedError |
| PmBase.BaseUpdateTaskStatus | app/pm/base.py:17-19 | the base provider's `update_task_status` raises NotImplementedError |
| Priority.MapLevel | app/priority.py:6-8 | a level weighs 0.2, 0.6 or 1.0 |
| Priority.MapLevelTable | app/priority.py:6-8 | the level weight is 0.2, 0.6 or 1.0; 0.2 exactly for "low" and 1.0 exactly for "high" in any case; missing or empty is 0.6 |
| Priority.MapLevelCaseInsensitive | app/priority.py:7 | a level weighs as its lower-cased form |
| Priority.MapLevelShouted | app/priority.py:7-8 | "HIGH" weighs 1.0 |
| Priority.ElapsedHours | app/priority.py:15 | hours since arrival are never negative, 0 for a future arrival, otherwise the elapsed milliseconds over 3600000 |
| Priority.RecencyDecay | app/priority.py:10-11 | with a genuine exponential and non-negative hours, the factor lies in (0, 1] |
| Priority.RecencyBounds | app/priority.py:10-11 | the recency factor lies in (0, 1], and is 1 at zero hours |
| Priority.RecencyAntitone | app/priority.py:10-11 | the more hours elapsed, the smaller the recency factor |
| Priority.Clamp01 | app/priority.py:25 | `max(0, min(1, x))` lies in [0, 1] and leaves values already there unchanged |
| Priority.HoursUntil | app/priority.py:24 | the hours until the due instant, times 3600000, are the milliseconds until it; they are non-positive exactly when it is due |
| Priority.DeadlineProximity | app/priority.py:19-27 | 0 with no due date or one that does not parse; otherwise 1 when due, 0 at 72 or more hours away, linear in between; always in [0, 1] |
| Priority.SenderTier | app/priority.py:29 | a sender's tier is 0.2, 0.6 or 1.0 |
| Priority.SenderTierTable | app/priority.py:29 | the tier is 1.0 exactly for exec and customer, 0.6 exactly for pm, 0.2 for everything else (ic, missing, unknown) |
| Priority.SenderTierCaseInsensitive | app/priority.py:29 | a role's tier is that of its lower-cased form |
| Priority.SenderTierExamples | app/priority.py:29 | pm is 0.6, ic and a missing role are 0.2 |
| Priority.RawScore | app/priority.py:13-33 | with a genuine exponential the unrounded score lies in (14, 100] |
| Priority.Round3 | app/priority.py:34 | `round(x, 3)` moves a value by at most half a thousandth |
| Priority.ComputePriority | app/priority.py:13-34 | the score is the weighted sum rounded to within half a thousandth |
| Priority.Round3Monotone | app/priority.py:34 | rounding is monotone |
| Priority.Round3Shift | app/priority.py:34 | rounding commutes with adding ten |
| Priority.Round3Exact | app/priority.py:34 | a multiple of a thousandth rounds to itself |
| Priority.BlockedAddsTen | app/priority.py:31-34 | the blocked flag adds exactly 10 points, before and after rounding |
| Priority.FutureArrivalScoresAsNow | app/priority.py:15 | an arrival after now scores as one at now |
| Priority.MonotoneInUrgency | app/priority.py:16-34 | raising urgency never lowers the score |
| Priority.MonotoneInImportance | app/priority.py:17-34 | raising importance never lowers the score |
| Priority.ScoreBounds | app/priority.py:13-34 | the score lies in [14, 100] |
| Priority.ExampleUrgentExecItem | app/priority.py:13-34 | a blocked high/high item from an executive, arriving now and due in 24 hours, scores 95 |
| Ranking.SortByKeyDescCorrect | app/pm/aggregator.py:58 | the descending sort by key is ordered, a permutation of its input, and stable among equal keys |
| Ranking.InsertSorted | app/pm/aggregator.py:58 | inserting into a sorted list keeps it sorted |
| Ranking.InsertMultiset | app/pm/aggregator.py:58 | inserting adds exactly the inserted element |
| Ranking.InsertWithKey | app/pm/aggregator.py:58 | an inserted element goes after all elements with its key |
| Ranking.WithKeyAppend | app/pm/aggregator.py:58 | filtering by key distributes over concatenation |
| Utils.WindowStart | app/utils.py:12-20 | window starts are never negative |
| Utils.WindowStartIsProduct | app/utils.py:12-20 | window `j` starts at `j * (size - overlap)` |
| Utils.WindowArith | app/utils.py:13-20 | every window starts inside the text, and exactly the last one reaches its end |
| Utils.WindowCovers | app/utils.py:13-20 | every position of the text lies in some window |
| Utils.Window | app/utils.py:14-15 | a window holds at most `size` characters |
| Utils.Windows | app/utils.py:13-20 | there is one window per loop round |
| Utils.DropBlank | app/utils.py:16-17 | no more chunks than windows, and none of them blank |
| Utils.DropBlankMembers | app/utils.py:16-17 | the kept windows are exactly the non-blank ones |
| Utils.SpaceRun | app/utils.py:11 | the whitespace run at the start of a text: all whitespace, ended by a non-space character or the end |
| Utils.LastBreak | app/utils.py:11 | the last line break among the first `n` characters, with no line break after it |
| Utils.FoldBreaksClean | app/utils.py:11 | after `re.sub(r"\s+\n", "\n", …)` no whitespace character stands right before a line break |
| Utils.FoldBreaksKeepsNonSpace | app/utils.py:11 | the substitution keeps every non-whitespace character, in order |
| Utils.FoldBreaksExample | app/utils.py:11 | "x \ny" becomes "x\ny" |
| Utils.NormaliseProperties | app/utils.py:11 | normalising keeps every non-whitespace character in order, so blank text stays blank and other text does not become blank; no whitespace before a line break; no whitespace at either end |
| Utils.ChunkText | app/utils.py:10-21 | the text is normalised, and the chunking loop returns the non-blank windows of the normalised text in order |
| Utils.WindowOccurs | app/utils.py:15 | each window occurs in the text where it starts |
| Utils.ChunksAreSlices | app/utils.py:10-21 | each chunk is a non-blank slice of the text of at most `size` characters; empty text gives none |
| Utils.WindowsTile | app/utils.py:12-20 | windows start at 0, advance by `size - overlap`, and the last ends at the end of the text |
| Utils.ChunksCoverText | app/utils.py:10-21 | every non-whitespace character lies in some returned chunk |
| Utils.NonBlankTextHasChunks | app/utils.py:10-21 | text that is not all whitespace gives at least one chunk |
| Utils.NoProgressWhenOverlapTooLarge | app/utils.py:20 | with `overlap >= size` the loop does not advance on text longer than a window |
| Utils.FirstHeaderValue | app/utils.py:56-60 | the value of the first header with exactly that name, or none when no header has it |
| Utils.HeaderLookup | app/utils.py:56-60 | missing headers give no value; otherwise the first matching header's value |
| Utils.MakeMeta | app/utils.py:44-54 | the metadata holds the given ids, order and clock reading, and a url key exactly when a url is given |
| Jira.NewJiraProvider | app/pm/jira_provider.py:11-14 | construction succeeds exactly when the three settings are set, otherwise RuntimeError; the base url loses exactly its trailing slashes |
| Jira.TrailingSlashesTrimmed | app/pm/jira_provider.py:14 | "https://x.atlassian.net//" is stored without its slashes |
| Jira.Jql | app/pm/jira_provider.py:35-39 | the JQL for one's own tasks is the assignee clause AND the open-status clause, then the ordering; for everyone's tasks the open-status clause alone, then the ordering |
| Jira.TitleOf | app/pm/jira_provider.py:53 | the title is the summary when truthy, else the issue key |
| Jira.IssueToTask | app/pm/jira_provider.py:49-72 | an issue maps to a task exactly when it has an id and a title (and, when fetched alone, a plain description), with the status normalised and each field taken from the issue; otherwise a validation error |
| Jira.ListTasksResult | app/pm/jira_provider.py:34-73 | a failed search propagates its error; a success holds one task per issue; any other failure is a validation error |
| Jira.ListTasksProperties | app/pm/jira_provider.py:34-73 | the search asks for `limit` results; its failure propagates; otherwise one task per issue in order, failing exactly when some issue lacks an id or a title |
| Jira.ListTasks | app/pm/jira_provider.py:34-73 | the listing loop computes the listing function |
| Jira.GetTask | app/pm/jira_provider.py:75-90 | a fetch failure propagates; otherwise the issue's task, which is refused for a rich-text description |
| Jira.RichDescriptionListedNotFetched | app/pm/jira_provider.py:54-84 | an issue with a rich description is listed with it stringified but cannot be fetched on its own |
| Jira.BrowseUrl | app/pm/jira_provider.py:59 | the issue link is the base url, "/browse/", then the key |
| Jira.CommentRequest | app/pm/jira_provider.py:92-93 | the comment is posted as the body to the issue's `/comment` endpoint |
| Jira.CommentTask | app/pm/jira_provider.py:92-93 | the answer is the transport's answer to posting the text to `<base>/rest/api/3/issue/<id>/comment` |
| Jira.UpdateTaskStatus | app/pm/jira_provider.py:96-97 | status updates raise NotImplementedError, like the base provider |
| Aggregator.ActiveProviders | app/pm/aggregator.py:28-36 | at most one provider, present exactly when Jira is configured, and it is the constructed one |
| Aggregator.Collected | app/pm/aggregator.py:38-44 | tasks are collected only when some provider's listing succeeds |
| Aggregator.OkTasksMembers | app/pm/aggregator.py:40-44 | a task is among the successful listings' tasks exactly when one of those listings holds it |
| Aggregator.CollectedIsOkTasks | app/pm/aggregator.py:38-44 | collecting provider by provider gives the tasks of the successful listings, in order |
| Aggregator.CollectedMembers | app/pm/aggregator.py:40-44 | a task is collected exactly when some provider's successful listing holds it |
| Aggregator.FailingProviderSkipped | app/pm/aggregator.py:41-44 | a provider whose listing fails contributes nothing |
| Aggregator.CollectedStatusesNormalised | app/pm/aggregator.py:38-44 | every collected task carries a normalised status label |
| Aggregator.Enrich | app/pm/aggregator.py:48-56 | enrichment changes only the summary and the score: the summary and its score, or score 0 when summarising fails |
| Aggregator.EnrichAll | app/pm/aggregator.py:48-56 | each task is enriched in place, in order |
| Aggregator.ListTasksAll | app/pm/aggregator.py:38-59 | the aggregator's loops give the ranked enrichment of the collected tasks |
| Aggregator.ListTasksAllRanked | app/pm/aggregator.py:58-59 | the ranked list holds each enriched task once, by non-increasing score, ties in collection order |
| Aggregator.TaskScore | app/pm/aggregator.py:23-26 | with a genuine exponential a task's score lies in [14, 100] |
| Aggregator.TaskScoreFormula | app/pm/aggregator.py:23-26 | a task scores with the pm tier and no recency decay |
| Aggregator.BlockedFlagMeansBlockedStatus | app/pm/aggregator.py:26 | for a collected task, the blocked flag holds exactly for the status "blocked" |
| Gmail.SnippetBlocked | main.py:143-144 | a snippet is blocking exactly when its lower-cased form holds one of six phrases |
| Gmail.BlockerPhrasesSpelledOut | main.py:143-144 | one of the seven blocker phrases occurs exactly when one of six does: "by eod" adds nothing |
| Gmail.ShoutedDeadlineBlocks | main.py:143-144 | "by EOD" is blocking |
| Gmail.Timestamp | main.py:140 | a missing `internalDate` is 0, digits are their value, anything else fails |
| Gmail.ItemFor | main.py:135-159 | a listed message becomes an item carrying its headers, snippet, timestamp, mail url, summary and score; a failed fetch or a bad date fails |
| Gmail.ItemsFor | main.py:134-159 | one item result per listed id, in order |
| Gmail.RecentResult | main.py:129-163 | every failure is HTTP 500, and a failed listing fails the request |
| Gmail.GmailRecent | main.py:129-163 | the handler's loop computes the ranked result, or HTTP 500 on any failure |
| Gmail.RecentProperties | main.py:129-163 | all failures are HTTP 500; on success the items are a permutation of the fetched ones, one per id, ranked by non-increasing score and stable among equal scores |
| Gmail.SummaryOf | main.py:169-179 | no items gives the fixed answer; otherwise the first item's fields |
| Gmail.SummarizeEmail | main.py:166-179 | the summary of `gmail_recent(1)`, whose failure propagates |
| Gmail.SummaryIsTopScored | main.py:168-171 | the summarised item has the best score |
| KnowledgeBase.Zip3 | main.py:81 | `zip` stops at the shortest list and pairs elements by position |
| KnowledgeBase.QueryCount | main.py:75 | the store is asked for `max(8, k + 2)` rows |
| KnowledgeBase.PickLimit | main.py:86 | the check after each append allows at least one pick, and `k` picks when `k >= 1` |
| KnowledgeBase.FirstOfEachKey | main.py:80-86 | the reference picks are no more than the candidates |
| KnowledgeBase.SelectChunks | main.py:80-86 | the selection loop returns the first candidate of each key, cut at the pick limit |
| KnowledgeBase.FirstOfEachKeySubsequence | main.py:80-86 | the picks are an in-order subsequence of the candidates |
| KnowledgeBase.FirstOfEachKeyKeys | main.py:82-85 | the picks have metadata and cover exactly the keys of the eligible candidates |
| KnowledgeBase.FirstOfEachKeyDistinct | main.py:83-84 | no two picks share a key |
| KnowledgeBase.SelectionProperties | main.py:80-86 | the picks are an in-order subsequence with metadata and distinct keys, at most the limit, none from no candidates, and below the limit they cover every eligible key |
| KnowledgeBase.Selection | main.py:76-86 | the picks of a query are candidates of its result with metadata and pairwise different keys, at most the pick limit |
| KnowledgeBase.SelectionCoversKeys | main.py:82-86 | below the limit, every eligible candidate shares its key with some pick |
| KnowledgeBase.BucketExample | main.py:83 | chunks 4 and 5 of a document share a bucket; chunks 4 and 6 do not |
| KnowledgeBase.Preview | main.py:95 | a citation preview has at most 200 characters |
| KnowledgeBase.ContextBlocks | main.py:92-93 | one context block per pick, numbered from 1 |
| KnowledgeBase.BuildContext | main.py:91-95 | the loop builds the numbered blocks and one citation per pick, in order |
| KnowledgeBase.KbQueryMain | main.py:72-103 | a failed embedding or store query is the handler's error; no picks gives the fixed answer; otherwise the stripped reply with one citation per pick; a failed model call or an empty reply fails |
| KnowledgeBase.KbQueryRouter | app/routes_kb.py:44-84 | as in main.py, but a missing or blank reply is HTTP 502, while a model call that raises is the handler's error |
| KnowledgeBase.FlashcardTitle | main.py:113 | the title of the first metadata entry when it is a dict (missing exactly when that entry has none), and "Untitled" when there is no such entry |
| KnowledgeBase.FallbackCards | main.py:126 | one card asking for the main idea, answered by the first 200 characters of the text |
| KnowledgeBase.Flashcards | main.py:106-126 | a failed store lookup is the handler's error; no documents is HTTP 404; a model call that raises is caught in main.py and not in the router; the model's cards when it gives a "cards" entry; otherwise the single fallback card holding the first 200 characters; a returned set carries the title of the first metadata entry, or "Untitled" |
| KnowledgeBase.ChunkIdsDistinct | main.py:50 | chunk ids of one document are pairwise different |
| KnowledgeBase.ChunkRecords | main.py:50-51 | chunk `i` has id "doc:i" and the metadata of order `i` |
| KnowledgeBase.ChunkRecordsProperties | main.py:50-51 | orders are 0, 1, …, urls are present exactly for links, and ids are distinct |
| KnowledgeBase.StoreChunksProperties | main.py:48-53 | a failed embedding gives the error of the first chunk that fails; otherwise the store gets the chunks with their ids, metadata and vectors in order, and its failure is the handler's error |
| KnowledgeBase.UploadTitle | main.py:44 | the given title unless missing or empty, else the file name |
| KnowledgeBase.KbUpload | main.py:41-53 | blank text is refused with HTTP 400; other text gives at least one chunk of the normalised text, which are embedded and stored under the title, defaulting to the file name |
| KnowledgeBase.FirstLine | main.py:62 | the first line is a prefix without a line break, ended by one when shorter than the text |
| KnowledgeBase.KbLink | main.py:56-69 | a failed fetch is HTTP 400; otherwise the title is the first line of the fetched text cut to 120 characters, the chunks come from the normalised text and are embedded and stored, and every chunk's metadata carries the url |
| Slack.CollectPages | app/slack_service.py:12-19 | paging gathers the entries of every page up to the first without a cursor, in order, or fails with the first failed request |
| Slack.GatheredMembers | app/slack_service.py:16 | an entry is gathered exactly when some page served holds it |
| Slack.SinglePageListing | app/slack_service.py:17-18 | a first page with an empty cursor is the whole listing |
| Slack.ListChannels | app/slack_service.py:12-19 | channels are listed 200 per page with the given types |
| Slack.UsersList | app/slack_service.py:28-35 | members are listed 200 per page |
| Slack.ChannelName | app/slack_service.py:24 | the lower-cased name when it is set, otherwise the lower-cased `name_normalized` |
| Slack.ChannelQuery | app/slack_service.py:22 | the normalised query never starts with '#' |
| Slack.FindChannel | app/slack_service.py:23-26 | a found id belongs to a channel with the queried name |
| Slack.FindChannelFirst | app/slack_service.py:23-25 | the first channel with the name wins |
| Slack.FindChannelNone | app/slack_service.py:23-26 | nothing is found exactly when no channel has the name |
| Slack.GetChannelIdByName | app/slack_service.py:21-26 | a found id belongs to a channel whose matched name is the normalised query, and nothing is found exactly when no channel has that name |
| Slack.HashPrefixIgnored | app/slack_service.py:22 | "#general" and "general" resolve alike |
| Slack.FindUser | app/slack_service.py:42-66 | a found id belongs to an active member that matches the query exactly or as a substring |
| Slack.JoinedNames | app/slack_service.py:59-63 | the five names, in order, separated by single spaces |
| Slack.FindUserIdByName | app/slack_service.py:37-66 | a found id belongs to an active member matching the normalised query; nothing is found exactly when no active member's joined names hold it |
| Slack.ExactImpliesFuzzy | app/slack_service.py:46-63 | an exact name match is also a substring match |
| Slack.FindUserExactFirst | app/slack_service.py:43-54 | the first exact match wins |
| Slack.FindUserFuzzyFirst | app/slack_service.py:55-65 | with no exact match, the first substring match wins |
| Slack.FindUserNone | app/slack_service.py:43-66 | nothing is found exactly when no active member's joined names hold the query |
| Slack.ExactBeatsEarlierSubstring | app/slack_service.py:43-65 | an exact match beats an earlier substring match |
| Slack.AtPrefixIgnored | app/slack_service.py:42 | "@tom" and "tom" resolve alike |
| Slack.EmptyNameMatchesAnyone | app/slack_service.py:42-64 | a name empty once trimmed finds a member exactly when some member is active (which one depends on the exact pass: a member with a missing or empty name field wins over the first active one) |
| Slack.ToTarget | main.py:190-195 | the stripped `to` is a channel target exactly when it starts with '#', else a user target |
| Slack.ToTargetOfTrimmed | main.py:190-195 | "#general" names a channel, "@tom" a person |
| Slack.StructuredTargets | main.py:189-197 | one target for `to`, then one for `channel_id`, each when given, all of a known type |
| Slack.Normalize | main.py:183-197 | free-form requests go through the parser; structured ones give their targets; the text is stripped |
| Slack.Posting | main.py:218-220 | a delivery is recorded for the target, successful exactly when the post and the permalink call succeed |
| Slack.DeliveryFor | main.py:204-224 | only an unknown type (400) or a channel or person not found (404) aborts; every other failure is recorded; a `channel_id` target posts to that id, a channel target to the found channel id with the thread, a person target to the found member id, each with the message text |
| Slack.SlackSend | main.py:181-225 | a parse failure propagates; no target or no text is HTTP 400; otherwise targets are delivered in order up to the first abort |
| Slack.DeliveriesFollowTargets | main.py:202-225 | a request that goes through has one delivery per target in order; one that aborts does so with HTTP 400 or 404 |
| Slack.StructuredAbortsAre404 | main.py:189-217 | a structured request can only abort with HTTP 404 |

## Left out

- Outside services are not modelled beyond their answers: the Slack Web API, the Gmail client, the Jira HTTP transport (including the Basic authorisation header), the vector store, the embedding model, the Gemini models and the natural-language parser of Slack requests. Each is an oracle parameter. What it raises is an `Err` value, which the handler passes on unless the source catches it; FastAPI answers such an uncaught exception with HTTP 500.
- FastAPI wiring is left out as I/O: CORS, the favicon and home routes, request parsing, and `pm_tasks` and `pm_jira_comment`, which only delegate to the modelled operations.
- `app/config.py`: the settings are parameters.
- The crewai projects under `src/` are outside the core.
- `parse_file` and `fetch_url` are left out as I/O: PDF extraction, HTML scraping and the network. The uploaded or fetched text is a parameter.
- `uuid.uuid4()` is left out: the document id is a parameter.
- `now_ms()`: the clock is one reading per request. `_score` reads the clock as the arrival time, and `compute_priority` then reads it again. The model takes both readings as the same instant, so a task's recency factor is exactly 1.
- `math.exp` and floating point: scores are exact reals and `exp` is a parameter. `round` is modelled as round-half-even to a multiple of 0.001 on exact values, not on binary floats.
- `datetime.fromisoformat` is an oracle that yields the due instant, or nothing when it raises.
- Utils.ChunkText: requires `0 <= overlap < size`. Every caller uses the defaults 1200 and 200. The source loop also runs with other arguments. It fails to end exactly when the stride `size - overlap` is not positive and the normalised text is longer than `max(size, 0)` characters (Utils.NoProgressWhenOverlapTooLarge shows the stall for `overlap >= size`). With a positive stride it always ends; with a negative overlap it then skips characters between windows. The model does not cover those other arguments.
- `_summarize_task` builds a prompt for the summarizer; the summarizer is an oracle on the task, so the prompt text is not modelled.
- Strings.Lower: lower-cases ASCII letters only; Python's `str.lower` also folds other letters.
- Slack.FindUser: `users_list()` is called once per pass in the source; the model uses a single listing for both passes.
- Slack.CollectPages: requires the listing to end (some page has no cursor); a listing that never ends is not modelled.
- Slack: JSON `null` profile fields are modelled as missing keys. In the substring pass a `null` display name would make `" ".join` raise; the model does not capture that.
- Slack.SlackSend: one channel listing and one member listing serve every target of a request. In the source, each channel target lists the channels again (`app/slack_service.py:23`, called from `main.py:209`), and each person target lists the members again, once per pass (`app/slack_service.py:43` and `56`, called from `main.py:213`). The model sees the same workspace for every target, so a workspace that changes during the request is not modelled.
- Slack.SlackSend: a message posted before an abort stays posted; the model records only the answer, not the side effects already made.
- Slack.Posting: `permalink` swallows Slack API errors as no link; other exceptions are recorded as failed deliveries. The split between the two is part of the oracle.
- Gmail.GmailRecent: `app/gmail_service.py` defines no `header_lookup`. The import at `app/routes_gmail.py:4` therefore fails, and that router cannot be loaded. The model gives the router copy the behaviour of `main.py`, which uses `utils.header_lookup`. A missing `payload` reads as no headers.
- Gmail.RecentResult: a failure answers HTTP 500 with the detail "Failed to fetch Gmail: " followed by the exception text; the model's error carries only the fixed prefix "Failed to fetch Gmail", since the exception text comes from the Gmail client, an oracle.
- KnowledgeBase.KbLink: a failed fetch answers HTTP 400 with the detail "Fetch failed: " followed by the exception text; the contract states the status only.
- KnowledgeBase.Flashcards: `FlashcardSet` validation of the model's cards (list of string pairs) is not modelled; a parsed "cards" entry is taken as is.
- The prompt texts of the flashcard endpoint are not modelled; the model's answer is an oracle result.
