/**
 * The project-management provider interface of app/pm/base.py: the four
 * provider operations, which the base provider does not implement, and the
 * status classifier every provider shares.
 */
module PmBase {
  import opened Common
  import opened Strings
  import opened Models

  /** The five normalised status labels. */
  predicate IsStatusLabel(s: string)
  {
    s == "todo" || s == "in_progress" || s == "done" || s == "blocked" || s == "other"
  }

  /** The classification of an already lower-cased status: exact names first, then
      anything mentioning "block". */
  function Classify(r: string): (s: string)
    ensures IsStatusLabel(s)
  {
    if r in {"to do", "todo", "backlog"} then "todo"
    else if r in {"in progress", "doing"} then "in_progress"
    else if r in {"done", "closed", "resolved"} then "done"
    else if Contains(r, "block") then "blocked"
    else "other"
  }

  /** `normalize_status`: a missing status reads as empty; the rest is lower-cased and
      classified. */
  function NormalizeStatus(raw: Option<string>): (s: string)
    ensures IsStatusLabel(s)
  {
    Classify(Lower(raw.GetOr("")))
  }

  /** The classifier ignores letter case; a missing or empty status is "other". */
  lemma NormalizeStatusCaseInsensitive(raw: string)
    ensures NormalizeStatus(Some(raw)) == NormalizeStatus(Some(Lower(raw)))
    ensures NormalizeStatus(None) == "other" && NormalizeStatus(Some("")) == "other"
  {
    LowerIdempotent(raw);
    assert Lower("") == "";
    assert !Contains("", "block");
  }

  /** The exact names of each group, in any letter case. */
  lemma NormalizeStatusExactNames(raw: string)
    ensures Lower(raw) in {"to do", "todo", "backlog"} ==> NormalizeStatus(Some(raw)) == "todo"
    ensures Lower(raw) in {"in progress", "doing"} ==> NormalizeStatus(Some(raw)) == "in_progress"
    ensures Lower(raw) in {"done", "closed", "resolved"} ==> NormalizeStatus(Some(raw)) == "done"
  {
  }

  /** "In Progress" is recognised whatever its case. */
  lemma InProgressExample()
    ensures NormalizeStatus(Some("In Progress")) == "in_progress"
  {
    var s, t := "In Progress", "in progress";
    assert forall i :: 0 <= i < |s| ==> LowerChar(s[i]) == t[i];
    LowerAgrees(s, t);
  }

  /** "BACKLOG" is recognised whatever its case. */
  lemma BacklogExample()
    ensures NormalizeStatus(Some("BACKLOG")) == "todo"
  {
    assert Lower("BACKLOG") == "backlog";
  }

  /** Any other status mentioning "block" (in any case) is "blocked", and a status that is
      neither an exact name nor mentions "block" is "other". */
  lemma NormalizeStatusBlocked(raw: string)
    requires Lower(raw) !in {"to do", "todo", "backlog", "in progress", "doing", "done", "closed", "resolved"}
    ensures NormalizeStatus(Some(raw)) == "blocked" <==> Contains(Lower(raw), "block")
    ensures NormalizeStatus(Some(raw)) == "other" <==> !Contains(Lower(raw), "block")
  {
  }

  /** No exact name has nine letters. */
  lemma ClassifyNineLetters(r: string)
    requires |r| == 9
    ensures Classify(r) == (if Contains(r, "block") then "blocked" else "other")
  {
  }

  /** "Unblocked" is classified as blocked. */
  lemma UnblockedIsBlocked()
    ensures NormalizeStatus(Some("Unblocked")) == "blocked"
  {
    var s, t := "Unblocked", "unblocked";
    assert forall i :: 0 <= i < |s| ==> LowerChar(s[i]) == t[i];
    LowerAgrees(s, t);
    assert OccursAt(t, "block", 2);
    ClassifyNineLetters(t);
  }

  /** A label that does not contain "blocked". */
  lemma NotContainsBlocked(s: string)
    requires s == "todo" || s == "in_progress" || s == "done" || s == "other"
    ensures !Contains(s, "blocked")
  {
    if s == "in_progress" {
      forall i | 0 <= i <= |s| - 7 ensures !OccursAt(s, "blocked", i) {
        assert s[i] != 'b';
      }
    }
  }

  /** "in_progress" holds no "block". */
  lemma InProgressHasNoBlock()
    ensures !Contains("in_progress", "block")
  {
    var s := "in_progress";
    forall i | 0 <= i <= |s| - 5 ensures !OccursAt(s, "block", i) {
      assert s[i] != 'b';
    }
  }

  /** An eleven-letter status whose third character is not a space is none of the exact
      names, so it is "blocked" or "other". */
  lemma ClassifyElevenLetters(r: string)
    requires |r| == 11 && r[2] != ' '
    ensures Classify(r) == (if Contains(r, "block") then "blocked" else "other")
  {
    assert r != "in progress" by {
      assert "in progress"[2] == ' ';
    }
  }

  /** Normalisation is not idempotent: the label "in_progress" is not one of the known names
      and falls through to "other". */
  lemma InProgressLabelIsOther()
    ensures NormalizeStatus(Some("in_progress")) == "other"
  {
    LowerOfLowercase("in_progress");
    InProgressHasNoBlock();
    ClassifyElevenLetters("in_progress");
  }

  /** The other four labels map to themselves. */
  lemma NormalizeStatusFixedLabels(s: string)
    requires s == "todo" || s == "done" || s == "blocked" || s == "other"
    ensures NormalizeStatus(Some(s)) == s
  {
    LowerOfLowercase(s);
    if s == "blocked" {
      assert OccursAt(s, "block", 0);
      assert s != "backlog" by {
        assert s[1] != "backlog"[1];
      }
    } else if s == "other" {
      assert !OccursAt(s, "block", 0);
      assert s != "to do" && s != "doing" by {
        assert s[0] != "to do"[0] && s[0] != "doing"[0];
      }
    }
  }

  /** Over normalised labels, "contains 'blocked'" (the aggregator's blocked flag) holds
      exactly for the label "blocked". */
  lemma BlockedFlagOnLabels(s: string)
    requires IsStatusLabel(s)
    ensures Contains(s, "blocked") <==> s == "blocked"
  {
    if s == "blocked" {
      assert OccursAt(s, "blocked", 0);
    } else {
      NotContainsBlocked(s);
    }
  }

  // ---------------------------------------------------------------------------
  // The base provider

  /** What a provider's comment or status call answers: the decoded JSON body, kept opaque. */
  datatype Reply = Reply(body: string)

  /** `PMProvider.list_tasks`. */
  function BaseListTasks(assigneeMe: bool, limit: int): (r: Result<seq<Task>>)
    ensures r.Err? && r.error == NotImplementedError
  {
    Err(NotImplementedError)
  }

  /** `PMProvider.get_task`. */
  function BaseGetTask(taskId: string): (r: Result<Task>)
    ensures r.Err? && r.error == NotImplementedError
  {
    Err(NotImplementedError)
  }

  /** `PMProvider.comment_task`. */
  function BaseCommentTask(taskId: string, text: string): (r: Result<Reply>)
    ensures r.Err? && r.error == NotImplementedError
  {
    Err(NotImplementedError)
  }

  /** `PMProvider.update_task_status`. */
  function BaseUpdateTaskStatus(taskId: string, newStatus: string): (r: Result<Reply>)
    ensures r.Err? && r.error == NotImplementedError
  {
    Err(NotImplementedError)
  }
}
