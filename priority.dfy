/**
 * The priority scorer (app/priority.py): a weighted sum, with weights adding
 * up to 100, of urgency (35), importance (25), deadline proximity (15), a
 * blocked flag (10), the sender's tier (10) and a recency factor (5), rounded
 * to three decimals.
 *
 * The world the scorer consults is passed in as an `Env`: the clock reading
 * `now` (milliseconds since the epoch), the exponential function and the
 * ISO-8601 parser (which yields the due instant in milliseconds, or nothing
 * when the text does not parse). Scores are exact reals.
 */
module Priority {
  import opened Common
  import opened Strings
  import opened Models

  datatype Env = Env(now: int, exp: real -> real, parseDue: string -> Option<real>)

  const MsPerHour: real := 3600000.0
  /** Hours over which recency decays by a factor e, and the deadline horizon. */
  const HorizonHours: real := 72.0

  /** What the proofs need of the exponential function. */
  ghost predicate ExpLike(exp: real -> real)
  {
    && exp(0.0) == 1.0
    && (forall x :: x <= 0.0 ==> 0.0 < exp(x) <= 1.0)
    && (forall x, y :: x <= y ==> exp(x) <= exp(y))
  }

  /** `map_level`: low, medium, high in any letter case; everything else counts as medium. */
  function MapLevel(level: Option<string>): (w: real)
    ensures w == 0.2 || w == 0.6 || w == 1.0
  {
    var l := Lower(level.GetOr(""));
    if l == "low" then 0.2
    else if l == "medium" then 0.6
    else if l == "high" then 1.0
    else 0.6
  }

  /** `(lvl or "").lower()` then the table: a missing, empty or unknown level weighs as medium. */
  lemma MapLevelTable(level: Option<string>)
    ensures MapLevel(level) == 0.2 || MapLevel(level) == 0.6 || MapLevel(level) == 1.0
    ensures MapLevel(level) == 0.2 <==> level.Some? && Lower(level.value) == "low"
    ensures MapLevel(level) == 1.0 <==> level.Some? && Lower(level.value) == "high"
    ensures level.None? || level == Some("") ==> MapLevel(level) == 0.6
  {
    if level == Some("") {
      assert Lower("") == "";
    }
  }

  /** Letter case does not matter: "HIGH", "High" and "high" weigh the same. */
  lemma MapLevelCaseInsensitive(level: string)
    ensures MapLevel(Some(level)) == MapLevel(Some(Lower(level)))
  {
    LowerIdempotent(level);
  }

  /** "HIGH" is the high level. */
  lemma MapLevelShouted()
    ensures MapLevel(Some("HIGH")) == 1.0
  {
    var s, t := "HIGH", "high";
    assert forall i :: 0 <= i < |s| ==> LowerChar(s[i]) == t[i];
    LowerAgrees(s, t);
  }

  /** Hours since arrival, never negative. */
  function ElapsedHours(arrivalMs: int, now: int): (h: real)
    ensures h >= 0.0
    ensures now <= arrivalMs ==> h == 0.0
    ensures arrivalMs <= now ==> h * MsPerHour == (now - arrivalMs) as real
  {
    var raw := (now - arrivalMs) as real / MsPerHour;
    if raw < 0.0 then 0.0 else raw
  }

  /** `recency_decay`: `exp(-hours / 72)`. */
  function RecencyDecay(hours: real, exp: real -> real): (d: real)
    ensures ExpLike(exp) && hours >= 0.0 ==> 0.0 < d <= 1.0
  {
    exp(-hours / HorizonHours)
  }

  /** With no elapsed time there is no decay; otherwise the factor lies in (0, 1]. */
  lemma RecencyBounds(hours: real, exp: real -> real)
    requires ExpLike(exp) && hours >= 0.0
    ensures 0.0 < RecencyDecay(hours, exp) <= 1.0
    ensures hours == 0.0 ==> RecencyDecay(hours, exp) == 1.0
  {
    assert -hours / HorizonHours <= 0.0;
  }

  /** The later the arrival, the larger the recency factor. */
  lemma RecencyAntitone(h1: real, h2: real, exp: real -> real)
    requires ExpLike(exp) && h1 <= h2
    ensures RecencyDecay(h2, exp) <= RecencyDecay(h1, exp)
  {
    assert -h2 / HorizonHours <= -h1 / HorizonHours;
  }

  function Clamp01(x: real): (r: real)
    ensures 0.0 <= r <= 1.0
    ensures 0.0 <= x <= 1.0 ==> r == x
  {
    if x < 0.0 then 0.0 else if x > 1.0 then 1.0 else x
  }

  /** Hours from `now` until the due instant. */
  function HoursUntil(dueMs: real, now: int): (h: real)
    ensures h * MsPerHour == dueMs - now as real
    ensures h <= 0.0 <==> dueMs <= now as real
  {
    (dueMs - now as real) / MsPerHour
  }

  /** Deadline proximity: 0 with no due value (or one that does not parse), otherwise
      1 at or past the due instant, 0 at 72 hours or more before it, linear in between. */
  function DeadlineProximity(due: Option<string>, env: Env): (p: real)
    ensures 0.0 <= p <= 1.0
    ensures due.None? || due == Some("") ==> p == 0.0
    ensures due.Some? && due.value != "" && env.parseDue(due.value).None? ==> p == 0.0
    ensures due.Some? && due.value != "" && env.parseDue(due.value).Some? ==>
      var hrs := HoursUntil(env.parseDue(due.value).value, env.now);
      && (hrs <= 0.0 ==> p == 1.0)
      && (hrs >= HorizonHours ==> p == 0.0)
      && (0.0 <= hrs <= HorizonHours ==> p == (HorizonHours - hrs) / HorizonHours)
  {
    match due
    case None => 0.0
    case Some(iso) =>
      if iso == "" then 0.0
      else match env.parseDue(iso)
        case None => 0.0
        case Some(dueMs) => Clamp01((HorizonHours - HoursUntil(dueMs, env.now)) / HorizonHours)
  }

  /** The sender tier table, case-insensitive; an absent or unknown role is the lowest tier. */
  function SenderTier(role: Option<string>): (t: real)
    ensures t == 0.2 || t == 0.6 || t == 1.0
  {
    var r := Lower(role.GetOr(""));
    if r == "exec" || r == "customer" then 1.0
    else if r == "pm" then 0.6
    else 0.2
  }

  lemma SenderTierTable(role: Option<string>)
    ensures SenderTier(role) == 1.0 <==> role.Some? && (Lower(role.value) == "exec" || Lower(role.value) == "customer")
    ensures SenderTier(role) == 0.6 <==> role.Some? && Lower(role.value) == "pm"
    ensures SenderTier(role) == 0.2 <==> role.None? || Lower(role.value) !in {"exec", "customer", "pm"}
  {
    if role.None? {
      assert Lower("") == "";
    }
  }

  /** Letter case does not matter: "Exec" and "CUSTOMER" are the top tier like "exec" and
      "customer". */
  lemma SenderTierCaseInsensitive(role: string)
    ensures SenderTier(Some(role)) == SenderTier(Some(Lower(role)))
  {
    LowerIdempotent(role);
  }

  /** A project manager is the middle tier; an individual contributor and a missing role
      are the lowest. */
  lemma SenderTierExamples()
    ensures SenderTier(Some("pm")) == 0.6 && SenderTier(Some("ic")) == 0.2 && SenderTier(None) == 0.2
  {
    assert Lower("") == "";
    LowerOfLowercase("pm");
    LowerOfLowercase("ic");
  }

  /** The score before rounding. */
  function RawScore(ai: AISummary, arrivalMs: int, senderRole: Option<string>, blocked: bool, env: Env): (s: real)
    ensures ExpLike(env.exp) ==> 14.0 < s <= 100.0
  {
    var urgency := MapLevel(Some(ai.urgency));
    var importance := MapLevel(Some(ai.importance));
    var deadline := DeadlineProximity(ai.suggestedDueIso, env);
    var blocker := if blocked then 1.0 else 0.0;
    var tier := SenderTier(senderRole);
    var rec := RecencyDecay(ElapsedHours(arrivalMs, env.now), env.exp);
    35.0 * urgency + 25.0 * importance + 15.0 * deadline + 10.0 * blocker + 10.0 * tier + 5.0 * rec
  }

  /** `round(x, 3)`: the nearest multiple of 0.001, ties to the even multiple. */
  function Round3(x: real): (r: real)
    ensures x - 0.0005 <= r <= x + 0.0005
  {
    var y := x * 1000.0;
    var f := y.Floor;
    var d := y - f as real;
    var n := if d < 0.5 then f else if d > 0.5 then f + 1 else if f % 2 == 0 then f else f + 1;
    n as real / 1000.0
  }

  /** `compute_priority`. */
  function ComputePriority(ai: AISummary, arrivalMs: int, senderRole: Option<string>, blocked: bool, env: Env): (p: real)
    ensures var raw := RawScore(ai, arrivalMs, senderRole, blocked, env); raw - 0.0005 <= p <= raw + 0.0005
  {
    Round3(RawScore(ai, arrivalMs, senderRole, blocked, env))
  }

  /** Rounding is monotone. */
  lemma Round3Monotone(x: real, y: real)
    requires x <= y
    ensures Round3(x) <= Round3(y)
  {
    var fx, fy := (x * 1000.0).Floor, (y * 1000.0).Floor;
    assert fx <= fy;
  }

  /** Rounding commutes with adding a whole number of units of ten. */
  lemma Round3Shift(x: real)
    ensures Round3(x + 10.0) == Round3(x) + 10.0
  {
    var f := (x * 1000.0).Floor;
    assert (x + 10.0) * 1000.0 == x * 1000.0 + 10000.0;
    assert ((x + 10.0) * 1000.0).Floor == f + 10000;
    assert (f + 10000) % 2 == f % 2;
  }

  /** A multiple of a thousandth rounds to itself. */
  lemma Round3Exact(n: int)
    ensures Round3(n as real / 1000.0) == n as real / 1000.0
  {
    assert (n as real / 1000.0) * 1000.0 == n as real;
  }

  /** Blocking adds exactly ten points, before and after rounding. */
  lemma BlockedAddsTen(ai: AISummary, arrivalMs: int, senderRole: Option<string>, env: Env)
    ensures RawScore(ai, arrivalMs, senderRole, true, env) == RawScore(ai, arrivalMs, senderRole, false, env) + 10.0
    ensures ComputePriority(ai, arrivalMs, senderRole, true, env) == ComputePriority(ai, arrivalMs, senderRole, false, env) + 10.0
  {
    Round3Shift(RawScore(ai, arrivalMs, senderRole, false, env));
  }

  /** An arrival later than `now` scores as an arrival at `now`. */
  lemma FutureArrivalScoresAsNow(ai: AISummary, arrivalMs: int, senderRole: Option<string>, blocked: bool, env: Env)
    requires arrivalMs >= env.now
    ensures ComputePriority(ai, arrivalMs, senderRole, blocked, env) == ComputePriority(ai, env.now, senderRole, blocked, env)
  {
    assert ElapsedHours(arrivalMs, env.now) == 0.0 == ElapsedHours(env.now, env.now);
  }

  /** Raising urgency (low <= medium <= high, unknown as medium) never lowers the score. */
  lemma MonotoneInUrgency(ai: AISummary, urgency: string, arrivalMs: int, senderRole: Option<string>, blocked: bool, env: Env)
    requires MapLevel(Some(ai.urgency)) <= MapLevel(Some(urgency))
    ensures ComputePriority(ai, arrivalMs, senderRole, blocked, env) <= ComputePriority(ai.(urgency := urgency), arrivalMs, senderRole, blocked, env)
  {
    Round3Monotone(RawScore(ai, arrivalMs, senderRole, blocked, env), RawScore(ai.(urgency := urgency), arrivalMs, senderRole, blocked, env));
  }

  /** Raising importance never lowers the score. */
  lemma MonotoneInImportance(ai: AISummary, importance: string, arrivalMs: int, senderRole: Option<string>, blocked: bool, env: Env)
    requires MapLevel(Some(ai.importance)) <= MapLevel(Some(importance))
    ensures ComputePriority(ai, arrivalMs, senderRole, blocked, env) <= ComputePriority(ai.(importance := importance), arrivalMs, senderRole, blocked, env)
  {
    Round3Monotone(RawScore(ai, arrivalMs, senderRole, blocked, env), RawScore(ai.(importance := importance), arrivalMs, senderRole, blocked, env));
  }

  /** With a genuine exponential the unrounded score lies in (14, 100] and the rounded one in [14, 100]. */
  lemma ScoreBounds(ai: AISummary, arrivalMs: int, senderRole: Option<string>, blocked: bool, env: Env)
    requires ExpLike(env.exp)
    ensures 14.0 < RawScore(ai, arrivalMs, senderRole, blocked, env) <= 100.0
    ensures 14.0 <= ComputePriority(ai, arrivalMs, senderRole, blocked, env) <= 100.0
  {
    var raw := RawScore(ai, arrivalMs, senderRole, blocked, env);
    RecencyBounds(ElapsedHours(arrivalMs, env.now), env.exp);
    Round3Monotone(14.0, raw);
    Round3Monotone(raw, 100.0);
    Round3Exact(14000);
    Round3Exact(100000);
  }

  /** A high/high item from an executive, blocked, arriving now and due in 24 hours scores 95. */
  lemma ExampleUrgentExecItem(ai: AISummary, env: Env)
    requires ExpLike(env.exp)
    requires ai.urgency == "high" && ai.importance == "high"
    requires ai.suggestedDueIso.Some? && ai.suggestedDueIso.value != ""
    requires env.parseDue(ai.suggestedDueIso.value) == Some(env.now as real + 24.0 * MsPerHour)
    ensures RawScore(ai, env.now, Some("exec"), true, env) == 95.0
    ensures ComputePriority(ai, env.now, Some("exec"), true, env) == 95.0
  {
    assert Lower("high") == "high";
    assert Lower("exec") == "exec";
    assert HoursUntil(env.now as real + 24.0 * MsPerHour, env.now) == 24.0;
    assert ElapsedHours(env.now, env.now) == 0.0;
    Round3Exact(95000);
  }
}
