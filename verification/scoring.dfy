/** The deterministic parts of the AI service (src/services/ai.ts): the
    bodies of the `assessRisk`, `scorePriority` and `recommendAction`
    tools, the code-fence stripping applied to the batch scorer's reply,
    the per-lead fallback used when batch scoring fails, and the
    days-since-contact figure. The language model itself is not modelled:
    its batch reply is an input (`BatchReply`). */
module Scoring {
  import opened Collections
  import opened Text
  import opened AmoCrm

  datatype RiskLevel = Low | Medium | High | Critical

  datatype Engagement = EngagementHigh | EngagementMedium | EngagementLow

  datatype BudgetEstimate = BudgetHigh | BudgetMedium | BudgetLow | BudgetUnknown

  datatype Priority = PriorityLow | PriorityMedium | PriorityHigh

  datatype RiskAssessment = RiskAssessment(score: int, level: RiskLevel, reasoning: string)

  // ------------------------------------------------------------ assessRisk

  /** Points for time without contact (0-50). The tool's
      `daysSinceContact` is any JSON number, so days are real. */
  function TimePoints(days: real): int {
    if days > 7.0 then 50 else if days > 3.0 then 30 else if days > 1.0 then 10 else 0
  }

  /** Points for the engagement level (0-30). */
  function EngagementPoints(e: Engagement): int {
    match e
    case EngagementLow => 30
    case EngagementMedium => 15
    case EngagementHigh => 0
  }

  /** `Math.max(0, Math.min(100, x))`. */
  function Clamp(x: int): int {
    if x < 0 then 0 else if x > 100 then 100 else x
  }

  /** The level bands of `assessRisk`: above 75 CRITICAL, above 50 HIGH,
      above 25 MEDIUM, otherwise LOW. */
  function AssessedLevel(score: int): (r: RiskLevel)
    ensures r == Critical <==> score > 75
    ensures r == High <==> 50 < score <= 75
    ensures r == Medium <==> 25 < score <= 50
    ensures r == Low <==> score <= 25
  {
    if score > 75 then Critical
    else if score > 50 then High
    else if score > 25 then Medium
    else Low
  }

  /** The `assessRisk` tool: time points, minus 20 when tasks are active,
      plus engagement points, clamped to [0, 100], then banded. Each level
      is stated as the inputs that lead to it. */
  function AssessRisk(daysSinceContact: real, hasActiveTasks: bool, engagement: Engagement, reasoning: string): (r: RiskAssessment)
    ensures 0 <= r.score <= 80
    ensures r.level == AssessedLevel(r.score)
    ensures r.reasoning == reasoning
    ensures var d, t, e := daysSinceContact, hasActiveTasks, engagement;
      r.level == Critical <==> d > 7.0 && !t && e == EngagementLow
    ensures var d, t, e := daysSinceContact, hasActiveTasks, engagement;
      r.level == High <==>
        (d > 7.0 && !t && e == EngagementMedium)
        || (d > 7.0 && t && e == EngagementLow)
        || (3.0 < d <= 7.0 && !t && e == EngagementLow)
    ensures var d, t, e := daysSinceContact, hasActiveTasks, engagement;
      r.level == Medium <==>
        (!t && ((d > 7.0 && e == EngagementHigh) || (3.0 < d <= 7.0 && e != EngagementLow) || (d <= 3.0 && e == EngagementLow)))
        || (t && ((d > 7.0 && e != EngagementLow) || (3.0 < d <= 7.0 && e == EngagementLow)))
    ensures var d, t, e := daysSinceContact, hasActiveTasks, engagement;
      r.level == Low <==>
        (!t && d <= 3.0 && e != EngagementLow)
        || (t && d <= 3.0)
        || (t && 3.0 < d <= 7.0 && e != EngagementLow)
  {
    var score := Clamp(TimePoints(daysSinceContact) - (if hasActiveTasks then 20 else 0) + EngagementPoints(engagement));
    RiskAssessment(score, AssessedLevel(score), reasoning)
  }

  /** Without active tasks the score is the time points plus the
      engagement points (the clamp never bites): 0, 10, 30 or 50 plus 0, 15
      or 30. */
  lemma AssessRiskWithoutTasks(d: real, e: Engagement, why: string)
    ensures AssessRisk(d, false, e, why).score ==
      (if d > 7.0 then 50 else if d > 3.0 then 30 else if d > 1.0 then 10 else 0)
      + (if e == EngagementLow then 30 else if e == EngagementMedium then 15 else 0)
  {
  }

  /** Active tasks lower the score by exactly 20, down to 0. */
  lemma AssessRiskActiveTasks(d: real, e: Engagement, why: string)
    ensures var s := AssessRisk(d, false, e, why).score;
      AssessRisk(d, true, e, why).score == if s >= 20 then s - 20 else 0
  {
  }

  /** More days without contact never lowers the score; active tasks never
      raise it; lower engagement never lowers it. */
  lemma AssessRiskMonotone(d1: real, d2: real, t1: bool, t2: bool, e1: Engagement, e2: Engagement, why: string)
    requires d1 <= d2
    requires t2 ==> t1
    requires EngagementPoints(e1) <= EngagementPoints(e2)
    ensures AssessRisk(d1, t1, e1, why).score <= AssessRisk(d2, t2, e2, why).score
  {
    assert TimePoints(d1) <= TimePoints(d2);
  }

  // --------------------------------------------------------- scorePriority

  /** The `scorePriority` tool: the budget estimate decides the priority;
      `low` and `unknown` both give LOW. */
  function ScorePriority(budget: BudgetEstimate): (r: Priority)
    ensures r == PriorityHigh <==> budget == BudgetHigh
    ensures r == PriorityMedium <==> budget == BudgetMedium
    ensures r == PriorityLow <==> budget == BudgetLow || budget == BudgetUnknown
  {
    match budget
    case BudgetHigh => PriorityHigh
    case BudgetMedium => PriorityMedium
    case BudgetLow => PriorityLow
    case BudgetUnknown => PriorityLow
  }

  // ------------------------------------------------------- recommendAction

  datatype ActionKind = CreateTaskAction | UpdateStatusAction | WaitAction

  datatype Timing = NowTiming | Today | Tomorrow | ThisWeek

  /** The `parameters` object of a recommendation; `None` is an absent key. */
  datatype ActionParams = ActionParams(text: Option<string>, completeTill: Option<int>)

  datatype Recommendation = Recommendation(
    actionType: ActionKind,
    description: string,
    timing: Timing,
    parameters: ActionParams,
    reasoning: string)

  /** `taskText || actionDescription`: a missing or empty task text falls
      back to the description. */
  function TaskTextOr(taskText: Option<string>, description: string): string {
    match taskText
    case Some(t) => if t != "" then t else description
    case None => description
  }

  /** The `recommendAction` tool. Only `create_task` carries parameters:
      the task text and the deadline `dueAt` (the tool derives it from the
      timing; the date arithmetic is outside this model). */
  function RecommendAction(
    actionType: ActionKind, description: string, timing: Timing,
    taskText: Option<string>, reasoning: string, dueAt: int): (r: Recommendation)
    ensures r.actionType == actionType && r.description == description
    ensures r.timing == timing && r.reasoning == reasoning
    ensures actionType == CreateTaskAction ==> r.parameters.completeTill == Some(dueAt)
    ensures actionType == CreateTaskAction && (description != "" || taskText.GetOr("") != "") ==>
      r.parameters.text.Some? && r.parameters.text.value != ""
    ensures actionType == CreateTaskAction ==>
      r.parameters.text == Some(if taskText.Some? && taskText.value != "" then taskText.value else description)
    ensures actionType != CreateTaskAction ==> r.parameters == ActionParams(None, None)
  {
    var params :=
      if actionType == CreateTaskAction
      then ActionParams(Some(TaskTextOr(taskText, description)), Some(dueAt))
      else ActionParams(None, None);
    Recommendation(actionType, description, timing, params, reasoning)
  }

  // ------------------------------------------------------ daysSinceContact

  /** `updated_at ? Math.floor((now - updated_at) / 86400) : 999`. */
  function DaysSinceContact(updatedAt: Option<int>, now: int): (r: int)
    ensures (updatedAt.None? || updatedAt == Some(0)) ==> r == 999
    ensures updatedAt.Some? && updatedAt.value != 0 ==>
      r * SecondsPerDay <= now - updatedAt.value < (r + 1) * SecondsPerDay
  {
    match updatedAt
    case Some(u) => if u != 0 then (now - u) / SecondsPerDay else 999
    case None => 999
  }

  // -------------------------------------------------------- batch scoring

  /** One element of the batch scorer's `results` array that is an object. */
  datatype ScoreResult = ScoreResult(
    leadId: int,
    riskScore: int,
    riskLevel: string,
    priority: string,
    actionNeeded: bool,
    recommendedAction: Option<string>,
    reasoning: string)

  /** What the batch request produced: it failed (request error, reply that
      does not parse, no `results` field), or it returned an array whose
      elements are objects (`Some`) or anything else (`None`). */
  datatype BatchReply = ScorerFailed | ScorerReturned(results: seq<Option<ScoreResult>>)

  /** The fixed result given to every lead of a batch whose scoring failed. */
  function FallbackResult(lead: Lead): ScoreResult {
    ScoreResult(lead.id, 0, "LOW", "LOW", false, None, "Batch analysis failed")
  }

  /** The `catch` branch of `analyzeBatch`: one default result per lead. */
  function Fallback(leads: seq<Lead>): (r: seq<ScoreResult>)
    ensures |r| == |leads|
    ensures forall i :: 0 <= i < |r| ==>
      r[i].leadId == leads[i].id && r[i].riskScore == 0 && r[i].riskLevel == "LOW"
      && !r[i].actionNeeded && r[i].recommendedAction.None?
  {
    seq(|leads|, i requires 0 <= i < |leads| => FallbackResult(leads[i]))
  }

  /** `analyzeBatch`: the scorer's array when it produced one, the fallback
      list otherwise. */
  function AnalyzeBatch(leads: seq<Lead>, reply: BatchReply): (r: seq<Option<ScoreResult>>)
    ensures reply.ScorerFailed? ==> |r| == |leads| && forall i :: 0 <= i < |r| ==> r[i] == Some(FallbackResult(leads[i]))
    ensures reply.ScorerReturned? ==> r == reply.results
  {
    match reply
    case ScorerFailed =>
      seq(|leads|, i requires 0 <= i < |leads| => Some(FallbackResult(leads[i])))
    case ScorerReturned(results) => results
  }

  // ---------------------------------------------------------- code fences

  const JsonFence := "```json"
  const Fence := "```"


  /** `replace(/\s*```$/, '')`: a closing fence at the very end goes, with
      the white space before it. */
  function StripClosingFence(s: string): (r: string)
    ensures EndsWith(s, Fence) ==> r == TrimRight(s[..|s| - |Fence|])
    ensures !EndsWith(s, Fence) ==> r == s
  {
    if EndsWith(s, Fence) then TrimRight(s[..|s| - |Fence|]) else s
  }

  lemma ClosingFenceKeepsTrimmed(s: string)
    requires Trimmed(s)
    ensures Trimmed(StripClosingFence(s)) && |StripClosingFence(s)| <= |s|
  {
    if EndsWith(s, Fence) {
      var r := TrimRight(s[..|s| - |Fence|]);
      if r != [] {
        assert r[0] == s[0];
      }
    }
  }

  /** Dropping an opening fence of `k` characters from trimmed text and the
      white space after it leaves trimmed text. */
  lemma DropOpeningKeepsTrimmed(t: string, k: nat)
    requires Trimmed(t) && k <= |t|
    ensures Trimmed(TrimLeft(t[k..]))
  {
    var u := TrimLeft(t[k..]);
    if u != [] {
      assert u[|u| - 1] == t[|t| - 1];
    }
  }

  /** Text opening with ```` ```json ```` opens with ```` ``` ````. */
  lemma JsonFenceIsFence(t: string)
    ensures StartsWith(t, JsonFence) ==> StartsWith(t, Fence)
  {
    if StartsWith(t, JsonFence) {
      assert t[..|Fence|] == t[..|JsonFence|][..|Fence|];
    }
  }

  /** What is left of trimmed text once an opening fence of `k`
      characters, the white space after it and a closing fence are
      dropped. */
  function StripOpened(t: string, k: nat): (r: string)
    requires Trimmed(t) && k <= |t|
    ensures Trimmed(r) && |r| <= |t| - k
  {
    DropOpeningKeepsTrimmed(t, k);
    ClosingFenceKeepsTrimmed(TrimLeft(t[k..]));
    StripClosingFence(TrimLeft(t[k..]))
  }

  /** The reply clean-up before `JSON.parse`: trim, then, when the text
      starts with a ```` ```json ```` or ```` ``` ```` fence, drop that
      fence with the white space after it and a closing fence at the end
      with the white space before it. */
  function StripFences(text: string): (r: string)
    ensures Trimmed(r)
    ensures |r| <= |text|
    ensures !StartsWith(Trim(text), Fence) ==> r == Trim(text)
    ensures Trimmed(text) && !StartsWith(text, Fence) ==> r == text
  {
    var t := Trim(text);
    JsonFenceIsFence(t);
    if StartsWith(t, JsonFence) then StripOpened(t, |JsonFence|)
    else if StartsWith(t, Fence) then StripOpened(t, |Fence|)
    else t
  }

  /** The white space after an opening fence is dropped up to the body,
      or up to the closing fence when the body is empty. */
  lemma TrimLeftToBody(body: string)
    requires Trimmed(body)
    ensures TrimLeft("\n" + body + "\n" + Fence) == (if body == [] then Fence else body + "\n" + Fence)
  {
    var rest := body + "\n" + Fence;
    assert "\n" + body + "\n" + Fence == ['\n'] + rest;
    TrimLeftSkip('\n', rest);
    if body == [] {
      TrimLeftEmptyBody();
    } else {
      assert rest[0] == body[0];
      TrimLeftStops(rest);
    }
  }

  lemma TrimLeftEmptyBody()
    ensures TrimLeft([] + "\n" + Fence) == Fence
  {
    assert [] + "\n" + Fence == ['\n'] + Fence;
    TrimLeftSkip('\n', Fence);
    TrimLeftStops(Fence);
  }

  /** The closing fence and the new line before it are dropped. */
  lemma ClosingFenceOfBody(body: string)
    requires Trimmed(body)
    ensures StripClosingFence(body + "\n" + Fence) == body
  {
    var rest := body + "\n" + Fence;
    assert EndsWith(rest, Fence);
    var bn := body + "\n";
    assert rest[..|rest| - |Fence|] == bn;
    assert TrimRight(bn) == TrimRight(bn[..|bn| - 1]);
    assert bn[..|bn| - 1] == body;
  }

  /** A body without surrounding white space, wrapped in a fenced block
      (with or without the `json` tag), comes back unchanged. */
  lemma StripFencesUnwraps(body: string, tag: string)
    requires Trimmed(body)
    requires tag == "json" || tag == ""
    ensures StripFences(Fence + tag + "\n" + body + "\n" + Fence) == body
  {
    var text := Fence + tag + "\n" + body + "\n" + Fence;
    var after := "\n" + body + "\n" + Fence;
    assert text == Fence + tag + after;
    assert text[0] == '`' && text[|text| - 1] == '`';
    assert Trim(text) == text;
    if tag == "json" {
      assert text[..|JsonFence|] == JsonFence;
      assert text[|JsonFence|..] == after;
    } else {
      assert text[3] == '\n';
      assert !StartsWith(text, JsonFence);
      assert text[..|Fence|] == Fence;
      assert text[|Fence|..] == after;
    }
    TrimLeftToBody(body);
    if body == [] {
      assert StripClosingFence(Fence) == TrimRight(Fence[..0]);
    } else {
      ClosingFenceOfBody(body);
    }
  }
}
