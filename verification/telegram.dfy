/** The Telegram side of the agent (src/services/telegram.ts) as far as it
    decides anything: the proposal sent for a pending action (risk emoji,
    issue and impact lines, the three buttons and their callback data),
    the stuck-leads list, the per-chat conversation history, and the
    effect of the approve / reject / snooze buttons on the tables. Message
    wording beyond these decisions and the Bot API calls are outside the
    model; whether a send succeeds is an input. */
module Telegram {
  import opened Collections
  import opened Text
  import opened AmoCrm
  import opened Store
  import opened ActionExec

  /** `!managerId` is false for an unset or empty `MANAGER_TG_ID`. */
  predicate ManagerConfigured(managerId: Option<string>) {
    managerId.Some? && managerId.value != ""
  }

  // ------------------------------------------------------------ risk emoji

  const RedCircle := "🔴"
  const OrangeCircle := "🟠"
  const GreenCircle := "🟢"
  const WhiteCircle := "⚪"

  datatype EmojiKey = KeyCritical | KeyHigh | KeyMedium | KeyLow

  /** The lookup table of the proposal; the MEDIUM entry is empty. */
  function EmojiTable(k: EmojiKey): string {
    match k
    case KeyCritical => RedCircle
    case KeyHigh => OrangeCircle
    case KeyMedium => ""
    case KeyLow => GreenCircle
  }

  /** The key chosen from the stored risk score (`action?.risk_score`);
      a missing action or score compares false. */
  function EmojiKeyFor(riskScore: Option<int>): EmojiKey {
    if riskScore.Some? && riskScore.value > 70 then KeyCritical
    else if riskScore.Some? && riskScore.value > 40 then KeyHigh
    else KeyMedium
  }

  /** `table[key] || '⚪'`: red above 70, orange above 40, and white
      otherwise because the MEDIUM entry is empty; green is never chosen. */
  function RiskEmoji(riskScore: Option<int>): (r: string)
    ensures r == RedCircle <==> riskScore.Some? && riskScore.value > 70
    ensures r == OrangeCircle <==> riskScore.Some? && 40 < riskScore.value <= 70
    ensures r == WhiteCircle <==> riskScore.None? || riskScore.value <= 40
    ensures r != GreenCircle && r != ""
  {
    var e := EmojiTable(EmojiKeyFor(riskScore));
    if e != "" then e else WhiteCircle
  }

  // ---------------------------------------------------- issue and impact

  /** The lines `describeIssue` can produce. */
  datatype Issue =
    | Stuck(days: int)
    | NoActiveTasks(days: int)
    | VipWaiting
    | ImportantMayLeave
    | NeedsReview(days: int)

  /** `describeIssue`: the first rule that applies, in order: more than 7
      days; no active tasks and more than 3 days; budget above 500000 and
      more than 1 day; budget above 100000 and more than 2 days. */
  function DescribeIssue(daysSince: int, hasActiveTasks: bool, budget: int): (r: Issue)
    ensures r.Stuck? <==> daysSince > 7
    ensures r.NoActiveTasks? <==> 3 < daysSince <= 7 && !hasActiveTasks
    ensures r == VipWaiting <==>
      1 < daysSince <= 7 && (hasActiveTasks || daysSince <= 3) && budget > VipBudget
    ensures r == ImportantMayLeave <==>
      2 < daysSince <= 7 && (hasActiveTasks || daysSince <= 3) && ImportantBudget < budget && !(budget > VipBudget)
    ensures (r.Stuck? || r.NoActiveTasks? || r.NeedsReview?) ==> r.days == daysSince
  {
    if daysSince > 7 then Stuck(daysSince)
    else if !hasActiveTasks && daysSince > 3 then NoActiveTasks(daysSince)
    else if budget > VipBudget && daysSince > 1 then VipWaiting
    else if budget > ImportantBudget && daysSince > 2 then ImportantMayLeave
    else NeedsReview(daysSince)
  }

  /** The text of an issue line. */
  function IssueText(issue: Issue): string {
    match issue
    case Stuck(d) => "Застрял - нет движения " + IntToString(d) + " дней"
    case NoActiveTasks(d) => "Нет активных задач " + IntToString(d) + " дней"
    case VipWaiting => "VIP клиент ждёт ответа"
    case ImportantMayLeave => "Важный клиент может уйти"
    case NeedsReview(d) => "Требует проверки (" + IntToString(d) + " дней без обновления)"
  }

  /** The lines `explainImpact` can produce. */
  datatype Impact = AtStake(thousands: int) | HighLossRisk | MayLeave | ClosingOddsFalling

  /** `(budget / 1000).toFixed(0)` for a budget above 500000: the nearest
      whole number of thousands, halves rounded up. */
  function RoundedThousands(budget: int): (r: int)
    requires budget > 0
    ensures 1000 * r - 500 <= budget < 1000 * r + 500
  {
    (budget + 500) / 1000
  }

  /** `explainImpact`: a budget above 500000 wins over staleness; then more
      than 7 days, then more than 3 days. */
  function ExplainImpact(budget: int, daysSince: int): (r: Impact)
    ensures r.AtStake? <==> budget > VipBudget
    ensures r.AtStake? ==> 1000 * r.thousands - 500 <= budget < 1000 * r.thousands + 500
    ensures r == HighLossRisk <==> budget <= VipBudget && daysSince > 7
    ensures r == MayLeave <==> budget <= VipBudget && 3 < daysSince <= 7
    ensures r == ClosingOddsFalling <==> budget <= VipBudget && daysSince <= 3
  {
    if budget > VipBudget then AtStake(RoundedThousands(budget))
    else if daysSince > 7 then HighLossRisk
    else if daysSince > 3 then MayLeave
    else ClosingOddsFalling
  }

  /** The budget line wins: with a budget above 500000 the impact does not
      depend on how stale the lead is. */
  lemma ImpactIgnoresStalenessForVip(budget: int, d1: int, d2: int)
    requires budget > VipBudget
    ensures ExplainImpact(budget, d1) == ExplainImpact(budget, d2)
  {
  }

  // -------------------------------------------------------- callback data

  /** The buttons' callback data and the four handlers' patterns
      (`/^execute_(\d+)$/` and the like). */
  datatype Callback =
    | ExecuteCallback(actionId: int)
    | RejectCallback(actionId: int)
    | DetailsCallback(leadId: int)
    | SnoozeCallback(actionId: int)

  function CallbackPrefix(cb: Callback): string {
    match cb
    case ExecuteCallback(_) => "execute_"
    case RejectCallback(_) => "reject_"
    case DetailsCallback(_) => "details_"
    case SnoozeCallback(_) => "snooze_"
  }

  function CallbackId(cb: Callback): int {
    match cb
    case ExecuteCallback(id) => id
    case RejectCallback(id) => id
    case DetailsCallback(id) => id
    case SnoozeCallback(id) => id
  }

  /** `` `execute_${id}` `` and the like. */
  function CallbackData(cb: Callback): (r: string)
    ensures StartsWith(r, CallbackPrefix(cb))
    ensures r[|CallbackPrefix(cb)|..] == IntToString(CallbackId(cb))
  {
    var r := CallbackPrefix(cb) + IntToString(CallbackId(cb));
    assert r[..|CallbackPrefix(cb)|] == CallbackPrefix(cb);
    r
  }

  /** `^prefix(\d+)$` matched, then `parseInt` of the digits. */
  function MatchId(data: string, prefix: string): (r: Option<int>)
    ensures r.Some? <==>
      StartsWith(data, prefix) && |data| > |prefix| && AllDigits(data[|prefix|..])
    ensures r.Some? ==> r.value >= 0
  {
    if StartsWith(data, prefix) && |data| > |prefix| && AllDigits(data[|prefix|..])
    then Some(ParseDigits(data[|prefix|..]))
    else None
  }

  /** Which handler a button press reaches, and with which id. */
  function ParseCallback(data: string): (r: Option<Callback>)
    ensures r.Some? ==> CallbackId(r.value) >= 0 && StartsWith(data, CallbackPrefix(r.value))
  {
    match MatchId(data, "execute_")
    case Some(id) => Some(ExecuteCallback(id))
    case None =>
      match MatchId(data, "reject_")
      case Some(id) => Some(RejectCallback(id))
      case None =>
        match MatchId(data, "details_")
        case Some(id) => Some(DetailsCallback(id))
        case None =>
          match MatchId(data, "snooze_")
          case Some(id) => Some(SnoozeCallback(id))
          case None => None
  }

  /** Two prefixes that differ in their first character exclude each other. */
  lemma PrefixesExclusive(data: string, p: string, q: string)
    requires p != [] && q != [] && p[0] != q[0]
    requires StartsWith(data, p)
    ensures !StartsWith(data, q)
  {
    assert data[0] == p[0];
  }

  /** A button's callback data reaches the handler it was made for, with
      the same id, whenever the id is not negative. */
  lemma {:induction false} CallbackRoundTrip(cb: Callback)
    requires CallbackId(cb) >= 0
    ensures ParseCallback(CallbackData(cb)) == Some(cb)
  {
    var data := CallbackData(cb);
    var p := CallbackPrefix(cb);
    var digits := data[|p|..];
    assert digits == NatToString(CallbackId(cb));
    ParsePrinted(CallbackId(cb));
    assert MatchId(data, p) == Some(CallbackId(cb));
    match cb {
      case ExecuteCallback(_) =>
      case RejectCallback(_) =>
        PrefixesExclusive(data, p, "execute_");
      case DetailsCallback(_) =>
        PrefixesExclusive(data, p, "execute_");
        PrefixesExclusive(data, p, "reject_");
      case SnoozeCallback(_) =>
        PrefixesExclusive(data, p, "execute_");
        PrefixesExclusive(data, p, "reject_");
        PrefixesExclusive(data, p, "details_");
    }
  }

  /** A negative id prints with a minus sign, which `\d+` rejects: the
      button reaches no handler. */
  lemma {:induction false} NegativeIdUnreachable(cb: Callback)
    requires CallbackId(cb) < 0
    ensures ParseCallback(CallbackData(cb)) == None
  {
    var data := CallbackData(cb);
    var p := CallbackPrefix(cb);
    assert data[|p|] == '-';
    assert !AllDigits(data[|p|..]) by {
      assert data[|p|..][0] == '-';
    }
    match cb {
      case ExecuteCallback(_) =>
        PrefixesExclusive(data, p, "reject_");
        PrefixesExclusive(data, p, "details_");
        PrefixesExclusive(data, p, "snooze_");
      case RejectCallback(_) =>
        PrefixesExclusive(data, p, "execute_");
        PrefixesExclusive(data, p, "details_");
        PrefixesExclusive(data, p, "snooze_");
      case DetailsCallback(_) =>
        PrefixesExclusive(data, p, "execute_");
        PrefixesExclusive(data, p, "reject_");
        PrefixesExclusive(data, p, "snooze_");
      case SnoozeCallback(_) =>
        PrefixesExclusive(data, p, "execute_");
        PrefixesExclusive(data, p, "reject_");
        PrefixesExclusive(data, p, "details_");
    }
  }

  // --------------------------------------------------------- the proposal

  /** `lead.updated_at ? floor((now - updated_at) / 86400) : 0`. */
  function ProposalDaysSince(updatedAt: Option<int>, now: int): (r: int)
    ensures (updatedAt.None? || updatedAt == Some(0)) ==> r == 0
    ensures updatedAt.Some? && updatedAt.value != 0 ==>
      r * SecondsPerDay <= now - updatedAt.value < (r + 1) * SecondsPerDay
  {
    match updatedAt
    case Some(u) => if u != 0 then (now - u) / SecondsPerDay else 0
    case None => 0
  }

  /** What a proposal message decides: its emoji, issue and impact lines,
      the context figures, the recommendation text and the buttons'
      callback data. */
  datatype Proposal = Proposal(
    emoji: string,
    issue: Issue,
    impact: Impact,
    daysSince: int,
    hasActiveTasks: bool,
    priority: string,
    recommendation: string,
    buttons: seq<string>)

  const RecommendationCut := 150

  /** The proposal for pending action `actionId` (`action` is its row, if
      it exists) about `lead`; `analysisText` is the fallback text. */
  function ProposalFor(actionId: int, lead: Lead, action: Option<PendingAction>, analysisText: string, now: int): (r: Proposal)
    ensures r.emoji == RiskEmoji(if action.Some? then Some(action.value.riskScore) else None)
    ensures r.daysSince == ProposalDaysSince(lead.updatedAt, now)
    ensures r.issue == DescribeIssue(r.daysSince, HasActiveTasks(lead.tasks), lead.price)
    ensures r.impact == ExplainImpact(lead.price, r.daysSince)
    ensures r.priority == (if action.Some? && action.value.priority != "" then action.value.priority else "MEDIUM")
    ensures action.Some? && action.value.reasoning != "" ==> r.recommendation == action.value.reasoning
    ensures !(action.Some? && action.value.reasoning != "") ==>
      r.recommendation == analysisText[..Min(RecommendationCut, |analysisText|)]
    ensures |r.buttons| == 3
    ensures actionId >= 0 ==>
      ParseCallback(r.buttons[0]) == Some(ExecuteCallback(actionId))
      && ParseCallback(r.buttons[1]) == Some(RejectCallback(actionId))
    ensures lead.id >= 0 ==> ParseCallback(r.buttons[2]) == Some(DetailsCallback(lead.id))
  {
    var days := ProposalDaysSince(lead.updatedAt, now);
    var buttons := [
      CallbackData(ExecuteCallback(actionId)),
      CallbackData(RejectCallback(actionId)),
      CallbackData(DetailsCallback(lead.id))];
    ButtonsRoundTrip(actionId, lead.id);
    Proposal(
      RiskEmoji(if action.Some? then Some(action.value.riskScore) else None),
      DescribeIssue(days, HasActiveTasks(lead.tasks), lead.price),
      ExplainImpact(lead.price, days),
      days,
      HasActiveTasks(lead.tasks),
      if action.Some? && action.value.priority != "" then action.value.priority else "MEDIUM",
      if action.Some? && action.value.reasoning != "" then action.value.reasoning
      else analysisText[..Min(RecommendationCut, |analysisText|)],
      buttons)
  }

  lemma ButtonsRoundTrip(actionId: int, leadId: int)
    ensures actionId >= 0 ==>
      ParseCallback(CallbackData(ExecuteCallback(actionId))) == Some(ExecuteCallback(actionId))
      && ParseCallback(CallbackData(RejectCallback(actionId))) == Some(RejectCallback(actionId))
    ensures leadId >= 0 ==> ParseCallback(CallbackData(DetailsCallback(leadId))) == Some(DetailsCallback(leadId))
  {
    if actionId >= 0 {
      CallbackRoundTrip(ExecuteCallback(actionId));
      CallbackRoundTrip(RejectCallback(actionId));
    }
    if leadId >= 0 {
      CallbackRoundTrip(DetailsCallback(leadId));
    }
  }

  datatype ProposalOutcome = NotConfigured | Sent(proposal: Proposal) | SendFailed

  // -------------------------------------------------------- the risk list

  const RiskListLimit := 10

  /** The `/risk` reply: either "no stuck leads", or the first ten leads
      and how many more there are. */
  datatype RiskList = NoStuckLeads | StuckLeads(total: nat, shown: seq<Lead>, more: nat)

  /** `sendRiskLeads`: leads at least seven days without update, at most
      ten of them listed, with the count of the rest. */
  function RiskReport(leads: seq<Lead>, now: int): (r: RiskList)
    ensures r.NoStuckLeads? <==> LeadsByRiskLevel(leads, now, 7) == []
    ensures r.StuckLeads? ==>
      var stuck := LeadsByRiskLevel(leads, now, 7);
      r.total == |stuck| && |r.shown| <= RiskListLimit
      && |r.shown| + r.more == r.total
      && r.shown == stuck[..|r.shown|]
      && (r.more > 0 ==> |r.shown| == RiskListLimit)
      && forall l :: l in r.shown ==> l in leads && SecondsSinceUpdate(l, now) >= 7 * SecondsPerDay
  {
    var stuck := LeadsByRiskLevel(leads, now, 7);
    if stuck == [] then NoStuckLeads
    else
      var shown := stuck[..Min(RiskListLimit, |stuck|)];
      assert forall l :: l in shown ==> l in stuck;
      StuckLeads(|stuck|, shown, if |stuck| > RiskListLimit then |stuck| - RiskListLimit else 0)
  }

  // ------------------------------------------------- conversation history

  datatype Role = UserRole | AssistantRole

  datatype ChatMessage = ChatMessage(role: Role, content: string)

  const HistoryLimit := 12

  /** One conversational turn on a chat's history: the user's message is
      kept even when generation fails (`reply` is `None`); after a reply
      the history is cut to its last twelve entries. */
  function Exchange(h: seq<ChatMessage>, userMessage: string, reply: Option<string>): (r: seq<ChatMessage>)
    ensures reply.None? ==> r == h + [ChatMessage(UserRole, userMessage)]
    ensures reply.Some? ==> 2 <= |r| <= HistoryLimit && |r| <= |h| + 2
  {
    var withUser := h + [ChatMessage(UserRole, userMessage)];
    match reply
    case None => withUser
    case Some(text) =>
      var full := withUser + [ChatMessage(AssistantRole, text)];
      if |full| > HistoryLimit then full[|full| - HistoryLimit..] else full
  }

  /** After a reply the history is the tail of the old history followed
      by the user's message and the reply, dropping old entries only when
      more than twelve would remain. */
  lemma ExchangeKeepsLatest(h: seq<ChatMessage>, userMessage: string, text: string)
    ensures var r := Exchange(h, userMessage, Some(text));
      var full := h + [ChatMessage(UserRole, userMessage), ChatMessage(AssistantRole, text)];
      r == full[|h| + 2 - |r|..]
      && r[|r| - 2..] == [ChatMessage(UserRole, userMessage), ChatMessage(AssistantRole, text)]
      && (|h| + 2 <= HistoryLimit ==> r == full)
      && (|h| + 2 > HistoryLimit ==> |r| == HistoryLimit)
  {
    var full := h + [ChatMessage(UserRole, userMessage), ChatMessage(AssistantRole, text)];
    assert h + [ChatMessage(UserRole, userMessage)] + [ChatMessage(AssistantRole, text)] == full;
    var r := Exchange(h, userMessage, Some(text));
    assert r[|r| - 2..] == full[|full| - 2..];
  }

  class TelegramService {
    var history: map<string, seq<ChatMessage>>
    const executor: ActionExecutor

    constructor(executor: ActionExecutor)
      ensures this.executor == executor && history == map[]
    {
      this.executor := executor;
      history := map[];
    }

    /** The conversational handler's effect on the history of `chatId`.
        `typingOk` is whether the typing indicator was sent (its failure
        ends the handler first); `reply` is the model's text, `None` when
        generation failed. */
    method Converse(chatId: string, userMessage: string, typingOk: bool, reply: Option<string>)
      modifies this
      ensures !typingOk ==> history == old(history)
      ensures typingOk ==>
        history == old(history)[chatId := Exchange(if chatId in old(history) then old(history)[chatId] else [], userMessage, reply)]
    {
      if !typingOk {
        return;
      }
      var msgs := if chatId in history then history[chatId] else [];
      ghost var prev := msgs;
      msgs := msgs + [ChatMessage(UserRole, userMessage)];
      if reply.Some? {
        msgs := msgs + [ChatMessage(AssistantRole, reply.value)];
        if |msgs| > HistoryLimit {
          msgs := msgs[|msgs| - HistoryLimit..];
        }
      }
      assert msgs == Exchange(prev, userMessage, reply);
      history := history[chatId := msgs];
    }

    /** `sendActionProposal`: nothing without a manager id; otherwise the
        proposal is sent, and its message id (`sent`, `None` when sending
        failed and the error is raised) is stored on the action. */
    method SendActionProposal(actionId: int, lead: Lead, analysisText: string, managerId: Option<string>, now: int, sent: Option<int>)
      returns (r: ProposalOutcome)
      requires executor.db.Valid()
      modifies executor.db
      ensures executor.db.Valid()
      ensures !ManagerConfigured(managerId) ==> r == NotConfigured && executor.db.actions == old(executor.db.actions)
      ensures ManagerConfigured(managerId) && sent.None? ==> r == SendFailed && executor.db.actions == old(executor.db.actions)
      ensures ManagerConfigured(managerId) && sent.Some? ==>
        r == Sent(ProposalFor(actionId, lead,
          if actionId in old(executor.db.actions) then Some(old(executor.db.actions)[actionId]) else None,
          analysisText, now))
        && executor.db.actions == WithMessageId(old(executor.db.actions), actionId, sent.value)
      ensures executor.db.nextId == old(executor.db.nextId) && executor.db.decisions == old(executor.db.decisions)
      ensures executor.db.scores == old(executor.db.scores)
    {
      if !ManagerConfigured(managerId) {
        return NotConfigured;
      }
      var db := executor.db;
      var action := if actionId in db.actions then Some(db.actions[actionId]) else None;
      var proposal := ProposalFor(actionId, lead, action, analysisText, now);
      if sent.None? {
        return SendFailed;
      }
      db.SetMessageId(actionId, sent.value);
      r := Sent(proposal);
    }

    /** The approve button: execute, and log `approved` only when execute
        did not raise. */
    method OnExecute(actionId: int, ok: nat -> bool) returns (outcome: Outcome)
      requires executor.db.Valid()
      modifies executor.db, executor.crm
      ensures executor.db.Valid()
      ensures var r := ExecuteAction(old(executor.db.actions), actionId, ok);
        outcome == r.outcome && executor.db.actions == r.actions
        && executor.crm.calls == old(executor.crm.calls) + r.calls
      ensures executor.db.decisions == old(executor.db.decisions)
        + (if outcome == Success then [DecisionEntry(actionId, ApprovedDecision, None)] else [])
    {
      outcome := executor.Execute(actionId, ok);
      if outcome == Success {
        executor.LogDecision(actionId, ApprovedDecision, None);
      }
    }

    /** The reject button: the action becomes `rejected` whatever its
        status was, then `rejected` is logged. */
    method OnReject(actionId: int)
      requires executor.db.Valid()
      modifies executor.db
      ensures executor.db.Valid()
      ensures executor.db.actions == WithStatus(old(executor.db.actions), actionId, Rejected)
      ensures executor.db.decisions == old(executor.db.decisions) + [DecisionEntry(actionId, RejectedDecision, None)]
    {
      executor.Reject(actionId);
      executor.LogDecision(actionId, RejectedDecision, None);
    }

    /** The snooze button: the status is overwritten with `snoozed`
        without looking at it; no decision is logged. */
    method OnSnooze(actionId: int)
      requires executor.db.Valid()
      modifies executor.db
      ensures executor.db.Valid()
      ensures executor.db.actions == WithStatus(old(executor.db.actions), actionId, Snoozed)
      ensures executor.db.decisions == old(executor.db.decisions)
    {
      executor.db.SetStatus(actionId, Snoozed);
    }

    /** A button press: the handler whose pattern matches runs; the details
        button only sends a message, and data matching no pattern is
        ignored. */
    method HandleCallback(data: string, ok: nat -> bool) returns (handled: Option<Callback>)
      requires executor.db.Valid()
      modifies executor.db, executor.crm
      ensures executor.db.Valid()
      ensures handled == ParseCallback(data)
      ensures handled.None? || handled.value.DetailsCallback? ==>
        executor.db.actions == old(executor.db.actions) && executor.db.decisions == old(executor.db.decisions)
      ensures handled.Some? && handled.value.RejectCallback? ==>
        executor.db.actions == WithStatus(old(executor.db.actions), handled.value.actionId, Rejected)
        && executor.db.decisions == old(executor.db.decisions) + [DecisionEntry(handled.value.actionId, RejectedDecision, None)]
      ensures handled.Some? && handled.value.SnoozeCallback? ==>
        executor.db.actions == WithStatus(old(executor.db.actions), handled.value.actionId, Snoozed)
        && executor.db.decisions == old(executor.db.decisions)
      ensures handled.Some? && handled.value.ExecuteCallback? ==>
        var r := ExecuteAction(old(executor.db.actions), handled.value.actionId, ok);
        executor.db.actions == r.actions
        && executor.crm.calls == old(executor.crm.calls) + r.calls
        && executor.db.decisions == old(executor.db.decisions)
          + (if r.outcome == Success then [DecisionEntry(handled.value.actionId, ApprovedDecision, None)] else [])
      ensures !(handled.Some? && handled.value.ExecuteCallback?) ==> executor.crm.calls == old(executor.crm.calls)
    {
      handled := ParseCallback(data);
      match handled {
        case None =>
        case Some(ExecuteCallback(id)) =>
          var _ := OnExecute(id, ok);
        case Some(RejectCallback(id)) =>
          OnReject(id);
        case Some(DetailsCallback(_)) =>
        case Some(SnoozeCallback(id)) =>
          OnSnooze(id);
      }
    }
  }
}
