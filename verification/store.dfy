/** The agent's own tables (src/services/database.ts), as far as the core
    reads and writes them: `pending_actions` keyed by an autoincrement id,
    the append-only `decisions_log` and `lead_scores`. */
module Store {
  import opened Collections

  /** Values of `pending_actions.status`; a new row starts as `Pending`. */
  datatype ActionStatus = Pending | Executed | Rejected | Failed | Snoozed

  /** The keys an `action_data` payload may carry, each possibly absent. */
  datatype ActionParams = ActionParams(
    leadName: Option<string>,
    text: Option<string>,
    completeTill: Option<int>,
    newStatusId: Option<int>)

  const NoParams := ActionParams(None, None, None, None)

  /** The `action_data` column: NULL or empty, JSON text already parsed
      into its keys, or text that `JSON.parse` rejects. */
  datatype ActionData = NoData | Json(params: ActionParams) | Malformed

  datatype PendingAction = PendingAction(
    leadId: int,
    actionType: string,
    actionData: ActionData,
    riskScore: int,
    priority: string,
    reasoning: string,
    status: ActionStatus,
    messageId: Option<int>)

  datatype Decision = ApprovedDecision | RejectedDecision | ModifiedDecision

  /** A `decisions_log` row; `modifiedData` is the serialised edit, if any. */
  datatype DecisionEntry = DecisionEntry(actionId: int, decision: Decision, modifiedData: Option<string>)

  /** A `lead_scores` row. */
  datatype LeadScore = LeadScore(leadId: int, score: int, riskLevel: string, priority: string, calculatedAt: int)

  /** `UPDATE pending_actions SET status = st WHERE id = id`: the row with
      that id, if there is one, gets the new status; nothing else changes. */
  function WithStatus(actions: map<int, PendingAction>, id: int, st: ActionStatus): (r: map<int, PendingAction>)
    ensures r.Keys == actions.Keys
    ensures id in r ==> r[id] == actions[id].(status := st)
    ensures forall k :: k in actions && k != id ==> r[k] == actions[k]
  {
    if id in actions then actions[id := actions[id].(status := st)] else actions
  }

  /** `UPDATE pending_actions SET telegram_message_id = m WHERE id = id`. */
  function WithMessageId(actions: map<int, PendingAction>, id: int, m: int): (r: map<int, PendingAction>)
    ensures r.Keys == actions.Keys
    ensures id in r ==> r[id] == actions[id].(messageId := Some(m))
    ensures forall k :: k in actions && k != id ==> r[k] == actions[k]
  {
    if id in actions then actions[id := actions[id].(messageId := Some(m))] else actions
  }

  class Database {
    var actions: map<int, PendingAction>
    var nextId: int
    var decisions: seq<DecisionEntry>
    var scores: seq<LeadScore>

    /** Every stored id was handed out before `nextId`. */
    ghost predicate Valid()
      reads this
    {
      nextId >= 1 && forall id :: id in actions ==> 1 <= id < nextId
    }

    constructor()
      ensures Valid()
      ensures actions == map[] && nextId == 1 && decisions == [] && scores == []
    {
      actions := map[];
      nextId := 1;
      decisions := [];
      scores := [];
    }

    /** `INSERT INTO pending_actions`: a fresh id, status `pending` and no
        Telegram message yet. */
    method InsertAction(leadId: int, actionType: string, data: ActionData, riskScore: int, priority: string, reasoning: string)
      returns (id: int)
      requires Valid()
      modifies this
      ensures Valid()
      ensures id == old(nextId) && id !in old(actions) && nextId == old(nextId) + 1
      ensures actions == old(actions)[id := PendingAction(leadId, actionType, data, riskScore, priority, reasoning, Pending, None)]
      ensures decisions == old(decisions) && scores == old(scores)
    {
      id := nextId;
      actions := actions[id := PendingAction(leadId, actionType, data, riskScore, priority, reasoning, Pending, None)];
      nextId := nextId + 1;
    }

    method SetStatus(id: int, st: ActionStatus)
      requires Valid()
      modifies this
      ensures Valid()
      ensures actions == WithStatus(old(actions), id, st)
      ensures nextId == old(nextId) && decisions == old(decisions) && scores == old(scores)
    {
      actions := WithStatus(actions, id, st);
    }

    method SetMessageId(id: int, m: int)
      requires Valid()
      modifies this
      ensures Valid()
      ensures actions == WithMessageId(old(actions), id, m)
      ensures nextId == old(nextId) && decisions == old(decisions) && scores == old(scores)
    {
      actions := WithMessageId(actions, id, m);
    }

    /** `INSERT INTO decisions_log`: appends one row, nothing else. */
    method AppendDecision(e: DecisionEntry)
      requires Valid()
      modifies this
      ensures Valid()
      ensures decisions == old(decisions) + [e]
      ensures actions == old(actions) && nextId == old(nextId) && scores == old(scores)
    {
      decisions := decisions + [e];
    }

    /** `INSERT INTO lead_scores`: appends one row, nothing else. */
    method AppendScore(s: LeadScore)
      requires Valid()
      modifies this
      ensures Valid()
      ensures scores == old(scores) + [s]
      ensures actions == old(actions) && nextId == old(nextId) && decisions == old(decisions)
    {
      scores := scores + [s];
    }
  }
}
