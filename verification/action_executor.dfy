/** The approval side of the agent (src/services/action-executor.ts):
    executing a stored pending action against the CRM, rejecting it, and
    logging the manager's decision. The CRM is a collaborator whose calls
    are recorded; whether each call succeeds is an input. */
module ActionExec {
  import opened Collections
  import opened Store

  /** A request the executor sends to the CRM. */
  datatype CrmCall =
    | CreateTaskCall(leadId: int, task: ActionParams)
    | UpdateLeadCall(leadId: int, statusId: Option<int>)
    | AddNoteCall(leadId: int, text: Option<string>)

  /** A missing value inside a template literal prints as `undefined`. */
  function Interpolated(v: Option<string>): string {
    v.GetOr("undefined")
  }

  function TaskNote(text: Option<string>, reasoning: string): string {
    "🤖 AI Agent создал задачу: " + Interpolated(text) + "\n\nОбоснование: " + reasoning
  }

  function StatusNote(reasoning: string): string {
    "🤖 AI Agent обновил статус сделки\n\nОбоснование: " + reasoning
  }

  function WaitNote(reasoning: string): string {
    "🤖 AI Agent: действие не требуется\n\n" + reasoning
  }

  /** `action_data ? JSON.parse(action_data) : {}` for a payload that parses. */
  function Params(data: ActionData): ActionParams
    requires !data.Malformed?
  {
    match data
    case Json(p) => p
    case NoData => NoParams
  }

  /** The CRM calls the `switch` on `action_type` makes, in order, when
      each succeeds; `None` for a type it does not know. */
  function PlannedCalls(a: PendingAction, p: ActionParams): (r: Option<seq<CrmCall>>)
    ensures r.Some? <==> a.actionType in ["create_task", "update_status", "add_note", "wait"]
    ensures r.Some? ==> 1 <= |r.value| <= 2 && r.value[|r.value| - 1].AddNoteCall?
    ensures r.Some? ==> forall i :: 0 <= i < |r.value| ==> r.value[i].leadId == a.leadId
  {
    if a.actionType == "create_task" then
      Some([CreateTaskCall(a.leadId, p), AddNoteCall(a.leadId, Some(TaskNote(p.text, a.reasoning)))])
    else if a.actionType == "update_status" then
      Some([UpdateLeadCall(a.leadId, p.newStatusId), AddNoteCall(a.leadId, Some(StatusNote(a.reasoning)))])
    else if a.actionType == "add_note" then
      Some([AddNoteCall(a.leadId, p.text)])
    else if a.actionType == "wait" then
      Some([AddNoteCall(a.leadId, Some(WaitNote(a.reasoning)))])
    else
      None
  }

  /** The calls actually made and whether all of them succeeded. */
  datatype Performance = Performance(made: seq<CrmCall>, allOk: bool)

  /** Awaiting `planned[k..]` one after another: the first failing call
      (by `ok`, indexed by position) is made and ends the run. */
  function PerformedFrom(planned: seq<CrmCall>, ok: nat -> bool, k: nat): (r: Performance)
    requires k <= |planned|
    ensures k + |r.made| <= |planned| && r.made == planned[k..k + |r.made|]
    ensures r.allOk <==> forall i :: k <= i < |planned| ==> ok(i)
    ensures r.allOk ==> r.made == planned[k..]
    ensures !r.allOk ==> |r.made| >= 1 && !ok(k + |r.made| - 1)
    ensures forall i :: k <= i < k + |r.made| - 1 ==> ok(i)
    decreases |planned| - k
  {
    if k == |planned| then Performance([], true)
    else if !ok(k) then Performance([planned[k]], false)
    else
      var rest := PerformedFrom(planned, ok, k + 1);
      Performance([planned[k]] + rest.made, rest.allOk)
  }

  lemma PerformedOne(c0: CrmCall, ok: nat -> bool)
    ensures PerformedFrom([c0], ok, 0) == Performance([c0], ok(0))
  {
  }

  lemma PerformedTwo(c0: CrmCall, c1: CrmCall, ok: nat -> bool)
    ensures PerformedFrom([c0, c1], ok, 0) ==
      if !ok(0) then Performance([c0], false) else Performance([c0, c1], ok(1))
  {
    if ok(0) {
      assert PerformedFrom([c0, c1], ok, 1) == Performance([c1], ok(1));
    }
  }

  datatype Failure =
    | NotFound
    | NotPending(status: ActionStatus)
    | MalformedPayload
    | UnknownActionType(actionType: string)
    | CrmFailure

  datatype Outcome = Success | Error(failure: Failure)

  /** What `execute` returns or throws, the CRM calls it made, and the
      `pending_actions` table afterwards. */
  datatype ExecResult = ExecResult(outcome: Outcome, calls: seq<CrmCall>, actions: map<int, PendingAction>)

  /** `ActionExecutor.execute(id)`: a missing or non-pending action is an
      error with no effect; a payload that does not parse is an error
      raised before the `try`, so the action stays pending; otherwise the
      calls run until one fails, and the action becomes `executed` when
      all succeeded and `failed` when a call failed or the type is unknown. */
  function ExecuteAction(actions: map<int, PendingAction>, id: int, ok: nat -> bool): (r: ExecResult)
    ensures id !in actions ==> r == ExecResult(Error(NotFound), [], actions)
    ensures id in actions && actions[id].status != Pending ==>
      r == ExecResult(Error(NotPending(actions[id].status)), [], actions)
    ensures id in actions && actions[id].status == Pending && actions[id].actionData.Malformed? ==>
      r == ExecResult(Error(MalformedPayload), [], actions)
    ensures id in actions && actions[id].status == Pending && !actions[id].actionData.Malformed? ==>
      var a := actions[id];
      var planned := PlannedCalls(a, Params(a.actionData));
      (planned.None? ==> r == ExecResult(Error(UnknownActionType(a.actionType)), [], WithStatus(actions, id, Failed)))
      && (planned.Some? ==>
        var run := PerformedFrom(planned.value, ok, 0);
        r.calls == run.made
        && (run.allOk ==> r.outcome == Success)
        && (!run.allOk ==> r.outcome == Error(CrmFailure)))
    ensures r.outcome == Error(MalformedPayload) ==> r.calls == [] && r.actions == actions
    ensures r.outcome == Success ==> r.actions == WithStatus(actions, id, Executed)
    ensures r.outcome == Error(CrmFailure) || (r.outcome.Error? && r.outcome.failure.UnknownActionType?) ==>
      r.actions == WithStatus(actions, id, Failed)
    ensures r.calls != [] ==> id in actions && actions[id].status == Pending
    ensures r.actions.Keys == actions.Keys
    ensures forall k :: k in actions && k != id ==> r.actions[k] == actions[k]
  {
    if id !in actions then ExecResult(Error(NotFound), [], actions)
    else
      var a := actions[id];
      if a.status != Pending then ExecResult(Error(NotPending(a.status)), [], actions)
      else if a.actionData.Malformed? then ExecResult(Error(MalformedPayload), [], actions)
      else
        match PlannedCalls(a, Params(a.actionData))
        case None => ExecResult(Error(UnknownActionType(a.actionType)), [], WithStatus(actions, id, Failed))
        case Some(planned) =>
          var run := PerformedFrom(planned, ok, 0);
          if run.allOk then ExecResult(Success, run.made, WithStatus(actions, id, Executed))
          else ExecResult(Error(CrmFailure), run.made, WithStatus(actions, id, Failed))
  }

  /** An action leaves `pending` at most once: unless the first `execute`
      stopped on an unparsable payload, a second one fails without any
      CRM call or change. */
  lemma ExecuteAtMostOnce(actions: map<int, PendingAction>, id: int, ok1: nat -> bool, ok2: nat -> bool)
    requires ExecuteAction(actions, id, ok1).outcome != Error(MalformedPayload)
    ensures var after := ExecuteAction(actions, id, ok1).actions;
      var again := ExecuteAction(after, id, ok2);
      again.outcome.Error? && again.calls == [] && again.actions == after
  {
    var r := ExecuteAction(actions, id, ok1);
    if id in actions && actions[id].status == Pending {
      assert r.outcome.Success? || r.outcome == Error(CrmFailure) || r.outcome.failure.UnknownActionType?;
      assert r.actions[id].status != Pending;
    }
  }

  /** `create_task` with both calls succeeding: exactly one task with the
      stored payload, then exactly one note, and the action is executed. */
  lemma ExecuteCreateTask(actions: map<int, PendingAction>, id: int, ok: nat -> bool)
    requires id in actions && actions[id].status == Pending && !actions[id].actionData.Malformed?
    requires actions[id].actionType == "create_task"
    ensures var a := actions[id];
      var p := Params(a.actionData);
      var r := ExecuteAction(actions, id, ok);
      (ok(0) && ok(1) ==>
        r.outcome == Success
        && r.calls == [CreateTaskCall(a.leadId, p), AddNoteCall(a.leadId, Some(TaskNote(p.text, a.reasoning)))])
      && (ok(0) && !ok(1) ==>
        r.outcome == Error(CrmFailure)
        && r.calls == [CreateTaskCall(a.leadId, p), AddNoteCall(a.leadId, Some(TaskNote(p.text, a.reasoning)))]
        && r.actions[id].status == Failed)
      && (!ok(0) ==>
        r.outcome == Error(CrmFailure) && r.calls == [CreateTaskCall(a.leadId, p)]
        && r.actions[id].status == Failed)
  {
    var a := actions[id];
    var p := Params(a.actionData);
    PerformedTwo(CreateTaskCall(a.leadId, p), AddNoteCall(a.leadId, Some(TaskNote(p.text, a.reasoning))), ok);
  }

  /** `update_status` asks for the stored status change and then adds the
      status note; the note is only sent when the update succeeded, and
      the action is executed only when both succeeded. */
  lemma ExecuteUpdateStatus(actions: map<int, PendingAction>, id: int, ok: nat -> bool)
    requires id in actions && actions[id].status == Pending && !actions[id].actionData.Malformed?
    requires actions[id].actionType == "update_status"
    ensures var a := actions[id];
      var r := ExecuteAction(actions, id, ok);
      var update := UpdateLeadCall(a.leadId, Params(a.actionData).newStatusId);
      var note := AddNoteCall(a.leadId, Some(StatusNote(a.reasoning)));
      r.calls == (if ok(0) then [update, note] else [update])
      && r.outcome == (if ok(0) && ok(1) then Success else Error(CrmFailure))
      && r.actions == WithStatus(actions, id, if ok(0) && ok(1) then Executed else Failed)
  {
    var a := actions[id];
    PerformedTwo(UpdateLeadCall(a.leadId, Params(a.actionData).newStatusId), AddNoteCall(a.leadId, Some(StatusNote(a.reasoning))), ok);
  }

  /** `add_note` sends the payload's text as it is and nothing else;
      `wait` sends one fixed note and nothing else. */
  lemma ExecuteNoteOnly(actions: map<int, PendingAction>, id: int, ok: nat -> bool)
    requires id in actions && actions[id].status == Pending && !actions[id].actionData.Malformed?
    requires actions[id].actionType == "add_note" || actions[id].actionType == "wait"
    ensures var a := actions[id];
      var r := ExecuteAction(actions, id, ok);
      r.calls == [AddNoteCall(a.leadId,
        if a.actionType == "add_note" then Params(a.actionData).text else Some(WaitNote(a.reasoning)))]
      && r.actions == WithStatus(actions, id, if ok(0) then Executed else Failed)
  {
    var a := actions[id];
    var planned := PlannedCalls(a, Params(a.actionData)).value;
    var run := PerformedFrom(planned, ok, 0);
    assert |planned| == 1;
    if ok(0) {
      assert run.allOk;
      assert planned[0..] == planned;
    } else {
      assert |run.made| == 1;
    }
  }

  /** The CRM as the executor sees it: the calls sent so far. */
  class CrmGateway {
    var calls: seq<CrmCall>

    constructor()
      ensures calls == []
    {
      calls := [];
    }

    /** Sends one request; `ok` is whether the CRM accepted it. */
    method Send(c: CrmCall, ok: bool) returns (success: bool)
      modifies this
      ensures calls == old(calls) + [c] && success == ok
    {
      calls := calls + [c];
      success := ok;
    }
  }

  class ActionExecutor {
    const db: Database
    const crm: CrmGateway

    constructor(db: Database, crm: CrmGateway)
      ensures this.db == db && this.crm == crm
    {
      this.db := db;
      this.crm := crm;
    }

    /** The `switch` on `action_type`: the CRM calls made, stopping at the
        first that fails; `None` when the type is unknown. */
    method Dispatch(a: PendingAction, p: ActionParams, ok: nat -> bool) returns (success: Option<bool>)
      modifies crm
      ensures success.None? <==> PlannedCalls(a, p).None?
      ensures success.None? ==> crm.calls == old(crm.calls)
      ensures success.Some? ==>
        var run := PerformedFrom(PlannedCalls(a, p).value, ok, 0);
        crm.calls == old(crm.calls) + run.made && success.value == run.allOk
    {
      var sent: bool;
      if a.actionType == "create_task" {
        var c0 := CreateTaskCall(a.leadId, p);
        var c1 := AddNoteCall(a.leadId, Some(TaskNote(p.text, a.reasoning)));
        PerformedTwo(c0, c1, ok);
        sent := crm.Send(c0, ok(0));
        if sent {
          sent := crm.Send(c1, ok(1));
        }
      } else if a.actionType == "update_status" {
        var c0 := UpdateLeadCall(a.leadId, p.newStatusId);
        var c1 := AddNoteCall(a.leadId, Some(StatusNote(a.reasoning)));
        PerformedTwo(c0, c1, ok);
        sent := crm.Send(c0, ok(0));
        if sent {
          sent := crm.Send(c1, ok(1));
        }
      } else if a.actionType == "add_note" {
        var c0 := AddNoteCall(a.leadId, p.text);
        PerformedOne(c0, ok);
        sent := crm.Send(c0, ok(0));
      } else if a.actionType == "wait" {
        var c0 := AddNoteCall(a.leadId, Some(WaitNote(a.reasoning)));
        PerformedOne(c0, ok);
        sent := crm.Send(c0, ok(0));
      } else {
        return None;
      }
      success := Some(sent);
    }

    /** `execute(actionId)`; `ok(i)` says whether the i-th CRM call of
        this run succeeds. */
    method Execute(id: int, ok: nat -> bool) returns (outcome: Outcome)
      requires db.Valid()
      modifies db, crm
      ensures db.Valid()
      ensures var r := ExecuteAction(old(db.actions), id, ok);
        outcome == r.outcome && db.actions == r.actions && crm.calls == old(crm.calls) + r.calls
      ensures db.nextId == old(db.nextId) && db.decisions == old(db.decisions) && db.scores == old(db.scores)
    {
      if id !in db.actions {
        return Error(NotFound);
      }
      var a := db.actions[id];
      if a.status != Pending {
        return Error(NotPending(a.status));
      }
      if a.actionData.Malformed? {
        return Error(MalformedPayload);
      }
      var success := Dispatch(a, Params(a.actionData), ok);
      match success {
        case None =>
          db.SetStatus(id, Failed);
          outcome := Error(UnknownActionType(a.actionType));
        case Some(true) =>
          db.SetStatus(id, Executed);
          outcome := Success;
        case Some(false) =>
          db.SetStatus(id, Failed);
          outcome := Error(CrmFailure);
      }
    }

    /** `reject(actionId)`: the status becomes `rejected` whatever it was;
        an unknown id changes nothing. */
    method Reject(id: int)
      requires db.Valid()
      modifies db
      ensures db.Valid()
      ensures db.actions == WithStatus(old(db.actions), id, Rejected)
      ensures db.nextId == old(db.nextId) && db.decisions == old(db.decisions) && db.scores == old(db.scores)
    {
      db.SetStatus(id, Rejected);
    }

    /** `logDecision`: one more `decisions_log` row; `pending_actions` is
        not touched. */
    method LogDecision(id: int, decision: Decision, modifiedData: Option<string>)
      requires db.Valid()
      modifies db
      ensures db.Valid()
      ensures db.decisions == old(db.decisions) + [DecisionEntry(id, decision, modifiedData)]
      ensures db.actions == old(db.actions) && db.nextId == old(db.nextId) && db.scores == old(db.scores)
    {
      db.AppendDecision(DecisionEntry(id, decision, modifiedData));
    }
  }
}
