/** The critical-lead workflow (src/services/lead-workflow.ts): a graph of
    five nodes over one state record, run from `analyzeRisk` until it
    ends. Each node is a function from the state to the updated state;
    `Process` is the graph runtime, a loop that applies the current node
    and follows the edges. The CRM and Telegram calls a node makes are
    inputs: `PassReplies` gives their answers for one pass, a pass being
    one visit of `analyzeRisk` and the nodes after it. */
module LeadWorkflow {
  import opened Collections
  import opened AmoCrm
  import opened Scoring
  import opened Telegram

  datatype Node = AnalyzeRisk | CheckTasks | CreateTask | NotifyManager | WaitAndRetry | End

  datatype WorkflowState = WorkflowState(
    leadId: int,
    leadName: string,
    riskScore: int,
    riskLevel: RiskLevel,
    hasTasks: bool,
    taskCreated: bool,
    managerNotified: bool,
    attempts: int,
    actionNeeded: bool)

  /** The state `process` starts the graph with. */
  function Initial(leadId: int): WorkflowState {
    WorkflowState(leadId, "", 0, Low, false, false, false, 0, false)
  }

  /** The answers the collaborators give during one pass: the clock, the
      lead details (`None`: the request failed), the lead's tasks (`None`:
      the request failed), whether creating a task and sending the
      manager's message succeed. */
  datatype PassReplies = PassReplies(
    now: int,
    lead: Option<Lead>,
    tasks: Option<seq<Task>>,
    createOk: bool,
    sendOk: bool)

  /** The workflow's own risk score: 80 beyond seven days without update,
      50 beyond three, 20 otherwise. A lead without `updated_at` gives a
      NaN staleness, which exceeds nothing, so it scores 20. */
  function WorkflowRiskScore(updatedAt: Option<int>, now: int): (r: int)
    ensures r == 80 <==> updatedAt.Some? && now - updatedAt.value > 7 * SecondsPerDay
    ensures r == 50 <==> updatedAt.Some? && 3 * SecondsPerDay < now - updatedAt.value <= 7 * SecondsPerDay
    ensures r == 20 <==> updatedAt.None? || now - updatedAt.value <= 3 * SecondsPerDay
  {
    match updatedAt
    case None => 20
    case Some(u) =>
      if now - u > 7 * SecondsPerDay then 80
      else if now - u > 3 * SecondsPerDay then 50
      else 20
  }

  /** The workflow's level bands: above 70 CRITICAL, above 40 HIGH,
      otherwise MEDIUM (never LOW). */
  function WorkflowRiskLevel(score: int): (r: RiskLevel)
    ensures r == Critical <==> score > 70
    ensures r == High <==> 40 < score <= 70
    ensures r == Medium <==> score <= 40
  {
    if score > 70 then Critical else if score > 40 then High else Medium
  }

  /** Node `analyzeRisk`: sets the name, score, level and whether action
      is needed from the fetched lead; nothing else changes. */
  function AnalyzeRiskNode(s: WorkflowState, lead: Lead, now: int): (r: WorkflowState)
    ensures r.(leadName := s.leadName, riskScore := s.riskScore, riskLevel := s.riskLevel, actionNeeded := s.actionNeeded) == s
    ensures r.leadName == lead.name
    ensures r.riskScore == WorkflowRiskScore(lead.updatedAt, now)
    ensures r.riskLevel == WorkflowRiskLevel(r.riskScore)
    ensures r.actionNeeded <==> r.riskScore > 40
  {
    var score := WorkflowRiskScore(lead.updatedAt, now);
    s.(leadName := lead.name, riskScore := score, riskLevel := WorkflowRiskLevel(score), actionNeeded := score > 40)
  }

  /** Node `checkTasks`: `hasTasks` iff some fetched task is not completed. */
  function CheckTasksNode(s: WorkflowState, tasks: seq<Task>): (r: WorkflowState)
    ensures r.(hasTasks := s.hasTasks) == s
    ensures r.hasTasks <==> exists i :: 0 <= i < |tasks| && !tasks[i].isCompleted
  {
    s.(hasTasks := HasActiveTasks(tasks))
  }

  /** Node `createTask`: records whether the CRM accepted the task. */
  function CreateTaskNode(s: WorkflowState, ok: bool): (r: WorkflowState)
    ensures r.(taskCreated := s.taskCreated) == s
    ensures r.taskCreated == ok
  {
    s.(taskCreated := ok)
  }

  /** Node `notifyManager`: the manager is notified iff an id is
      configured and the message was sent. */
  function NotifyManagerNode(s: WorkflowState, managerId: Option<string>, sendOk: bool): (r: WorkflowState)
    ensures r.(managerNotified := s.managerNotified) == s
    ensures r.managerNotified <==> ManagerConfigured(managerId) && sendOk
  {
    s.(managerNotified := ManagerConfigured(managerId) && sendOk)
  }

  /** Node `waitAndRetry`: one more attempt, nothing else. */
  function WaitAndRetryNode(s: WorkflowState): (r: WorkflowState)
    ensures r.attempts == s.attempts + 1
    ensures r.(attempts := s.attempts) == s
  {
    s.(attempts := s.attempts + 1)
  }

  /** The retry condition on the edge out of `notifyManager`. */
  predicate ShouldRetry(s: WorkflowState) {
    s.riskScore > 70 && s.attempts < 3
  }

  /** The graph's edges, taken after `node` has updated the state to `s`. */
  function Next(node: Node, s: WorkflowState): (r: Node)
    ensures node == AnalyzeRisk ==> r == CheckTasks
    ensures node == CheckTasks ==> (r == CreateTask <==> !s.hasTasks) && (r == NotifyManager <==> s.hasTasks)
    ensures node == CreateTask ==> r == NotifyManager
    ensures r == WaitAndRetry <==> node == NotifyManager && ShouldRetry(s)
    ensures node == NotifyManager && !ShouldRetry(s) ==> r == End
    ensures node == WaitAndRetry ==> r == AnalyzeRisk
  {
    match node
    case AnalyzeRisk => CheckTasks
    case CheckTasks => if s.hasTasks then NotifyManager else CreateTask
    case CreateTask => NotifyManager
    case NotifyManager => if ShouldRetry(s) then WaitAndRetry else End
    case WaitAndRetry => AnalyzeRisk
    case End => End
  }

  /** The position of a node within a pass, decreasing along the edges. */
  function NodeRank(node: Node): nat {
    match node
    case AnalyzeRisk => 5
    case CheckTasks => 4
    case CreateTask => 3
    case NotifyManager => 2
    case WaitAndRetry => 1
    case End => 0
  }

  /** `s` holds what `analyzeRisk` computed from the pass's lead. */
  ghost predicate Analyzed(s: WorkflowState, r: PassReplies) {
    r.lead.Some?
    && s.leadName == r.lead.value.name
    && s.riskScore == WorkflowRiskScore(r.lead.value.updatedAt, r.now)
    && s.riskLevel == WorkflowRiskLevel(s.riskScore)
    && (s.actionNeeded <==> s.riskScore > 40)
  }

  /** `s` holds what `checkTasks` computed from the pass's tasks. */
  ghost predicate TasksChecked(s: WorkflowState, r: PassReplies) {
    r.tasks.Some? && s.hasTasks == HasActiveTasks(r.tasks.value)
  }

  /** Pass `r` fetched its lead and tasks and scored above 70, so the
      workflow retried after it. */
  ghost predicate PassRetried(r: PassReplies) {
    r.lead.Some? && r.tasks.Some? && WorkflowRiskScore(r.lead.value.updatedAt, r.now) > 70
  }

  /** `process(leadId)`: runs the graph from `analyzeRisk` with the initial
      state. `replies(k)` answers the collaborators' calls of pass `k`;
      `None` is returned when a lead or task request fails, which the
      source raises to its caller. `visits` counts the visits of
      `analyzeRisk` and `steps` the nodes run. */
  method Process(leadId: int, managerId: Option<string>, replies: nat -> PassReplies)
    returns (result: Option<WorkflowState>, ghost visits: nat, ghost steps: nat)
    ensures visits <= 4 && steps <= 19
    ensures result.Some? ==> 0 <= result.value.attempts <= 3
    ensures result.Some? ==>
      var s := result.value;
      var last := replies(s.attempts);
      s.leadId == leadId
      && visits == s.attempts + 1
      && !ShouldRetry(s)
      && Analyzed(s, last)
      && TasksChecked(s, last)
      && (s.managerNotified <==> ManagerConfigured(managerId) && last.sendOk)
      && (!s.hasTasks ==> s.taskCreated == last.createOk)
      && (s.taskCreated ==> exists k :: 0 <= k <= s.attempts && replies(k).createOk)
    ensures result.Some? ==> forall k :: 0 <= k < result.value.attempts ==> PassRetried(replies(k))
    ensures result.None? ==>
      exists k :: 0 <= k <= 3 && (replies(k).lead.None? || replies(k).tasks.None?)
        && (forall j :: 0 <= j < k ==> PassRetried(replies(j)))
    ensures (forall k :: 0 <= k <= 3 ==> replies(k).lead.Some? && replies(k).tasks.Some?) ==> result.Some?
    ensures (replies(0).lead.Some? && replies(0).tasks.Some?
             && WorkflowRiskScore(replies(0).lead.value.updatedAt, replies(0).now) <= 70) ==>
      result.Some? && result.value.attempts == 0 && visits == 1
  {
    var node := AnalyzeRisk;
    var s := Initial(leadId);
    visits := 0;
    steps := 0;
    while node != End
      invariant 0 <= s.attempts <= 3 && s.leadId == leadId
      invariant visits == s.attempts + (if node == AnalyzeRisk then 0 else 1)
      invariant steps <= 5 * s.attempts + 5 - NodeRank(node) - (if node == End then 1 else 0)
      invariant node == WaitAndRetry ==> ShouldRetry(s)
      invariant node == End ==> !ShouldRetry(s)
      invariant node != AnalyzeRisk ==> Analyzed(s, replies(s.attempts))
      invariant node in {CreateTask, NotifyManager, WaitAndRetry, End} ==> TasksChecked(s, replies(s.attempts))
      invariant node == CreateTask ==> !s.hasTasks
      invariant node in {NotifyManager, WaitAndRetry, End} && !s.hasTasks ==> s.taskCreated == replies(s.attempts).createOk
      invariant node in {WaitAndRetry, End} ==> (s.managerNotified <==> ManagerConfigured(managerId) && replies(s.attempts).sendOk)
      invariant s.taskCreated ==> exists k :: 0 <= k <= s.attempts && replies(k).createOk
      invariant forall k :: 0 <= k < s.attempts ==> PassRetried(replies(k))
      invariant s.attempts > 0 ==>
        (replies(0).lead.Some? && replies(0).tasks.Some?
         && WorkflowRiskScore(replies(0).lead.value.updatedAt, replies(0).now) > 70)
      invariant s.attempts == 0 && node != AnalyzeRisk && node != CheckTasks ==>
        replies(0).lead.Some? && replies(0).tasks.Some?
      decreases 3 - s.attempts, NodeRank(node)
    {
      var r := replies(s.attempts);
      match node {
        case AnalyzeRisk =>
          if r.lead.None? {
            assert replies(s.attempts).lead.None?;
            assert forall j :: 0 <= j < s.attempts ==> PassRetried(replies(j));
            return None, visits + 1, steps + 1;
          }
          s := AnalyzeRiskNode(s, r.lead.value, r.now);
          visits := visits + 1;
        case CheckTasks =>
          if r.tasks.None? {
            assert replies(s.attempts).tasks.None?;
            assert forall j :: 0 <= j < s.attempts ==> PassRetried(replies(j));
            return None, visits, steps + 1;
          }
          s := CheckTasksNode(s, r.tasks.value);
        case CreateTask =>
          s := CreateTaskNode(s, r.createOk);
        case NotifyManager =>
          s := NotifyManagerNode(s, managerId, r.sendOk);
        case WaitAndRetry =>
          s := WaitAndRetryNode(s);
      }
      steps := steps + 1;
      node := Next(node, s);
    }
    result := Some(s);
  }
}
