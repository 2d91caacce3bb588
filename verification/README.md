# crm-ai-agent in Dafny

A Dafny model of the lead-triage and approval engine of crm-ai-agent, an
assistant for amoCRM sales managers.

On a timer the agent does the following:

- It fetches the CRM's leads and keeps the ones that need attention
  (`quickFilter`).
- It keeps only the leads updated since it last saw them.
- It runs the critical leads (VIP budget, or stuck for more than a week)
  through a small workflow graph. The graph analyses the risk, checks the
  lead's tasks, creates a task when there is none, notifies the manager,
  and retries while the risk stays critical.
- It scores the other leads in batches of ten with a language model. Each
  result writes a `lead_scores` row. When the result asks for an action, it
  also inserts a `pending_actions` row and sends the manager a Telegram
  proposal with approve/reject buttons.
- Approving executes the stored action against the CRM. Rejecting and
  snoozing only change the action's status. Decisions are logged.

Around this engine sit the CRM list filters, the deterministic scoring
tools, the Telegram helpers (risk emoji, issue and impact lines, callback
data, conversation memory), a per-user sliding-window rate limiter and a
user allow-list.

## How it is modelled

The model has one Dafny module per source file:

- `Polling` for `src/index.ts`
- `LeadWorkflow`
- `ActionExec`
- `Scoring` for `ai.ts`
- `AmoCrm`
- `Telegram`
- `RateLimiting`
- `TelegramAuth`

Three modules are shared:

- `Collections` holds `Option`, `Filter` and subsequences.
- `Text` holds trimming, substring search, lower-casing, decimal
  printing and parsing, and split/join.
- `Store` holds the agent's SQLite tables as values and the `Database`
  class that updates them.

State the source changes in place is kept in classes:

- `Poller.lastChecked`
- `Database`
- `TelegramService.history`
- `RateLimiter.requests`

The loops of `poll` are `while` loops proved against recursive
specification functions (`DetectFrom`, `HandleFrom`, `RunBatches`). The
rate limiter's `cleanup` loop is proved against the map comprehension
`Cleaned` through the partial map `CleanedPart`. The workflow runtime's
loop in `LeadWorkflow.Process` is proved by its invariants over the node
functions. The pure rule ladders and filters are functions.

Every collaborator is an input, so each contract holds for every answer,
failures included:

- **CRM requests.** `ok(i)` says whether the i-th call succeeds.
  `PassReplies` gives the workflow's answers. `fetched` is the lead list,
  and `None` means the request failed.
- **Language model.** `BatchReply` is its answer: `ScorerFailed`, or the
  array it returned.
- **Telegram sends.** `sent(id)` is the message id, and `None` means the
  send failed.
- **The clock.** `now` is a parameter, in integer Unix seconds. The rate
  limiter and the today filter work in milliseconds.

Two source conventions carry over to the model:

- A missing `price` is 0.
- A missing `updated_at` is `None`. The `updated_at || now` default treats
  `None` and 0 alike.

## Model

| member | source | states |
|---|---|---|
| Polling.QuickFilter | src/index.ts:13-57 | the five-rule ladder holds iff budget ≥ 100000, or more than 7 days stale, or no active task together with more than 3 days stale or budget ≥ 50000 |
| Polling.QuickFilterCriticalPasses | src/index.ts:32-41 | a VIP, or a lead more than 7 days stale, passes whatever its tasks |
| Polling.QuickFilterQuietLead | src/index.ts:26-56 | budget < 50000 with an active task and at most 3 days stale is rejected |
| Polling.QuickFilterNoTimestamp | src/index.ts:15-16 | with no or zero `updated_at`, only budget and tasks decide |
| Polling.DetectSubseq | src/index.ts:97-106 | the kept leads are a subsequence of the input, in order |
| Polling.DetectMonotone | src/index.ts:98-103 | the stored `updated_at` of an id never decreases and no id is forgotten |
| Polling.DetectSeesAll | src/index.ts:97-106 | afterwards no lead of the list counts as changed |
| Polling.DetectNothingNew | src/index.ts:97-106 | a list with nothing newer keeps nothing and leaves the map unchanged |
| Polling.DetectIdempotent | src/index.ts:97-106 | presenting the same leads again keeps none of them and writes nothing |
| Polling.DetectDistinct | src/index.ts:97-106 | with distinct ids a lead is kept iff its `updated_at` exceeds the stored value (default 0) |
| Polling.DetectOtherIds | src/index.ts:94-106 | map entries of ids absent from the list are untouched |
| Polling.CriticalLeads | src/index.ts:116-122 | a lead is critical iff budget ≥ 500000 or more than 7 days stale; order kept |
| Polling.NormalLeads | src/index.ts:125 | the changed leads that are not critical, in order |
| Polling.RoutingPartition | src/index.ts:116-125 | critical and normal leads split the changed leads as a multiset, are disjoint, and every critical lead passes `quickFilter` |
| Polling.BatchesShape | src/index.ts:146-149 | the batches concatenate to the normal list; each holds 1 to 10 leads, all but the last exactly 10 |
| Polling.BatchAt | src/index.ts:148-149 | batch b exists iff 10·b < length, and is the slice from 10·b to min(10·b+10, length) |
| Polling.HandleResult | src/index.ts:170-197 | a valid result appends exactly its score row, takes a new id iff an action is wanted, and aborts the batch iff a proposal send fails |
| Polling.HandleResultActions | src/index.ts:182-194 | no action row unless `action_needed` and a non-empty `recommended_action`; else one new `pending` row under the next id with the lead's name, a message id only if sent, other rows unchanged |
| Polling.HandleFromExtends | src/index.ts:156-200 | a batch keeps every earlier row, only appends score rows, and every new action row is `pending` under a fresh id |
| Polling.HandleFromCounts | src/index.ts:156-200 | a batch not aborted writes one score row per object result in order and one action per result asking for one; an aborted batch writes no more |
| Polling.NothingWanted | src/index.ts:156-200 | when no result asks for an action, only score rows are appended |
| Polling.FallbackRowsOf | src/index.ts:156-200 | fallback results ask for no action and give score 0, `LOW` rows |
| Polling.FallbackBatch | src/index.ts:154-200 | a batch whose scoring failed writes one 0/`LOW` row per lead and no action |
| Polling.RunBatchesExtends | src/index.ts:148-204 | the batch loop keeps existing rows and only adds pending actions |
| Polling.AllFallback | src/index.ts:148-204 | when every batch's scoring fails, one 0/`LOW` row per normal lead, in order, and no action |
| Polling.Poller.DetectChangedLeads | src/index.ts:97-106 | the in-place loop keeps exactly the leads of the change-detection function and leaves `lastChecked` as it says |
| Polling.Poller.HandleBatch | src/index.ts:156-200 | the per-result loop leaves the tables as the batch specification says; the decisions log is untouched |
| Polling.Poller.RunWorkflows | src/index.ts:134-141 | one workflow run per critical lead, each for that lead's id; a failing run does not stop the loop |
| Polling.Poller.RunAllBatches | src/index.ts:146-204 | the loop stepping by 10 leaves the tables as the batch loop over `Batches` says |
| Polling.Poller.Poll | src/index.ts:85-212 | a failed fetch changes nothing; otherwise `lastChecked` is the detection over the filtered leads, one workflow run per critical lead, and the tables are the batch loop over the normal leads |
| LeadWorkflow.WorkflowRiskScore | src/services/lead-workflow.ts:111-117 | 80 beyond 7 days, 50 beyond 3, else 20 (also with no `updated_at`) |
| LeadWorkflow.WorkflowRiskLevel | src/services/lead-workflow.ts:119 | CRITICAL iff > 70, HIGH iff 40 < score ≤ 70, else MEDIUM |
| LeadWorkflow.AnalyzeRiskNode | src/services/lead-workflow.ts:105-129 | sets name, score, level and `actionNeeded` iff score > 40; nothing else changes |
| LeadWorkflow.CheckTasksNode | src/services/lead-workflow.ts:134-145 | `hasTasks` iff some task is not completed; nothing else changes |
| LeadWorkflow.CreateTaskNode | src/services/lead-workflow.ts:150-172 | `taskCreated` is whether the CRM accepted the task, a failure included; nothing else changes |
| LeadWorkflow.NotifyManagerNode | src/services/lead-workflow.ts:177-206 | `managerNotified` iff a manager id is set and the send succeeded; nothing else changes |
| LeadWorkflow.WaitAndRetryNode | src/services/lead-workflow.ts:211-220 | attempts grows by exactly one; nothing else changes |
| LeadWorkflow.Next | src/services/lead-workflow.ts:55-100 | the edges: checkTasks goes to createTask iff no tasks; waitAndRetry is entered iff score > 70 and attempts < 3; else the run ends |
| LeadWorkflow.Process | src/services/lead-workflow.ts:225-245 | terminates with at most 4 visits of analyzeRisk and 19 node steps, attempts ≤ 3, no retry pending, and the final state holding the last pass's analysis, task check, task creation and notification; a failed task creation still reaches the notification; every pass before the last fetched its lead and tasks and scored above 70; the result is missing only when a pass reached after such passes had a failed lead or task fetch, and present whenever all four passes' fetches succeed; a first pass scoring ≤ 70 ends after one pass |
| ActionExec.PlannedCalls | src/services/action-executor.ts:25-55 | known types plan one or two CRM calls on the action's lead, ending with a note; an unknown type plans none |
| ActionExec.PerformedFrom | src/services/action-executor.ts:24-55 | calls run in order until the first failure, which is made and stops the run; success iff every call succeeds |
| ActionExec.ExecuteAction | src/services/action-executor.ts:10-73 | unknown id or non-pending action: error, no call, no change; a pending action with a malformed payload: error before the `try`, no call, still pending; a pending action of unknown type: that error, no call, `failed`; otherwise the calls made are exactly the planned calls up to the first failure, `executed` with success iff all succeeded, else `failed` with a CRM error; no other row changes |
| ActionExec.ExecuteAtMostOnce | src/services/action-executor.ts:18-20 | once an action left `pending`, a second execute fails with no CRM call and no change |
| ActionExec.ExecuteCreateTask | src/services/action-executor.ts:26-31 | `create_task` makes exactly one task call with the stored payload then one note; a failing note after a created task, or a failing first call (which sends no note), marks the action `failed` |
| ActionExec.ExecuteUpdateStatus | src/services/action-executor.ts:33-40 | `update_status` calls the status update with the stored status id and then the status note, the note only after a successful update; `executed` iff both succeed, else `failed` |
| ActionExec.ExecuteNoteOnly | src/services/action-executor.ts:42-51 | `add_note` sends the payload text verbatim and `wait` one fixed note, nothing else |
| ActionExec.ActionExecutor.Dispatch | src/services/action-executor.ts:25-55 | the `switch` makes exactly the planned calls up to the first failure |
| ActionExec.ActionExecutor.Execute | src/services/action-executor.ts:10-73 | the table and the CRM call log end as the execute specification says |
| ActionExec.ActionExecutor.Reject | src/services/action-executor.ts:78-81 | the status becomes `rejected` whatever it was |
| ActionExec.ActionExecutor.LogDecision | src/services/action-executor.ts:86-99 | appends one decision row and touches nothing else |
| Store.WithStatus | src/services/action-executor.ts:58-59 | an `UPDATE … SET status` changes only the row with that id, if any |
| Store.WithMessageId | src/services/telegram.ts:97-98 | an `UPDATE … SET telegram_message_id` changes only the row with that id, if any |
| Store.Database.constructor | src/services/database.ts:63-100 | the tables start empty, ids from 1 |
| Store.Database.InsertAction | src/index.ts:183-194 | a fresh id, status `pending` (the column default) and no message id |
| Store.Database.SetStatus | src/services/action-executor.ts:68-69 | the status update as a table operation |
| Store.Database.SetMessageId | src/services/telegram.ts:97-98 | the message-id update as a table operation |
| Store.Database.AppendDecision | src/services/action-executor.ts:91-98 | one row appended to `decisions_log`, nothing else |
| Store.Database.AppendScore | src/index.ts:170-179 | one row appended to `lead_scores`, nothing else |
| Scoring.AssessedLevel | src/services/ai.ts:94-98 | CRITICAL > 75, HIGH > 50, MEDIUM > 25, else LOW, each as an iff |
| Scoring.AssessRisk | src/services/ai.ts:72-101 | score in [0, 80] with the level banded from it; for real-valued days, each of CRITICAL, HIGH, MEDIUM and LOW as an iff over the day band, the active-tasks flag and the engagement |
| Scoring.AssessRiskWithoutTasks | src/services/ai.ts:78-92 | without active tasks the score is 0/10/30/50 time points plus 0/15/30 engagement points, never clamped |
| Scoring.AssessRiskActiveTasks | src/services/ai.ts:85-92 | active tasks lower the score by exactly 20, down to 0 |
| Scoring.AssessRiskMonotone | src/services/ai.ts:78-92 | more days, fewer tasks or lower engagement never lower the score |
| Scoring.ScorePriority | src/services/ai.ts:111-119 | high gives HIGH, medium MEDIUM, low and unknown LOW, each as an iff |
| Scoring.RecommendAction | src/services/ai.ts:131-149 | only `create_task` carries parameters: the task text (the description when it is empty or missing) and the deadline |
| Scoring.DaysSinceContact | src/services/ai.ts:22-24 | 999 without `updated_at`, else the floor of the elapsed days |
| Scoring.Fallback | src/services/ai.ts:251-258 | one entry per lead, in order, with its id, score 0, `LOW`, no action |
| Scoring.AnalyzeBatch | src/services/ai.ts:193-260 | a failed request gives the fallback list, one per lead; otherwise the scorer's array as returned |
| Scoring.StripFences | src/services/ai.ts:236-241 | the result is trimmed and no longer than the reply; text not opening with a fence is only trimmed |
| Scoring.StripFencesUnwraps | src/services/ai.ts:236-241 | a trimmed body wrapped in a ```` ```json ```` or ```` ``` ```` block comes back unchanged |
| AmoCrm.LeadsByRiskLevel | src/services/amocrm.ts:159-167 | exactly the leads at least `minDays` days since update, in order; a lead without `updated_at` counts as 0 days |
| AmoCrm.VipLeads | src/services/amocrm.ts:172-175 | exactly the leads with budget ≥ 500000 |
| AmoCrm.ImportantLeads | src/services/amocrm.ts:180-186 | exactly the leads with 100000 ≤ budget < 500000 |
| AmoCrm.VipImportantPartition | src/services/amocrm.ts:172-186 | VIP and important are disjoint, and together they are the leads with budget ≥ 100000 |
| AmoCrm.SearchLeads | src/services/amocrm.ts:191-204 | a prefix of the in-order matches (case-insensitive name match or exact id) of length at most 10; all matches when fewer than 10, so the first ten otherwise |
| AmoCrm.FindStatusByNameIsFirst | src/services/amocrm.ts:217-235 | the first matching status in pipeline-then-status order, `None` iff no status matches |
| AmoCrm.OverdueTasks | src/services/amocrm.ts:258-269 | exactly the tasks whose deadline is before now |
| AmoCrm.TasksForToday | src/services/amocrm.ts:274-300 | exactly the tasks whose deadline or creation time lies in the day's bounds |
| Telegram.RiskEmoji | src/services/telegram.ts:54-59 | red iff score > 70, orange iff 40 < score ≤ 70, white otherwise (the MEDIUM entry is empty), never green |
| Telegram.DescribeIssue | src/services/telegram.ts:110-116 | the first-match ladder, each line as an iff over days, tasks and budget |
| Telegram.ExplainImpact | src/services/telegram.ts:121-126 | a budget above 500000 wins, with its rounded thousands; then more than 7 days, then more than 3, then the fallback |
| Telegram.RoundedThousands | src/services/telegram.ts:122 | the nearest whole number of thousands |
| Telegram.ImpactIgnoresStalenessForVip | src/services/telegram.ts:122 | with a budget above 500000 staleness does not matter |
| Telegram.CallbackData | src/services/telegram.ts:84-88 | the prefix followed by the decimal id |
| Telegram.MatchId | src/services/telegram.ts:690-691 | a match iff prefix plus one or more digits, and the parsed id is not negative |
| Telegram.ParseCallback | src/services/telegram.ts:690-726 | a matched handler's prefix begins the data and its id is not negative |
| Telegram.CallbackRoundTrip | src/services/telegram.ts:85-88 | the data of a button with a non-negative id reaches its own handler with that id |
| Telegram.NegativeIdUnreachable | src/services/telegram.ts:690-719 | data carrying a negative id reaches no handler |
| Telegram.ProposalDaysSince | src/services/telegram.ts:40-42 | 0 without `updated_at`, else the floor of the elapsed days |
| Telegram.ProposalFor | src/services/telegram.ts:37-88 | emoji from the stored score, issue and impact from days, tasks and budget, priority and reasoning with their fallbacks, and three buttons that parse back to execute, reject and details |
| Telegram.RiskReport | src/services/telegram.ts:238-272 | "none" iff no lead is 7+ days stale; otherwise the total, the first ≤ 10 in order, and the count of the rest |
| Telegram.Exchange | src/services/telegram.ts:361-613 | the user's message is kept even when generation fails; after a reply the history has 2 to 12 entries |
| Telegram.ExchangeKeepsLatest | src/services/telegram.ts:608-613 | after a reply the history is the tail of the old one, then the user message and the reply, cut only beyond 12 |
| Telegram.TelegramService.Converse | src/services/telegram.ts:356-622 | the chat's history becomes the exchange; a failed typing indicator leaves it unchanged |
| Telegram.TelegramService.SendActionProposal | src/services/telegram.ts:32-105 | nothing without a manager id; a failed send stores nothing; a sent proposal stores its message id on the action only |
| Telegram.TelegramService.OnExecute | src/services/telegram.ts:690-700 | execute, then `approved` is logged only on success |
| Telegram.TelegramService.OnReject | src/services/telegram.ts:703-709 | `rejected` whatever the status, then `rejected` logged |
| Telegram.TelegramService.OnSnooze | src/services/telegram.ts:719-726 | the status is overwritten with `snoozed`; nothing is logged |
| Telegram.TelegramService.HandleCallback | src/services/telegram.ts:688-726 | the matching handler runs: approve executes with the execute specification's table and CRM calls and logs `approved` only on success; reject sets `rejected` and logs it; snooze sets `snoozed` and logs nothing; details and unmatched data change nothing; no CRM call outside approve |
| RateLimiting.Recent | src/utils/rate-limiter.ts:29-31 | exactly the timestamps with now − t < window, in order |
| RateLimiting.RecentTwice | src/utils/rate-limiter.ts:52-62 | pruning earlier then later equals pruning later |
| RateLimiting.Admit | src/utils/rate-limiter.ts:24-47 | refused iff the recent count reaches the limit, with no change; else the recent list plus now, at most the limit, all within the window; other users untouched |
| RateLimiting.Cleaned | src/utils/rate-limiter.ts:52-62 | users with nothing recent removed, the others pruned |
| RateLimiting.CleanupInvisible | src/utils/rate-limiter.ts:41-44 | cleanup never changes a later admission decision or what it stores |
| RateLimiting.RateLimiter.constructor | src/utils/rate-limiter.ts:15-19 | empty log with the given limit and window |
| RateLimiting.RateLimiter.Cleanup | src/utils/rate-limiter.ts:52-62 | the in-place loop ends in the cleaned map and keeps every list within the limit |
| RateLimiting.RateLimiter.IsAllowed | src/utils/rate-limiter.ts:24-47 | the admission decision and its map, cleaned when the random cleanup fires |
| RateLimiting.RateLimiter.Middleware | src/utils/rate-limiter.ts:67-83 | no sender: nothing happens; else `next` iff admitted, with the admission's map |
| TelegramAuth.NewAuth | src/utils/telegram-auth.ts:9-23 | the allowed set is the manager id plus the comma pieces, without empty values |
| TelegramAuth.ListedIdsAuthorized | src/utils/telegram-auth.ts:11-16 | every id of a comma-joined list is authorized, and with no manager nothing else |
| TelegramAuth.PiecesNotTrimmed | src/utils/telegram-auth.ts:11 | `"1, 2"` admits `" 2"` but not `"2"` |
| TelegramAuth.Gate | src/utils/telegram-auth.ts:35-53 | `next` iff a sender id exists and its decimal text is in the set |

## Left out

- Network, SDK and Bot API calls are inputs, not modelled code. This
  covers amoCRM requests, `generateText` with its prompts and tools, and
  `bot.api.*`. The LangGraph runtime is replaced by the explicit
  transition function and loop in `LeadWorkflow.Process`.
- Staleness is float division of `Date.now()` in the source. The model
  uses integer seconds and compares `now − updated_at > k·86400`.
  Sub-second clock values are not modelled.
- Message wording is not modelled: Markdown text, `toLocaleString`,
  greetings and reports. The decisions that shape a message are.
- JSON parsing is not modelled. `action_data` and the scorer's reply
  arrive already parsed. A payload that does not parse, and array elements
  that are not objects, are explicit cases.
- The model states the fence stripping's effect on trimmed text. The
  string replacement is not a regular-expression engine.
- Lower-casing covers ASCII and the basic Cyrillic alphabet only. Unicode
  normalisation is not modelled.
- `parseInt` above 2^53 (float precision) and UTF-16 code-unit counting in
  `substring(0, 150)` are not modelled. Strings are sequences of
  characters.
- `assessRisk` takes `daysSinceContact` as any JSON number. The model
  uses real numbers, so fractions are covered, but `±Infinity` is not.
- Scorer results arrive typed: `action_needed` is a boolean, `risk_score`
  an integer and `reasoning` a string. JavaScript truthiness on other
  value types (a string `"false"` passing `result.action_needed`, a
  missing `reasoning` reaching `substring`) is not modelled.
- One clock value `now` serves a whole poll, where the source reads
  `Date.now()` at each use.
- The date arithmetic of `recommendAction` (today, tomorrow, +3 days) is
  not modelled. The deadline is the `dueAt` input.
- The `Math.random()` cleanup trigger is an input (`cleanupAt`).
- Local-day bounds of the today filter are parameters.
- Concurrency is not modelled: overlapping polls or simultaneous button
  presses. The model is one sequential process.
- `src/services/scheduler.ts`, `src/setup-auth.ts`, the DDL of
  `src/services/database.ts` beyond the tables used here, and the demo
  and test scripts are not part of this model.
- The AI service's DB-writing tools (`saveThought`, `updateMemory`),
  `analyzeLead` beyond its days-since-contact figure, and the
  conversational tools are not part of this model.
- Polling.Poller.RunWorkflows: a workflow run's CRM and Telegram effects are not
  recorded. Only its result state is returned, and a raised error becomes
  `None` for that lead, as the poll catches it per lead.
- LeadWorkflow.Process: the lead-by-id fetch and the tasks fetch are
  abstracted as the per-pass `PassReplies`, not read from a CRM model.
- Telegram.Exchange: its contract gives only the bounds. The exact
  contents after a reply are stated by `Telegram.ExchangeKeepsLatest`.
- Scoring.AnalyzeBatch: the prompt and the model's judgement are not
  modelled. Any returned array is passed through as the source does.
- Polling.HandleResult: the action payload holds only `lead_name`, as the
  source writes it. An approved `create_task` therefore creates a task
  without text, and its note reads `undefined`. `ActionExec.TaskNote`
  shows this through `Interpolated`.
