/** Study plans and their tasks (`apps/server/src/planning/planning.service.ts`)
    over an in-memory store: plan generation from a chat session, the step
    counters kept by task changes, and the response mapping. Plan and task
    tables are sequences in insertion (`createdAt`) order, ids come from a
    counter, dates are kept as the strings the client sent, and the AI
    reply and the JSON parser are inputs. */
module Planning {
  import opened Wrappers
  import opened Strings
  import opened AiTypes
  import opened Sorting
  import Dialogue

  const PLAN_NOT_FOUND: string := "学习计划不存在"
  const TASK_NOT_FOUND: string := "任务不存在"
  const DONE: string := "done"
  /** Column defaults of new rows; the values are those of the client's
      status types. */
  const DEFAULT_PLAN_STATUS: string := "active"
  const DEFAULT_TASK_STATUS: string := "pending"

  const PLAN_MODEL: string := "gpt-4o-mini"
  const FALLBACK_TITLE_SUFFIX: string := "学习计划"
  const FALLBACK_TASKS: seq<string> := ["回顾对话内容，整理学习要点", "深入研究关键知识点", "实践应用所学知识"]
  const PROMPT_HEAD: string := "你是一个专业的学习规划助手。请根据以下对话内容，生成一个结构化的学习计划。\n\n对话内容：\n"
  const PROMPT_TAIL: string := "\n\n请以JSON格式返回学习计划，包含以下字段：\n{\n  \"title\": \"学习计划标题\",\n  \"focus\": \"学习重点领域\",\n  \"tasks\": [\n    {\n      \"summary\": \"任务描述\",\n      \"dueDate\": \"可选的截止日期(ISO 8601格式)\"\n    }\n  ]\n}\n\n要求：\n1. 标题应简洁明了，概括学习主题\n2. 重点领域应总结核心知识点\n3. 任务列表应按学习顺序排列，每个任务应具体可执行\n4. 如果对话中提到时间要求，设置合理的截止日期\n5. 任务数量建议3-8个，确保可行性"

  /** A task as the AI or the client proposes it; the AI's JSON may leave
      the summary out. */
  datatype TaskDraft = TaskDraft(summary: Option<string>, dueDate: Option<string>)

  /** The plan the AI reply is parsed into. */
  datatype PlanData = PlanData(title: string, focus: string, tasks: seq<TaskDraft>)

  datatype Task = Task(id: nat, planId: nat, summary: string, status: string, dueDate: Option<string>, completedAt: Option<string>)

  datatype Plan = Plan(
    id: nat, userId: nat, title: string, focus: string, status: string,
    targetSteps: int, completedSteps: int, dueDate: Option<string>, sessionId: Option<nat>,
    createdAt: int, updatedAt: int)

  datatype TaskResponse = TaskResponse(id: nat, summary: string, status: string, dueDate: Option<string>, completedAt: Option<string>)

  datatype PlanResponse = PlanResponse(
    id: nat, title: string, focus: string, status: string,
    targetSteps: int, completedSteps: int, dueDate: Option<string>, sessionId: Option<nat>,
    createdAt: int, updatedAt: int, tasks: seq<TaskResponse>)

  /** The optional fields of `updatePlan`; absent fields stay as they are. */
  datatype PlanChanges = PlanChanges(title: Option<string>, focus: Option<string>, dueDate: Option<string>, status: Option<string>)

  /** The optional fields of `updateTask`; absent fields stay as they are. */
  datatype TaskChanges = TaskChanges(summary: Option<string>, status: Option<string>, dueDate: Option<string>, completedAt: Option<string>)

  /** What `JSON.parse` makes of the JSON span of the reply: a syntax
      error, a value without a task list, or the plan data. */
  datatype ParsedReply = SyntaxError | WithoutTaskList | Parsed(data: PlanData)

  /** `NotFoundException`, the error the provider threw, the `TypeError` of
      reading the length of a missing task list, or the database refusing
      a task row. */
  datatype Failure =
    | NotFound(message: string)
    | ProviderFailed(message: string)
    | TaskListMissing
    | TaskRowsRejected

  // ---------------------------------------------------------- generation

  function RoleName(role: Role): string {
    match role
    case System => "system"
    case User => "user"
    case Assistant => "assistant"
  }

  /** One "role: content" line per message, in order. */
  function ConversationLines(messages: seq<Dialogue.ChatMessage>): (r: seq<string>)
    ensures |r| == |messages|
    ensures forall k :: 0 <= k < |r| ==> r[k] == RoleName(messages[k].role) + ": " + messages[k].content
  {
    if messages == [] then []
    else [RoleName(messages[0].role) + ": " + messages[0].content] + ConversationLines(messages[1..])
  }

  /** The planning prompt around the conversation summary. */
  function PlanPrompt(messages: seq<Dialogue.ChatMessage>): (r: string)
    ensures PROMPT_HEAD <= r && EndsWith(r, PROMPT_TAIL)
  {
    var r := PROMPT_HEAD + Join(ConversationLines(messages), "\n") + PROMPT_TAIL;
    assert r[|r| - |PROMPT_TAIL|..] == PROMPT_TAIL;
    r
  }

  /** The request `generatePlanFromSession` sends: the prompt as the only,
      system, message and the fixed model. */
  function PlanRequest(messages: seq<Dialogue.ChatMessage>): (r: CompletionOptions)
    ensures r.messages == [Message(System, PlanPrompt(messages))]
    ensures r.model == Some(PLAN_MODEL) && r.tools.None?
  {
    CompletionOptions([Message(System, PlanPrompt(messages))], Some(PLAN_MODEL), None, None, None)
  }

  /** The index of the last `c` in `s`. */
  function LastIndexOfChar(s: string, c: char): (r: Option<nat>)
    ensures r.Some? ==> r.value < |s| && s[r.value] == c && forall k :: r.value < k < |s| ==> s[k] != c
    ensures r.None? ==> forall k :: 0 <= k < |s| ==> s[k] != c
  {
    if s == [] then None
    else if s[|s| - 1] == c then Some(|s| - 1)
    else LastIndexOfChar(s[..|s| - 1], c)
  }

  /** The match of `/\{[\s\S]*\}/`: from the first "{" to the last "}"
      after it. */
  function JsonSpan(s: string): (r: Option<string>)
    ensures r.Some? <==> exists i, j :: 0 <= i < j < |s| && s[i] == '{' && s[j] == '}'
    ensures r.Some? ==> exists i, j :: (0 <= i < j < |s| && r.value == s[i..j + 1]
      && s[i] == '{' && s[j] == '}'
      && (forall k :: 0 <= k < i ==> s[k] != '{')
      && (forall k :: j < k < |s| ==> s[k] != '}'))
  {
    match FindChar(s, '{')
    case None => None
    case Some(i) =>
      match LastIndexOfChar(s, '}')
      case None => None
      case Some(j) => if i < j then Some(s[i..j + 1]) else None
  }

  /** The plan used when the reply holds no parsable JSON. */
  function FallbackPlan(focus: string, taskSuggestions: Option<seq<TaskDraft>>): (r: PlanData)
    ensures r.title == focus + FALLBACK_TITLE_SUFFIX && r.focus == focus
    ensures taskSuggestions.Some? ==> r.tasks == taskSuggestions.value
    ensures taskSuggestions.None? ==> |r.tasks| == 3 && forall k :: 0 <= k < 3 ==> r.tasks[k] == TaskDraft(Some(FALLBACK_TASKS[k]), None)
  {
    var defaults := [TaskDraft(Some(FALLBACK_TASKS[0]), None), TaskDraft(Some(FALLBACK_TASKS[1]), None),
                     TaskDraft(Some(FALLBACK_TASKS[2]), None)];
    PlanData(focus + FALLBACK_TITLE_SUFFIX, focus, taskSuggestions.GetOr(defaults))
  }

  /** The plan data taken from the AI reply: the parsed JSON span, or the
      fallback when there is no span or it is not JSON. A span that parses
      to a value without a task list gets past the `try` and throws when
      its length is read: that is `None`. */
  function PlanDataFor(content: string, parse: string -> ParsedReply, focus: string,
                       taskSuggestions: Option<seq<TaskDraft>>): (r: Option<PlanData>)
    ensures r.None? <==> JsonSpan(content).Some? && parse(JsonSpan(content).value).WithoutTaskList?
    ensures JsonSpan(content).None? ==> r == Some(FallbackPlan(focus, taskSuggestions))
    ensures JsonSpan(content).Some? && parse(JsonSpan(content).value).SyntaxError? ==>
      r == Some(FallbackPlan(focus, taskSuggestions))
    ensures JsonSpan(content).Some? && parse(JsonSpan(content).value).Parsed? ==>
      r == Some(parse(JsonSpan(content).value).data)
  {
    match JsonSpan(content)
    case None => Some(FallbackPlan(focus, taskSuggestions))
    case Some(span) =>
      match parse(span)
      case SyntaxError => Some(FallbackPlan(focus, taskSuggestions))
      case WithoutTaskList => None
      case Parsed(data) => Some(data)
  }

  /** Whether the database takes the row of `draft`: it needs a summary,
      and a date, when one is given, that `new Date` reads as valid. */
  predicate Writable(draft: TaskDraft, validDate: string -> bool) {
    draft.summary.Some? && (!Truthy(draft.dueDate) || validDate(draft.dueDate.value))
  }

  predicate AllWritable(drafts: seq<TaskDraft>, validDate: string -> bool) {
    forall k :: 0 <= k < |drafts| ==> Writable(drafts[k], validDate)
  }

  predicate HasSummaries(drafts: seq<TaskDraft>) {
    forall k :: 0 <= k < |drafts| ==> drafts[k].summary.Some?
  }

  /** `dto.x ? new Date(dto.x) : undefined`: an empty string counts as absent. */
  function DateField(value: Option<string>): (r: Option<string>)
    ensures r.Some? <==> Truthy(value)
    ensures r.Some? ==> r == value
  {
    if Truthy(value) then value else None
  }

  /** The rows `createManyAndReturn` inserts: one per draft, in order,
      with consecutive ids. */
  function NewTasks(drafts: seq<TaskDraft>, planId: nat, firstId: nat): (r: seq<Task>)
    requires HasSummaries(drafts)
    ensures |r| == |drafts|
    ensures forall k :: 0 <= k < |r| ==>
      r[k] == Task(firstId + k, planId, drafts[k].summary.value, DEFAULT_TASK_STATUS, DateField(drafts[k].dueDate), None)
  {
    if drafts == [] then []
    else
      var first := Task(firstId, planId, drafts[0].summary.value, DEFAULT_TASK_STATUS, DateField(drafts[0].dueDate), None);
      [first] + NewTasks(drafts[1..], planId, firstId + 1)
  }

  // ------------------------------------------------------------ counters

  /** The number of tasks of plan `planId`. */
  function TaskCount(tasks: seq<Task>, planId: nat): (r: nat)
    ensures r <= |tasks|
  {
    if tasks == [] then 0
    else TaskCount(tasks[..|tasks| - 1], planId) + (if tasks[|tasks| - 1].planId == planId then 1 else 0)
  }

  /** The number of done tasks of plan `planId`. */
  function DoneCount(tasks: seq<Task>, planId: nat): (r: nat)
    ensures r <= TaskCount(tasks, planId)
  {
    if tasks == [] then 0
    else DoneCount(tasks[..|tasks| - 1], planId) + (if tasks[|tasks| - 1].planId == planId && tasks[|tasks| - 1].status == DONE then 1 else 0)
  }

  /** The tasks of plan `planId`, in stored order. */
  function PlanTasks(tasks: seq<Task>, planId: nat): (r: seq<Task>)
    ensures |r| == TaskCount(tasks, planId)
    ensures forall t :: t in r <==> t in tasks && t.planId == planId
  {
    if tasks == [] then []
    else
      var last := tasks[|tasks| - 1];
      PlanTasks(tasks[..|tasks| - 1], planId) + (if last.planId == planId then [last] else [])
  }

  // ------------------------------------------------------------ responses

  function ToTaskResponse(t: Task): TaskResponse {
    TaskResponse(t.id, t.summary, t.status, t.dueDate, t.completedAt)
  }

  function TaskResponses(tasks: seq<Task>): (r: seq<TaskResponse>)
    ensures |r| == |tasks|
    ensures forall k :: 0 <= k < |r| ==> r[k] == ToTaskResponse(tasks[k])
  {
    seq(|tasks|, k requires 0 <= k < |tasks| => ToTaskResponse(tasks[k]))
  }

  /** `toPlanResponse`: the plan's fields and its tasks, in order. Stored
      nulls are already `None`, which is how `undefined` is written here. */
  function ToPlanResponse(plan: Plan, tasks: seq<Task>): (r: PlanResponse)
    ensures r.id == plan.id && r.title == plan.title && r.focus == plan.focus && r.status == plan.status
    ensures r.targetSteps == plan.targetSteps && r.completedSteps == plan.completedSteps
    ensures r.dueDate == plan.dueDate && r.sessionId == plan.sessionId
    ensures r.createdAt == plan.createdAt && r.updatedAt == plan.updatedAt
    ensures r.tasks == TaskResponses(PlanTasks(tasks, plan.id))
    ensures |r.tasks| == TaskCount(tasks, plan.id)
  {
    PlanResponse(
      plan.id, plan.title, plan.focus, plan.status, plan.targetSteps, plan.completedSteps,
      plan.dueDate, plan.sessionId, plan.createdAt, plan.updatedAt,
      TaskResponses(PlanTasks(tasks, plan.id)))
  }

  // ----------------------------------------------------------- counters

  function DoneValue(status: string): nat {
    if status == DONE then 1 else 0
  }

  /** The plan's step counters agree with its tasks: `targetSteps` counts
      them and `completedSteps` counts the done ones. */
  predicate Counted(plan: Plan, tasks: seq<Task>) {
    plan.targetSteps == TaskCount(tasks, plan.id) && plan.completedSteps == DoneCount(tasks, plan.id)
  }

  lemma CountedWithinTarget(plan: Plan, tasks: seq<Task>)
    requires Counted(plan, tasks)
    ensures 0 <= plan.completedSteps <= plan.targetSteps <= |tasks|
  {
  }

  lemma {:induction false} CountsAppend(a: seq<Task>, b: seq<Task>, q: nat)
    ensures TaskCount(a + b, q) == TaskCount(a, q) + TaskCount(b, q)
    ensures DoneCount(a + b, q) == DoneCount(a, q) + DoneCount(b, q)
    ensures PlanTasks(a + b, q) == PlanTasks(a, q) + PlanTasks(b, q)
    decreases |b|
  {
    if b == [] {
      assert a + b == a;
    } else {
      var init := b[..|b| - 1];
      var last := b[|b| - 1];
      assert (a + b)[..|a + b| - 1] == a + init;
      assert (a + b)[|a + b| - 1] == last;
      CountsAppend(a, init, q);
      var extra := if last.planId == q then [last] else [];
      assert PlanTasks(a + b, q) == PlanTasks(a, q) + PlanTasks(init, q) + extra;
    }
  }

  /** Tasks that all belong to `planId` and none of which is done. */
  lemma {:induction false} CountsOfPending(b: seq<Task>, planId: nat, q: nat)
    requires forall k :: 0 <= k < |b| ==> b[k].planId == planId && b[k].status != DONE
    ensures TaskCount(b, q) == (if q == planId then |b| else 0)
    ensures DoneCount(b, q) == 0
    ensures q == planId ==> PlanTasks(b, q) == b
    decreases |b|
  {
    if b != [] {
      var init := b[..|b| - 1];
      CountsOfPending(init, planId, q);
      assert b == init + [b[|b| - 1]];
    }
  }

  lemma {:induction false} CountAbsent(tasks: seq<Task>, q: nat)
    requires forall k :: 0 <= k < |tasks| ==> tasks[k].planId != q
    ensures TaskCount(tasks, q) == 0
  {
    if tasks != [] {
      CountAbsent(tasks[..|tasks| - 1], q);
    }
  }

  /** Replacing a task by one of the same plan moves that plan's done
      count by the change of that task's own status, and nothing else. */
  lemma {:induction false} CountsUpdate(tasks: seq<Task>, j: nat, t: Task, q: nat)
    requires j < |tasks| && t.planId == tasks[j].planId
    ensures TaskCount(tasks[j := t], q) == TaskCount(tasks, q)
    ensures DoneCount(tasks[j := t], q) ==
      DoneCount(tasks, q) + (if q == t.planId then DoneValue(t.status) - DoneValue(tasks[j].status) else 0)
    decreases |tasks|
  {
    var n := |tasks|;
    var u := tasks[j := t];
    if j == n - 1 {
      assert u[..n - 1] == tasks[..n - 1];
    } else {
      assert u[..n - 1] == tasks[..n - 1][j := t];
      CountsUpdate(tasks[..n - 1], j, t, q);
    }
  }

  /** The tasks left when plan `planId` is deleted with its tasks. */
  function WithoutPlan(tasks: seq<Task>, planId: nat): (r: seq<Task>)
    ensures |r| <= |tasks|
    ensures forall k :: 0 <= k < |r| ==> r[k].planId != planId
  {
    if tasks == [] then []
    else
      var last := tasks[|tasks| - 1];
      WithoutPlan(tasks[..|tasks| - 1], planId) + (if last.planId == planId then [] else [last])
  }

  /** The delete removes exactly the plan's tasks. */
  lemma {:induction false} WithoutPlanMembers(tasks: seq<Task>, planId: nat)
    ensures forall t :: t in WithoutPlan(tasks, planId) <==> t in tasks && t.planId != planId
    decreases |tasks|
  {
    if tasks != [] {
      var init := tasks[..|tasks| - 1];
      WithoutPlanMembers(init, planId);
      assert tasks == init + [tasks[|tasks| - 1]];
    }
  }

  /** The remaining tasks keep their stored order. */
  lemma {:induction false} WithoutPlanAppend(a: seq<Task>, b: seq<Task>, planId: nat)
    ensures WithoutPlan(a + b, planId) == WithoutPlan(a, planId) + WithoutPlan(b, planId)
    decreases |b|
  {
    if b == [] {
      assert a + b == a;
    } else {
      var init := b[..|b| - 1];
      assert (a + b)[..|a + b| - 1] == a + init;
      assert (a + b)[|a + b| - 1] == b[|b| - 1];
      WithoutPlanAppend(a, init, planId);
    }
  }

  lemma {:induction false} WithoutPlanCounts(tasks: seq<Task>, planId: nat, q: nat)
    ensures TaskCount(WithoutPlan(tasks, planId), q) == if q == planId then 0 else TaskCount(tasks, q)
    ensures DoneCount(WithoutPlan(tasks, planId), q) == if q == planId then 0 else DoneCount(tasks, q)
  {
    if q == planId {
      CountAbsent(WithoutPlan(tasks, planId), q);
    } else if tasks != [] {
      var init := tasks[..|tasks| - 1];
      var last := tasks[|tasks| - 1];
      WithoutPlanCounts(init, planId, q);
      var kept := WithoutPlan(init, planId);
      if last.planId == planId {
        assert WithoutPlan(tasks, planId) == kept;
      } else {
        assert WithoutPlan(tasks, planId) == kept + [last];
        assert (kept + [last])[..|kept|] == kept;
      }
    }
  }

  /** Every task id and plan reference is below `n`. */
  predicate TasksBelow(tasks: seq<Task>, n: nat) {
    forall k :: 0 <= k < |tasks| ==> tasks[k].id < n && tasks[k].planId < n
  }

  lemma {:induction false} WithoutPlanBelow(tasks: seq<Task>, planId: nat, n: nat)
    requires TasksBelow(tasks, n)
    ensures TasksBelow(WithoutPlan(tasks, planId), n)
  {
    if tasks != [] {
      WithoutPlanBelow(tasks[..|tasks| - 1], planId, n);
    }
  }

  // ------------------------------------------------------------- updates

  /** The change `updateTask` applies to `completedSteps`, AS WRITTEN: it
      treats an omitted status as "not done", although the stored status
      then stays what it was. */
  function CompletedStepsChangeAsWritten(oldStatus: string, newStatus: Option<string>): (r: int)
    ensures -1 <= r <= 1
  {
    var wasCompleted := oldStatus == DONE;
    var nowCompleted := newStatus == Some(DONE);
    if !wasCompleted && nowCompleted then 1
    else if wasCompleted && !nowCompleted then -1
    else 0
  }

  /** The change to `completedSteps`, comparing the stored status with the
      status after the update. */
  function CompletedStepsChange(oldStatus: string, newStatus: Option<string>): (r: int)
    ensures -1 <= r <= 1
    ensures newStatus.None? ==> r == 0
    ensures newStatus.Some? ==> r == CompletedStepsChangeAsWritten(oldStatus, newStatus)
  {
    var wasCompleted := oldStatus == DONE;
    var nowCompleted := newStatus.GetOr(oldStatus) == DONE;
    if !wasCompleted && nowCompleted then 1
    else if wasCompleted && !nowCompleted then -1
    else 0
  }

  /** `task.update`: absent fields stay, and an empty date is absent too. */
  function UpdatedTask(t: Task, changes: TaskChanges): (r: Task)
    ensures r.id == t.id && r.planId == t.planId
    ensures r.status == changes.status.GetOr(t.status)
  {
    Task(t.id, t.planId, changes.summary.GetOr(t.summary), changes.status.GetOr(t.status),
         if Truthy(changes.dueDate) then changes.dueDate else t.dueDate,
         if Truthy(changes.completedAt) then changes.completedAt else t.completedAt)
  }

  /** `plan.update` in `updatePlan`: absent fields stay, the counters are
      not touched. */
  function UpdatedPlan(plan: Plan, changes: PlanChanges, now: int): (r: Plan)
    ensures r.id == plan.id && r.userId == plan.userId && r.sessionId == plan.sessionId
    ensures r.targetSteps == plan.targetSteps && r.completedSteps == plan.completedSteps
  {
    plan.(title := changes.title.GetOr(plan.title), focus := changes.focus.GetOr(plan.focus),
          status := changes.status.GetOr(plan.status),
          dueDate := if Truthy(changes.dueDate) then changes.dueDate else plan.dueDate,
          updatedAt := now)
  }

  /** With the corrected change, the done count of that task's plan moves
      by exactly the change `updateTask` applies to `completedSteps`. */
  lemma CompletedStepsChangeKeepsCount(tasks: seq<Task>, j: nat, changes: TaskChanges)
    requires j < |tasks|
    ensures DoneCount(tasks[j := UpdatedTask(tasks[j], changes)], tasks[j].planId) ==
      DoneCount(tasks, tasks[j].planId) + CompletedStepsChange(tasks[j].status, changes.status)
  {
    CountsUpdate(tasks, j, UpdatedTask(tasks[j], changes), tasks[j].planId);
  }

  /** The change as written loses a step when a done task is edited
      without sending its status: it stays done, the count drops. */
  lemma CompletedStepsChangeAsWrittenMiscounts()
    ensures var t := Task(0, 0, "review", DONE, None, None);
      var changes := TaskChanges(Some("review again"), None, None, None);
      UpdatedTask(t, changes).status == DONE
      && CompletedStepsChangeAsWritten(t.status, changes.status) == -1
      && DoneCount([t][0 := UpdatedTask(t, changes)], 0) == DoneCount([t], 0)
  {
    var t := Task(0, 0, "review", DONE, None, None);
    var changes := TaskChanges(Some("review again"), None, None, None);
    assert [t][..0] == [];
    assert [t][0 := UpdatedTask(t, changes)][..0] == [];
  }

  // ------------------------------------------------------------- lookups

  /** The plan `id` of user `userId`. */
  function PlanIndex(plans: seq<Plan>, id: nat, userId: nat): (r: Option<nat>)
    ensures r.Some? ==> r.value < |plans| && plans[r.value].id == id && plans[r.value].userId == userId
    ensures r.None? ==> forall k :: 0 <= k < |plans| ==> plans[k].id != id || plans[k].userId != userId
  {
    if plans == [] then None
    else if plans[0].id == id && plans[0].userId == userId then Some(0)
    else match PlanIndex(plans[1..], id, userId)
      case None => None
      case Some(k) => Some(k + 1)
  }

  /** The first task `taskId` of plan `planId`. */
  function TaskIndex(tasks: seq<Task>, planId: nat, taskId: nat): (r: Option<nat>)
    ensures r.Some? ==> r.value < |tasks| && tasks[r.value].id == taskId && tasks[r.value].planId == planId
    ensures r.Some? ==> forall k :: 0 <= k < r.value ==> tasks[k].id != taskId || tasks[k].planId != planId
    ensures r.None? ==> forall k :: 0 <= k < |tasks| ==> tasks[k].id != taskId || tasks[k].planId != planId
  {
    if tasks == [] then None
    else if tasks[0].id == taskId && tasks[0].planId == planId then Some(0)
    else match TaskIndex(tasks[1..], planId, taskId)
      case None => None
      case Some(k) => Some(k + 1)
  }

  /** The plans of user `userId`, in stored order. */
  function UserPlans(plans: seq<Plan>, userId: nat): (r: seq<Plan>)
    ensures forall p :: p in r <==> p in plans && p.userId == userId
  {
    if plans == [] then []
    else
      var rest := UserPlans(plans[1..], userId);
      if plans[0].userId == userId then [plans[0]] + rest else rest
  }

  function CreatedAt(plan: Plan): real {
    plan.createdAt as real
  }

  function PlanResponses(plans: seq<Plan>, tasks: seq<Task>): (r: seq<PlanResponse>)
    ensures |r| == |plans|
    ensures forall k :: 0 <= k < |r| ==> r[k] == ToPlanResponse(plans[k], tasks)
  {
    seq(|plans|, k requires 0 <= k < |plans| => ToPlanResponse(plans[k], tasks))
  }

  /** `listPlans`: the user's plans, newest first, each with its tasks. */
  function PlanList(plans: seq<Plan>, tasks: seq<Task>, userId: nat): (r: seq<PlanResponse>)
    ensures |r| == |UserPlans(plans, userId)|
    ensures forall i, j :: 0 <= i < j < |r| ==> r[i].createdAt >= r[j].createdAt
    ensures forall k :: 0 <= k < |r| ==> exists p :: p in plans && p.userId == userId && r[k] == ToPlanResponse(p, tasks)
    ensures forall p :: p in plans && p.userId == userId ==> ToPlanResponse(p, tasks) in r
  {
    var own := UserPlans(plans, userId);
    var sorted := SortDesc(own, CreatedAt);
    ListedPlans(own, sorted);
    SortedResponses(sorted, plans, tasks, userId);
    PlanResponses(sorted, tasks)
  }

  /** The responses to the user's plans sorted newest first. */
  lemma SortedResponses(sorted: seq<Plan>, plans: seq<Plan>, tasks: seq<Task>, userId: nat)
    requires forall p :: p in sorted <==> p in plans && p.userId == userId
    requires SortedDesc(sorted, CreatedAt)
    ensures forall i, j :: 0 <= i < j < |sorted| ==>
      PlanResponses(sorted, tasks)[i].createdAt >= PlanResponses(sorted, tasks)[j].createdAt
    ensures forall k :: 0 <= k < |sorted| ==>
      sorted[k] in plans && sorted[k].userId == userId && PlanResponses(sorted, tasks)[k] == ToPlanResponse(sorted[k], tasks)
    ensures forall p :: p in plans && p.userId == userId ==> ToPlanResponse(p, tasks) in PlanResponses(sorted, tasks)
  {
    var r := PlanResponses(sorted, tasks);
    forall i, j | 0 <= i < j < |r| ensures r[i].createdAt >= r[j].createdAt {
      assert CreatedAt(sorted[i]) >= CreatedAt(sorted[j]);
    }
    forall p | p in plans && p.userId == userId ensures ToPlanResponse(p, tasks) in r {
      var k :| 0 <= k < |sorted| && sorted[k] == p;
      assert r[k] == ToPlanResponse(p, tasks);
    }
  }

  /** A permutation of the user's plans holds exactly the user's plans. */
  lemma ListedPlans(own: seq<Plan>, sorted: seq<Plan>)
    requires multiset(sorted) == multiset(own)
    ensures forall p :: p in sorted <==> p in own
  {
    forall p ensures p in sorted <==> p in own {
      assert p in sorted <==> p in multiset(sorted);
      assert p in own <==> p in multiset(own);
    }
  }

  /** The store's invariant: ids come from the counter `n`, plan ids are
      distinct, and every plan's counters agree with its tasks. */
  predicate Consistent(plans: seq<Plan>, tasks: seq<Task>, n: nat) {
    (forall i :: 0 <= i < |plans| ==> plans[i].id < n && Counted(plans[i], tasks))
    && (forall i, j :: 0 <= i < j < |plans| ==> plans[i].id != plans[j].id)
    && TasksBelow(tasks, n)
  }

  /** The plan data `generatePlanFromSession` works from, once the session
      was found and the provider answered. */
  function SessionPlanData(sessions: seq<Dialogue.Session>, sessionId: nat, userId: nat, content: string,
                           parse: string -> ParsedReply, taskSuggestions: Option<seq<TaskDraft>>): Option<PlanData>
    requires Dialogue.SessionIndex(sessions, sessionId, userId).Some?
  {
    PlanDataFor(content, parse, sessions[Dialogue.SessionIndex(sessions, sessionId, userId).value].focus, taskSuggestions)
  }

  /** The outcome of `generatePlanFromSession` once the provider answered:
      the missing task list throws, a refused task row fails, and
      otherwise a plan is returned. */
  predicate GenerationOutcome(r: Result<PlanResponse, Failure>, data: Option<PlanData>, validDate: string -> bool) {
    (data.None? ==> r == Err(TaskListMissing))
    && (data.Some? && !AllWritable(data.value.tasks, validDate) ==> r == Err(TaskRowsRejected))
    && (data.Some? && AllWritable(data.value.tasks, validDate) ==> r.Ok?)
  }

  /** The plan `generatePlanFromSession` stores for `data`. */
  function GeneratedPlan(id: nat, userId: nat, sessionId: nat, data: PlanData, now: int): Plan {
    Plan(id, userId, data.title, data.focus, DEFAULT_PLAN_STATUS, |data.tasks|, 0, None, Some(sessionId), now, now)
  }

  /** Storing a generated plan with its drafted tasks under the ids that
      follow it. */
  lemma ConsistentAfterGenerate(plans: seq<Plan>, tasks: seq<Task>, n: nat, userId: nat, sessionId: nat,
                                data: PlanData, now: int)
    requires Consistent(plans, tasks, n) && HasSummaries(data.tasks)
    ensures Consistent(plans + [GeneratedPlan(n, userId, sessionId, data, now)],
                       tasks + NewTasks(data.tasks, n, n + 1), n + 1 + |data.tasks|)
    ensures PlanTasks(tasks + NewTasks(data.tasks, n, n + 1), n) == NewTasks(data.tasks, n, n + 1)
  {
    var plan := GeneratedPlan(n, userId, sessionId, data, now);
    var created := NewTasks(data.tasks, n, n + 1);
    NewTasksPending(data.tasks, n, n + 1);
    assert forall k :: 0 <= k < |created| ==>
      created[k].planId == n && created[k].status != DONE && created[k].id < n + 1 + |data.tasks|;
    ConsistentAfterInsert(plans, tasks, n, plan, created, n + 1 + |data.tasks|);
    assert Consistent(plans + [plan], tasks + created, n + 1 + |data.tasks|);
  }

  /** Storing a generated plan without its tasks, as `generatePlanFromSession`
      leaves the store when its task rows are refused after the plan row
      was written: the plan's target counts tasks that are not there. */
  lemma PlanWithoutTasksUncounted(plans: seq<Plan>, tasks: seq<Task>, n: nat, userId: nat, sessionId: nat,
                                  data: PlanData, now: int)
    requires Consistent(plans, tasks, n) && data.tasks != []
    ensures !Counted(GeneratedPlan(n, userId, sessionId, data, now), tasks)
    ensures !Consistent(plans + [GeneratedPlan(n, userId, sessionId, data, now)], tasks, n + 1)
  {
    CountAbsent(tasks, n);
    var all := plans + [GeneratedPlan(n, userId, sessionId, data, now)];
    assert all[|plans|] == GeneratedPlan(n, userId, sessionId, data, now);
  }

  lemma ConsistentAfterCreate(plans: seq<Plan>, tasks: seq<Task>, n: nat, plan: Plan)
    requires Consistent(plans, tasks, n)
    requires plan.id == n && plan.targetSteps == 0 && plan.completedSteps == 0
    ensures Consistent(plans + [plan], tasks, n + 1)
    ensures PlanTasks(tasks, n) == []
  {
    CountAbsent(tasks, n);
  }

  /** Storing a new plan together with its pending tasks. */
  lemma ConsistentAfterInsert(plans: seq<Plan>, tasks: seq<Task>, n: nat, plan: Plan, created: seq<Task>, m: nat)
    requires Consistent(plans, tasks, n)
    requires plan.id == n < m && plan.targetSteps == |created| && plan.completedSteps == 0
    requires forall k :: 0 <= k < |created| ==> created[k].planId == n && created[k].status != DONE && created[k].id < m
    ensures Consistent(plans + [plan], tasks + created, m)
    ensures PlanTasks(tasks + created, n) == created
  {
    var all := plans + [plan];
    AllCountedAfterInsert(plans, tasks, n, plan, created);
    TasksBelowAfterInsert(tasks, n, created, m);
    IdsAfterInsert(plans, n, plan, m);
    CountsAppend(tasks, created, n);
    CountsOfPending(created, n, n);
    CountAbsent(tasks, n);
  }

  lemma AllCountedAfterInsert(plans: seq<Plan>, tasks: seq<Task>, n: nat, plan: Plan, created: seq<Task>)
    requires Consistent(plans, tasks, n)
    requires plan.id == n && plan.targetSteps == |created| && plan.completedSteps == 0
    requires forall k :: 0 <= k < |created| ==> created[k].planId == n && created[k].status != DONE
    ensures forall i :: 0 <= i < |plans + [plan]| ==> Counted((plans + [plan])[i], tasks + created)
  {
    var all := plans + [plan];
    forall i | 0 <= i < |all| ensures Counted(all[i], tasks + created) {
      InsertCounted(tasks, created, n, all[i], i == |plans|);
    }
  }

  lemma TasksBelowAfterInsert(tasks: seq<Task>, n: nat, created: seq<Task>, m: nat)
    requires TasksBelow(tasks, n) && n < m
    requires forall k :: 0 <= k < |created| ==> created[k].id < m && created[k].planId < m
    ensures TasksBelow(tasks + created, m)
  {
    assert forall k :: 0 <= k < |tasks + created| ==> (tasks + created)[k] == if k < |tasks| then tasks[k] else created[k - |tasks|];
  }

  lemma IdsAfterInsert(plans: seq<Plan>, n: nat, plan: Plan, m: nat)
    requires forall i :: 0 <= i < |plans| ==> plans[i].id < n
    requires forall i, j :: 0 <= i < j < |plans| ==> plans[i].id != plans[j].id
    requires plan.id == n < m
    ensures forall i :: 0 <= i < |plans + [plan]| ==> (plans + [plan])[i].id < m
    ensures forall i, j :: 0 <= i < j < |plans + [plan]| ==> (plans + [plan])[i].id != (plans + [plan])[j].id
  {
    var all := plans + [plan];
    assert forall i :: 0 <= i < |plans| ==> all[i] == plans[i];
    forall i, j | 0 <= i < j < |all| ensures all[i].id != all[j].id {
      if j == |plans| {
        assert all[i].id < n;
      }
    }
  }

  lemma InsertCounted(tasks: seq<Task>, created: seq<Task>, n: nat, plan: Plan, isNew: bool)
    requires TasksBelow(tasks, n)
    requires forall k :: 0 <= k < |created| ==> created[k].planId == n && created[k].status != DONE
    requires isNew ==> plan.id == n && plan.targetSteps == |created| && plan.completedSteps == 0
    requires !isNew ==> plan.id != n && Counted(plan, tasks)
    ensures Counted(plan, tasks + created)
  {
    CountsAppend(tasks, created, plan.id);
    CountsOfPending(created, n, plan.id);
    if isNew {
      CountAbsent(tasks, n);
    }
  }

  lemma NewTasksPending(drafts: seq<TaskDraft>, planId: nat, firstId: nat)
    requires HasSummaries(drafts)
    ensures var created := NewTasks(drafts, planId, firstId);
      forall k :: 0 <= k < |created| ==> created[k].planId == planId && created[k].status != DONE && created[k].id < firstId + |drafts|
  {
  }

  /** The plan once a task is added to it: one more step to do. */
  function GrownPlan(plan: Plan, now: int): Plan {
    plan.(targetSteps := plan.targetSteps + 1, updatedAt := now)
  }

  lemma ConsistentAfterAdd(plans: seq<Plan>, tasks: seq<Task>, n: nat, i: nat, task: Task, now: int)
    requires Consistent(plans, tasks, n) && i < |plans|
    requires task.id == n && task.planId == plans[i].id && task.status != DONE
    ensures Consistent(plans[i := GrownPlan(plans[i], now)], tasks + [task], n + 1)
  {
    var all := plans[i := GrownPlan(plans[i], now)];
    forall k | 0 <= k < |all| ensures Counted(all[k], tasks + [task]) {
      CountsAppend(tasks, [task], all[k].id);
      CountsOfPending([task], task.planId, all[k].id);
    }
  }

  /** The plan once its completed count moves by `change`; it is left
      alone, `updatedAt` included, when the count does not move. */
  function SteppedPlan(plan: Plan, change: int, now: int): Plan {
    if change == 0 then plan else plan.(completedSteps := plan.completedSteps + change, updatedAt := now)
  }

  lemma ConsistentAfterTaskUpdate(plans: seq<Plan>, tasks: seq<Task>, n: nat, i: nat, j: nat, changes: TaskChanges, now: int)
    requires Consistent(plans, tasks, n) && i < |plans| && j < |tasks| && tasks[j].planId == plans[i].id
    ensures var change := CompletedStepsChange(tasks[j].status, changes.status);
      Consistent(plans[i := SteppedPlan(plans[i], change, now)], tasks[j := UpdatedTask(tasks[j], changes)], n)
  {
    var updated := UpdatedTask(tasks[j], changes);
    var change := CompletedStepsChange(tasks[j].status, changes.status);
    var plan := SteppedPlan(plans[i], change, now);
    var all := plans[i := plan];
    forall k | 0 <= k < |all| ensures Counted(all[k], tasks[j := updated]) {
      CountsUpdate(tasks, j, updated, all[k].id);
    }
  }

  lemma ConsistentAfterDelete(plans: seq<Plan>, tasks: seq<Task>, n: nat, i: nat)
    requires Consistent(plans, tasks, n) && i < |plans|
    ensures Consistent(plans[..i] + plans[i + 1..], WithoutPlan(tasks, plans[i].id), n)
  {
    var id := plans[i].id;
    var remaining := plans[..i] + plans[i + 1..];
    assert forall k :: 0 <= k < |remaining| ==> remaining[k] == (if k < i then plans[k] else plans[k + 1]);
    forall k | 0 <= k < |remaining| ensures Counted(remaining[k], WithoutPlan(tasks, id)) {
      WithoutPlanCounts(tasks, id, remaining[k].id);
    }
    WithoutPlanBelow(tasks, id, n);
  }

  class PlanningService {
    var plans: seq<Plan>
    var tasks: seq<Task>
    var nextId: nat

    ghost predicate Valid()
      reads this
    {
      Consistent(plans, tasks, nextId)
    }

    constructor()
      ensures Valid() && plans == [] && tasks == [] && nextId == 0
    {
      plans := [];
      tasks := [];
      nextId := 0;
    }

    /** No plan has completed more steps than it has. */
    lemma StepsWithinTarget()
      requires Valid()
      ensures forall i :: 0 <= i < |plans| ==> 0 <= plans[i].completedSteps <= plans[i].targetSteps
    {
      forall i | 0 <= i < |plans| ensures 0 <= plans[i].completedSteps <= plans[i].targetSteps {
        CountedWithinTarget(plans[i], tasks);
      }
    }

    /** `listPlans`: the user's plans, newest first, each with its tasks. */
    function ListPlans(userId: nat): (r: seq<PlanResponse>)
      reads this
      ensures r == PlanList(plans, tasks, userId)
      ensures |r| == |UserPlans(plans, userId)|
      ensures forall i, j :: 0 <= i < j < |r| ==> r[i].createdAt >= r[j].createdAt
      ensures forall p :: p in plans && p.userId == userId ==> ToPlanResponse(p, tasks) in r
    {
      PlanList(plans, tasks, userId)
    }

    /** `createPlan`: a new plan with no tasks and zero counters. */
    method CreatePlan(userId: nat, title: string, focus: string, sessionId: Option<nat>, dueDate: Option<string>, now: int)
      returns (r: PlanResponse)
      requires Valid()
      modifies this
      ensures Valid()
      ensures var plan := Plan(old(nextId), userId, title, focus, DEFAULT_PLAN_STATUS, 0, 0, DateField(dueDate), sessionId, now, now);
        plans == old(plans) + [plan] && r == ToPlanResponse(plan, tasks)
      ensures r.tasks == []
      ensures tasks == old(tasks) && nextId == old(nextId) + 1
    {
      var plan := Plan(nextId, userId, title, focus, DEFAULT_PLAN_STATUS, 0, 0, DateField(dueDate), sessionId, now, now);
      ConsistentAfterCreate(plans, tasks, nextId, plan);
      plans := plans + [plan];
      nextId := nextId + 1;
      r := ToPlanResponse(plan, tasks);
    }

    /** `generatePlanFromSession`: looks the session up among the user's
        sessions, asks the provider with the planning prompt, and stores
        the plan it answers with, or the fallback plan. The plan and its
        tasks are stored together or not at all. */
    method GeneratePlanFromSession(userId: nat, sessionId: nat, taskSuggestions: Option<seq<TaskDraft>>,
                                   sessions: seq<Dialogue.Session>, messages: seq<Dialogue.ChatMessage>,
                                   reply: Result<CompletionResult, string>, parse: string -> ParsedReply,
                                   validDate: string -> bool, now: int)
      returns (request: Option<CompletionOptions>, r: Result<PlanResponse, Failure>)
      requires Valid()
      modifies this
      ensures Valid()
      ensures Dialogue.SessionIndex(sessions, sessionId, userId).None? ==>
        request.None? && r == Err(NotFound(Dialogue.NOT_FOUND))
      ensures Dialogue.SessionIndex(sessions, sessionId, userId).Some? ==>
        request == Some(PlanRequest(Dialogue.SessionMessages(messages, sessionId)))
      ensures Dialogue.SessionIndex(sessions, sessionId, userId).Some? && reply.Err? ==>
        r == Err(ProviderFailed(reply.error))
      ensures Dialogue.SessionIndex(sessions, sessionId, userId).Some? && reply.Ok? ==>
        GenerationOutcome(r, SessionPlanData(sessions, sessionId, userId, reply.value.content, parse, taskSuggestions),
                          validDate)
      ensures r.Err? ==> plans == old(plans) && tasks == old(tasks) && nextId == old(nextId)
      ensures r.Ok? ==>
        var data := SessionPlanData(sessions, sessionId, userId, reply.value.content, parse, taskSuggestions).value;
        plans == old(plans) + [GeneratedPlan(old(nextId), userId, sessionId, data, now)]
        && tasks == old(tasks) + NewTasks(data.tasks, old(nextId), old(nextId) + 1)
        && nextId == old(nextId) + 1 + |data.tasks|
        && r.value == ToPlanResponse(GeneratedPlan(old(nextId), userId, sessionId, data, now), tasks)
        && r.value.tasks == TaskResponses(NewTasks(data.tasks, old(nextId), old(nextId) + 1))
    {
      var found := Dialogue.SessionIndex(sessions, sessionId, userId);
      if found.None? {
        return None, Err(NotFound(Dialogue.NOT_FOUND));
      }
      var focus := sessions[found.value].focus;
      request := Some(PlanRequest(Dialogue.SessionMessages(messages, sessionId)));
      if reply.Err? {
        return request, Err(ProviderFailed(reply.error));
      }
      var data := PlanDataFor(reply.value.content, parse, focus, taskSuggestions);
      assert data == SessionPlanData(sessions, sessionId, userId, reply.value.content, parse, taskSuggestions);
      if data.None? {
        return request, Err(TaskListMissing);
      }
      // The rows are checked before anything is written, so that a refused
      // task row leaves no plan behind (see `StoreGeneratedAsWritten`).
      if !AllWritable(data.value.tasks, validDate) {
        return request, Err(TaskRowsRejected);
      }
      var response := StoreGenerated(userId, sessionId, data.value, now);
      r := Ok(response);
    }

    /** Stores a generated plan and its tasks, with consecutive ids. */
    method StoreGenerated(userId: nat, sessionId: nat, data: PlanData, now: int) returns (r: PlanResponse)
      requires Valid() && HasSummaries(data.tasks)
      modifies this
      ensures Valid()
      ensures plans == old(plans) + [GeneratedPlan(old(nextId), userId, sessionId, data, now)]
      ensures tasks == old(tasks) + NewTasks(data.tasks, old(nextId), old(nextId) + 1)
      ensures nextId == old(nextId) + 1 + |data.tasks|
      ensures r == ToPlanResponse(GeneratedPlan(old(nextId), userId, sessionId, data, now), tasks)
      ensures r.tasks == TaskResponses(NewTasks(data.tasks, old(nextId), old(nextId) + 1))
    {
      var id := nextId;
      var plan := GeneratedPlan(id, userId, sessionId, data, now);
      var created := NewTasks(data.tasks, id, id + 1);
      ConsistentAfterGenerate(plans, tasks, id, userId, sessionId, data, now);
      plans := plans + [plan];
      tasks := tasks + created;
      nextId := id + 1 + |created|;
      r := ToPlanResponse(plan, tasks);
    }

    /** Steps 5 and 6 of `generatePlanFromSession` AS WRITTEN: the plan row
        is created first and its task rows after it, outside any
        transaction, so a refused task row leaves the plan stored without
        its tasks and the store no longer `Valid`. */
    method StoreGeneratedAsWritten(userId: nat, sessionId: nat, data: PlanData, validDate: string -> bool, now: int)
      returns (r: Result<PlanResponse, Failure>)
      requires Valid()
      modifies this
      ensures r.Ok? <==> AllWritable(data.tasks, validDate)
      ensures r.Ok? ==> Valid()
      ensures r.Err? ==>
        r.error == TaskRowsRejected
        && plans == old(plans) + [GeneratedPlan(old(nextId), userId, sessionId, data, now)]
        && tasks == old(tasks) && nextId == old(nextId) + 1
        && !Valid()
      ensures r.Ok? ==>
        HasSummaries(data.tasks)
        && plans == old(plans) + [GeneratedPlan(old(nextId), userId, sessionId, data, now)]
        && tasks == old(tasks) + NewTasks(data.tasks, old(nextId), old(nextId) + 1)
        && nextId == old(nextId) + 1 + |data.tasks|
    {
      var id := nextId;
      var plan := GeneratedPlan(id, userId, sessionId, data, now);
      plans := plans + [plan];
      nextId := id + 1;
      if !AllWritable(data.tasks, validDate) {
        assert data.tasks != [];
        PlanWithoutTasksUncounted(old(plans), tasks, id, userId, sessionId, data, now);
        assert !Valid();
        return Err(TaskRowsRejected);
      }
      assert HasSummaries(data.tasks);
      ConsistentAfterGenerate(old(plans), tasks, id, userId, sessionId, data, now);
      var created := NewTasks(data.tasks, id, id + 1);
      tasks := tasks + created;
      nextId := id + 1 + |created|;
      assert Valid();
      r := Ok(ToPlanResponse(plan, tasks));
    }

    /** `updatePlan`: the given fields of the user's plan change. */
    method UpdatePlan(userId: nat, planId: nat, changes: PlanChanges, now: int) returns (r: Result<PlanResponse, Failure>)
      requires Valid()
      modifies this
      ensures Valid()
      ensures tasks == old(tasks) && nextId == old(nextId)
      ensures PlanIndex(old(plans), planId, userId).None? ==>
        r == Err(NotFound(PLAN_NOT_FOUND)) && plans == old(plans)
      ensures PlanIndex(old(plans), planId, userId).Some? ==>
        var i := PlanIndex(old(plans), planId, userId).value;
        plans == old(plans)[i := UpdatedPlan(old(plans)[i], changes, now)]
        && r == Ok(ToPlanResponse(plans[i], tasks))
    {
      var found := PlanIndex(plans, planId, userId);
      if found.None? {
        return Err(NotFound(PLAN_NOT_FOUND));
      }
      var i := found.value;
      plans := plans[i := UpdatedPlan(plans[i], changes, now)];
      r := Ok(ToPlanResponse(plans[i], tasks));
    }

    /** `addTask`: a pending task is appended to the user's plan and its
        target grows by one. */
    method AddTask(userId: nat, planId: nat, summary: string, dueDate: Option<string>, now: int)
      returns (r: Result<PlanResponse, Failure>)
      requires Valid()
      modifies this
      ensures Valid()
      ensures PlanIndex(old(plans), planId, userId).None? ==>
        r == Err(NotFound(PLAN_NOT_FOUND)) && plans == old(plans) && tasks == old(tasks) && nextId == old(nextId)
      ensures PlanIndex(old(plans), planId, userId).Some? ==>
        var i := PlanIndex(old(plans), planId, userId).value;
        tasks == old(tasks) + [Task(old(nextId), planId, summary, DEFAULT_TASK_STATUS, DateField(dueDate), None)]
        && plans == old(plans)[i := GrownPlan(old(plans)[i], now)] && nextId == old(nextId) + 1
        && r == Ok(ToPlanResponse(plans[i], tasks))
    {
      var found := PlanIndex(plans, planId, userId);
      if found.None? {
        return Err(NotFound(PLAN_NOT_FOUND));
      }
      var i := found.value;
      var task := Task(nextId, planId, summary, DEFAULT_TASK_STATUS, DateField(dueDate), None);
      ConsistentAfterAdd(plans, tasks, nextId, i, task, now);
      var plan := GrownPlan(plans[i], now);
      tasks := tasks + [task];
      nextId := nextId + 1;
      plans := plans[i := plan];
      r := Ok(ToPlanResponse(plan, tasks));
    }

    /** `updateTask` with the corrected step change: a task of the
        user's plan takes the given fields, and `completedSteps` follows
        its status. */
    method UpdateTask(userId: nat, planId: nat, taskId: nat, changes: TaskChanges, now: int)
      returns (r: Result<PlanResponse, Failure>)
      requires Valid()
      modifies this
      ensures Valid()
      ensures nextId == old(nextId)
      ensures PlanIndex(old(plans), planId, userId).None? ==>
        r == Err(NotFound(PLAN_NOT_FOUND)) && plans == old(plans) && tasks == old(tasks)
      ensures PlanIndex(old(plans), planId, userId).Some? && TaskIndex(old(tasks), planId, taskId).None? ==>
        r == Err(NotFound(TASK_NOT_FOUND)) && plans == old(plans) && tasks == old(tasks)
      ensures PlanIndex(old(plans), planId, userId).Some? && TaskIndex(old(tasks), planId, taskId).Some? ==>
        var i := PlanIndex(old(plans), planId, userId).value;
        var j := TaskIndex(old(tasks), planId, taskId).value;
        var plan := SteppedPlan(old(plans)[i], CompletedStepsChange(old(tasks)[j].status, changes.status), now);
        tasks == old(tasks)[j := UpdatedTask(old(tasks)[j], changes)] && plans == old(plans)[i := plan]
        && r == Ok(ToPlanResponse(plan, tasks))
    {
      var found := PlanIndex(plans, planId, userId);
      if found.None? {
        return Err(NotFound(PLAN_NOT_FOUND));
      }
      var i := found.value;
      var taskFound := TaskIndex(tasks, planId, taskId);
      if taskFound.None? {
        return Err(NotFound(TASK_NOT_FOUND));
      }
      var j := taskFound.value;
      var change := CompletedStepsChange(tasks[j].status, changes.status);
      ConsistentAfterTaskUpdate(plans, tasks, nextId, i, j, changes, now);
      var plan := plans[i];
      if change != 0 {
        plan := plan.(completedSteps := plan.completedSteps + change, updatedAt := now);
      }
      assert plan == SteppedPlan(plans[i], change, now);
      tasks := tasks[j := UpdatedTask(tasks[j], changes)];
      plans := plans[i := plan];
      r := Ok(ToPlanResponse(plan, tasks));
    }

    /** `deletePlan`: the user's plan goes, and its tasks with it. */
    method DeletePlan(userId: nat, planId: nat) returns (r: Result<(), Failure>)
      requires Valid()
      modifies this
      ensures Valid()
      ensures nextId == old(nextId)
      ensures PlanIndex(old(plans), planId, userId).None? ==>
        r == Err(NotFound(PLAN_NOT_FOUND)) && plans == old(plans) && tasks == old(tasks)
      ensures PlanIndex(old(plans), planId, userId).Some? ==>
        var i := PlanIndex(old(plans), planId, userId).value;
        r == Ok(()) && plans == old(plans)[..i] + old(plans)[i + 1..] && tasks == WithoutPlan(old(tasks), planId)
      ensures r.Ok? ==> forall k :: 0 <= k < |plans| ==> plans[k].id != planId
      ensures r.Ok? ==> TaskCount(tasks, planId) == 0
    {
      var found := PlanIndex(plans, planId, userId);
      if found.None? {
        return Err(NotFound(PLAN_NOT_FOUND));
      }
      var i := found.value;
      ConsistentAfterDelete(plans, tasks, nextId, i);
      WithoutPlanCounts(tasks, planId, planId);
      plans := plans[..i] + plans[i + 1..];
      tasks := WithoutPlan(tasks, planId);
      r := Ok(());
    }
  }
}
