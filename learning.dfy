/** The learning summary: one read of the user, the user's plans with their
    tasks, the twelve most recent study sessions, the latest progress
    snapshot and the chat sessions, turned into the learner profile, the
    study metrics and the lists the dashboard shows. The clock is the
    parameter `now`; every timestamp is in milliseconds. */
module Learning {
  import opened Wrappers
  import opened Strings
  import opened Sorting
  import Users
  import Planning
  import Progress
  import Dialogue

  const WEEK_DURATION_MS: int := 7 * 24 * 60 * 60 * 1000
  /** How many of the most recent study sessions the summary reads. */
  const RECENT_SESSION_LIMIT: nat := 12
  const FOCUS_SEPARATOR: string := "、"
  const DEFAULT_RECENT_FOCUS: string := "持续学习"
  const DEFAULT_LEARNING_GOAL: string := "打造个性化学习节奏"
  const USER_MISSING: string := "User not found while building learning summary"

  datatype PlanWithTasks = PlanWithTasks(plan: Planning.Plan, tasks: seq<Planning.Task>)

  datatype LearningTaskDto = LearningTaskDto(
    id: nat, summary: string, status: string, dueDate: Option<string>, completedAt: Option<string>)

  datatype LearningPlanDto = LearningPlanDto(
    id: nat, sessionId: Option<nat>, title: string, focus: string, dueDate: Option<string>,
    status: string, targetSteps: int, completedSteps: int, tasks: seq<LearningTaskDto>)

  datatype StudySessionDto = StudySessionDto(id: nat, focus: string, minutes: int, date: int)

  datatype ChatSessionDto = ChatSessionDto(id: nat, title: string, focus: string, updatedAt: int)

  datatype LearnerProfile = LearnerProfile(name: string, learningGoal: string, recentFocus: string)

  datatype StudyMetrics = StudyMetrics(weeklyHours: real, totalCompletedSteps: int, streakDays: nat)

  datatype LearningSummary = LearningSummary(
    learnerProfile: LearnerProfile, learningPlans: seq<LearningPlanDto>,
    studySessions: seq<StudySessionDto>, metrics: StudyMetrics, chatSessions: seq<ChatSessionDto>)

  // ------------------------------------------------------------- queries

  /** The plans of a query result, in its order. */
  function Plans(r: seq<PlanWithTasks>): (ps: seq<Planning.Plan>)
    ensures |ps| == |r| && forall k :: 0 <= k < |r| ==> ps[k] == r[k].plan
  {
    seq(|r|, k requires 0 <= k < |r| => r[k].plan)
  }

  /** The user's plans, newest first, each with its tasks. */
  function PlanQuery(plans: seq<Planning.Plan>, tasks: seq<Planning.Task>, userId: nat)
    : (r: seq<PlanWithTasks>)
    ensures |r| == |Planning.UserPlans(plans, userId)|
    ensures forall k :: 0 <= k < |r| ==>
      r[k].plan in plans && r[k].plan.userId == userId &&
      r[k].tasks == Planning.PlanTasks(tasks, r[k].plan.id)
    ensures forall k :: 0 < k < |r| ==> r[k - 1].plan.createdAt >= r[k].plan.createdAt
    ensures multiset(Plans(r)) == multiset(Planning.UserPlans(plans, userId))
  {
    var own := SortDesc(Planning.UserPlans(plans, userId), Planning.CreatedAt);
    assert forall k :: 0 <= k < |own| ==> own[k] in Planning.UserPlans(plans, userId) by {
      assert forall k :: 0 <= k < |own| ==> own[k] in multiset(own);
    }
    var r := seq(|own|, k requires 0 <= k < |own| => PlanWithTasks(own[k], Planning.PlanTasks(tasks, own[k].id)));
    assert Plans(r) == own;
    r
  }

  /** The user's study sessions, most recent first, at most twelve. */
  function StudyQuery(sessions: seq<Progress.StudySession>, userId: nat): (r: seq<Progress.StudySession>)
    ensures var own := Progress.UserSessions(sessions, userId);
      |r| == (if RECENT_SESSION_LIMIT < |own| then RECENT_SESSION_LIMIT else |own|)
    ensures forall k :: 0 <= k < |r| ==> r[k].userId == userId && r[k] in sessions
    ensures multiset(r) <= multiset(sessions)
    ensures forall i, j :: 0 <= i < j < |r| ==> r[i].recordedAt >= r[j].recordedAt
    ensures forall s :: s in sessions && s.userId == userId && s !in r ==>
      forall k :: 0 <= k < |r| ==> r[k].recordedAt >= s.recordedAt
  {
    Progress.LatestSessions(sessions, userId, RECENT_SESSION_LIMIT)
  }

  /** The user's chat sessions, most recently updated first. */
  function ChatQuery(sessions: seq<Dialogue.Session>, userId: nat): (r: seq<Dialogue.Session>)
    ensures forall s :: s in r <==> s in sessions && s.userId == userId
    ensures SortedDesc(r, Dialogue.UpdatedAt)
    ensures multiset(r) == multiset(Dialogue.Owned(sessions, userId))
  {
    var r := SortDesc(Dialogue.Owned(sessions, userId), Dialogue.UpdatedAt);
    assert forall s :: s in r <==> s in multiset(r);
    r
  }

  // --------------------------------------------------------------- DTOs

  /** A task as the summary shows it; absent dates stay absent. */
  function TaskDto(task: Planning.Task): (r: LearningTaskDto)
    ensures r.id == task.id && r.summary == task.summary && r.status == task.status
    ensures r.dueDate == task.dueDate && r.completedAt == task.completedAt
  {
    LearningTaskDto(task.id, task.summary, task.status, task.dueDate, task.completedAt)
  }

  /** A plan as the summary shows it: its columns, and its tasks in order. */
  function PlanDto(p: PlanWithTasks): (r: LearningPlanDto)
    ensures r.id == p.plan.id && r.sessionId == p.plan.sessionId && r.focus == p.plan.focus
    ensures r.title == p.plan.title && r.status == p.plan.status && r.dueDate == p.plan.dueDate
    ensures r.targetSteps == p.plan.targetSteps && r.completedSteps == p.plan.completedSteps
    ensures |r.tasks| == |p.tasks|
    ensures forall k :: 0 <= k < |r.tasks| ==> r.tasks[k] == TaskDto(p.tasks[k])
  {
    LearningPlanDto(
      p.plan.id, p.plan.sessionId, p.plan.title, p.plan.focus, p.plan.dueDate, p.plan.status,
      p.plan.targetSteps, p.plan.completedSteps,
      seq(|p.tasks|, k requires 0 <= k < |p.tasks| => TaskDto(p.tasks[k])))
  }

  /** `toPlanDtos`: one DTO per plan, in the order given, each holding its
      tasks in the order given. */
  method ToPlanDtos(plans: seq<PlanWithTasks>) returns (result: seq<LearningPlanDto>)
    ensures |result| == |plans|
    ensures forall k :: 0 <= k < |plans| ==> result[k] == PlanDto(plans[k])
  {
    result := [];
    for i := 0 to |plans|
      invariant |result| == i
      invariant forall k :: 0 <= k < i ==> result[k] == PlanDto(plans[k])
    {
      var plan := plans[i].plan;
      var taskDtos: seq<LearningTaskDto> := [];
      for j := 0 to |plans[i].tasks|
        invariant |taskDtos| == j
        invariant forall k :: 0 <= k < j ==> taskDtos[k] == TaskDto(plans[i].tasks[k])
      {
        taskDtos := taskDtos + [TaskDto(plans[i].tasks[j])];
      }
      result := result + [LearningPlanDto(
        plan.id, plan.sessionId, plan.title, plan.focus, plan.dueDate, plan.status,
        plan.targetSteps, plan.completedSteps, taskDtos)];
    }
  }

  /** A study session as the summary shows it. */
  function StudySessionDtoOf(s: Progress.StudySession): (r: StudySessionDto)
    ensures r.id == s.id && r.focus == s.focus && r.minutes == s.minutes && r.date == s.recordedAt
  {
    StudySessionDto(s.id, s.focus, s.minutes, s.recordedAt)
  }

  /** `toStudySessions`: one DTO per record, in order. */
  method ToStudySessions(records: seq<Progress.StudySession>) returns (sessions: seq<StudySessionDto>)
    ensures |sessions| == |records|
    ensures forall k :: 0 <= k < |records| ==> sessions[k] == StudySessionDtoOf(records[k])
  {
    sessions := [];
    for i := 0 to |records|
      invariant |sessions| == i
      invariant forall k :: 0 <= k < i ==> sessions[k] == StudySessionDtoOf(records[k])
    {
      sessions := sessions + [StudySessionDto(records[i].id, records[i].focus, records[i].minutes, records[i].recordedAt)];
    }
  }

  /** A chat session as the summary shows it. */
  function ChatSessionDtoOf(s: Dialogue.Session): (r: ChatSessionDto)
    ensures r.id == s.id && r.title == s.title && r.focus == s.focus && r.updatedAt == s.updatedAt
  {
    ChatSessionDto(s.id, s.title, s.focus, s.updatedAt)
  }

  /** `toChatSessions`: one DTO per record, in order. */
  method ToChatSessions(records: seq<Dialogue.Session>) returns (sessions: seq<ChatSessionDto>)
    ensures |sessions| == |records|
    ensures forall k :: 0 <= k < |records| ==> sessions[k] == ChatSessionDtoOf(records[k])
  {
    sessions := [];
    for i := 0 to |records|
      invariant |sessions| == i
      invariant forall k :: 0 <= k < i ==> sessions[k] == ChatSessionDtoOf(records[k])
    {
      sessions := sessions + [ChatSessionDto(records[i].id, records[i].title, records[i].focus, records[i].updatedAt)];
    }
  }

  // ------------------------------------------------------ learner profile

  function Focuses(plans: seq<LearningPlanDto>): (r: seq<string>)
    ensures |r| == |plans|
    ensures forall k :: 0 <= k < |plans| ==> r[k] == plans[k].focus
  {
    seq(|plans|, k requires 0 <= k < |plans| => plans[k].focus)
  }

  /** The distinct values of `xs` in the order of their first appearance
      (what iterating a `Set` filled from `xs` yields). */
  function Distinct(xs: seq<string>): (r: seq<string>)
    ensures NoDuplicates(r)
    ensures forall x :: x in r <==> x in xs
    ensures |r| <= |xs|
  {
    if xs == [] then []
    else
      var d := Distinct(xs[..|xs| - 1]);
      var last := xs[|xs| - 1];
      assert xs == xs[..|xs| - 1] + [last];
      if last in d then d else d + [last]
  }

  /** First-appearance order: the distinct values of a prefix come first,
      in the same order, among the distinct values of the whole. */
  lemma {:induction false} DistinctPrefix(xs: seq<string>, n: nat)
    requires n <= |xs|
    ensures Distinct(xs[..n]) <= Distinct(xs)
    decreases |xs| - n
  {
    if n < |xs| {
      DistinctPrefix(xs, n + 1);
      assert xs[..n + 1][..n] == xs[..n];
    } else {
      assert xs[..n] == xs;
    }
  }

  /** The set-building loop of `toLearnerProfile`: the distinct plan
      focuses, in first-appearance order. */
  method CollectFocuses(plans: seq<LearningPlanDto>) returns (focusList: seq<string>)
    ensures focusList == Distinct(Focuses(plans))
  {
    focusList := [];
    ghost var focuses := Focuses(plans);
    for i := 0 to |plans|
      invariant focusList == Distinct(focuses[..i])
    {
      assert focuses[..i + 1][..i] == focuses[..i];
      if plans[i].focus !in focusList {
        focusList := focusList + [plans[i].focus];
      }
    }
    assert focuses[..|plans|] == focuses;
  }

  /** JavaScript's `s || fallback` on a string: the fallback when `s` is
      empty. */
  function OrElse(s: string, fallback: string): (r: string)
    ensures s != [] ==> r == s
    ensures s == [] ==> r == fallback
  {
    if s == "" then fallback else s
  }

  /** The profile built from the distinct focuses. */
  function Profile(name: string, focusList: seq<string>): (r: LearnerProfile)
    ensures r.name == name
    ensures focusList == [] ==> r.recentFocus == DEFAULT_RECENT_FOCUS && r.learningGoal == DEFAULT_LEARNING_GOAL
    ensures |focusList| == 1 && focusList[0] != [] ==>
      r.recentFocus == focusList[0] && r.learningGoal == focusList[0]
  {
    var recentFocus := OrElse(Join(Take(focusList, 2), FOCUS_SEPARATOR), DEFAULT_RECENT_FOCUS);
    var learningGoal := OrElse(Join(focusList, FOCUS_SEPARATOR), DEFAULT_LEARNING_GOAL);
    LearnerProfile(name, learningGoal, recentFocus)
  }

  /** The joined first two focuses begin the joined list of all of them. */
  lemma JoinTakePrefix(focusList: seq<string>)
    ensures Join(Take(focusList, 2), FOCUS_SEPARATOR) <= Join(focusList, FOCUS_SEPARATOR)
    ensures Join(Take(focusList, 2), FOCUS_SEPARATOR) == [] <==> Join(focusList, FOCUS_SEPARATOR) == []
  {
    if |focusList| > 2 {
      var rest := focusList[1..];
      assert Take(focusList, 2) == [focusList[0], focusList[1]];
      assert Join(Take(focusList, 2), FOCUS_SEPARATOR) == focusList[0] + FOCUS_SEPARATOR + Join([focusList[1]], FOCUS_SEPARATOR);
      assert rest[0] <= Join(rest, FOCUS_SEPARATOR);
      assert Join(focusList, FOCUS_SEPARATOR) == focusList[0] + FOCUS_SEPARATOR + Join(rest, FOCUS_SEPARATOR);
    } else {
      assert Take(focusList, 2) == focusList;
    }
  }

  /** The recent focus uses its fallback exactly when the learning goal
      uses its own, and otherwise the recent focus begins the goal. */
  lemma RecentFocusBeginsGoal(name: string, focusList: seq<string>)
    ensures var p := Profile(name, focusList);
      (Join(focusList, FOCUS_SEPARATOR) == [] ==>
        p.recentFocus == DEFAULT_RECENT_FOCUS && p.learningGoal == DEFAULT_LEARNING_GOAL) &&
      (Join(focusList, FOCUS_SEPARATOR) != [] ==> p.recentFocus <= p.learningGoal)
  {
    JoinTakePrefix(focusList);
  }

  /** `toLearnerProfile`. */
  method ToLearnerProfile(name: string, plans: seq<LearningPlanDto>) returns (profile: LearnerProfile)
    ensures profile == Profile(name, Distinct(Focuses(plans)))
  {
    var focusList := CollectFocuses(plans);
    var recentFocus := OrElse(Join(Take(focusList, 2), FOCUS_SEPARATOR), DEFAULT_RECENT_FOCUS);
    var learningGoal := OrElse(Join(focusList, FOCUS_SEPARATOR), DEFAULT_LEARNING_GOAL);
    profile := LearnerProfile(name, learningGoal, recentFocus);
  }

  // -------------------------------------------------------------- metrics

  function SumCompleted(plans: seq<LearningPlanDto>): int {
    if plans == [] then 0 else SumCompleted(plans[..|plans| - 1]) + plans[|plans| - 1].completedSteps
  }

  function SumTarget(plans: seq<LearningPlanDto>): int {
    if plans == [] then 0 else SumTarget(plans[..|plans| - 1]) + plans[|plans| - 1].targetSteps
  }

  /** `countTotalCompletedSteps`: the sum of the plans' completed steps. */
  method CountTotalCompletedSteps(plans: seq<LearningPlanDto>) returns (total: int)
    ensures total == SumCompleted(plans)
  {
    total := 0;
    for i := 0 to |plans|
      invariant total == SumCompleted(plans[..i])
    {
      assert plans[..i + 1][..i] == plans[..i];
      total := total + plans[i].completedSteps;
    }
    assert plans[..|plans|] == plans;
  }

  /** When every plan keeps its completed steps between zero and its
      target, so does the total. */
  lemma {:induction false} TotalWithinTargets(plans: seq<LearningPlanDto>)
    requires forall k :: 0 <= k < |plans| ==> 0 <= plans[k].completedSteps <= plans[k].targetSteps
    ensures 0 <= SumCompleted(plans) <= SumTarget(plans)
  {
    if plans != [] {
      TotalWithinTargets(plans[..|plans| - 1]);
    }
  }

  /** A plan store that keeps its counters consistent yields a summary whose
      total of completed steps is within the total of target steps. */
  lemma StoreTotalWithinTargets(plans: seq<Planning.Plan>, tasks: seq<Planning.Task>, n: nat,
                                userId: nat, dtos: seq<LearningPlanDto>)
    requires Planning.Consistent(plans, tasks, n)
    requires |dtos| == |PlanQuery(plans, tasks, userId)|
    requires forall k :: 0 <= k < |dtos| ==> dtos[k] == PlanDto(PlanQuery(plans, tasks, userId)[k])
    ensures 0 <= SumCompleted(dtos) <= SumTarget(dtos)
  {
    forall p | p in plans
      ensures 0 <= p.completedSteps <= p.targetSteps
    {
      var i :| 0 <= i < |plans| && plans[i] == p;
      Planning.CountedWithinTarget(plans[i], tasks);
    }
    TotalWithinTargets(dtos);
  }

  /** The sessions counted as this week's: at most a week old, so a session
      dated in the future counts too. */
  predicate InWeek(s: StudySessionDto, now: int) {
    now - s.date <= WEEK_DURATION_MS
  }

  function WeeklyMinutes(sessions: seq<StudySessionDto>, now: int): int {
    if sessions == [] then 0
    else
      var last := sessions[|sessions| - 1];
      WeeklyMinutes(sessions[..|sessions| - 1], now) + (if InWeek(last, now) then last.minutes else 0)
  }

  /** `Math.round(x)`: the nearest integer, halves rounded up. */
  function Round(x: real): (r: int)
    ensures x - 0.5 < r as real <= x + 0.5
  {
    (x + 0.5).Floor
  }

  /** Minutes as hours rounded to one decimal place. */
  function HoursToTenths(minutes: int): (r: real)
    ensures (r * 10.0).Floor as real == r * 10.0
  {
    Round(minutes as real / 60.0 * 10.0) as real / 10.0
  }

  /** The rounded hours are within a twentieth of an hour of the exact
      hours, and whole hours are exact. */
  lemma HoursToTenthsClose(minutes: int)
    ensures minutes as real / 60.0 - 0.05 < HoursToTenths(minutes) <= minutes as real / 60.0 + 0.05
    ensures minutes % 60 == 0 ==> HoursToTenths(minutes) == (minutes / 60) as real
  {
    var x := minutes as real / 60.0 * 10.0;
    var n := Round(x);
    assert x - 0.5 < n as real <= x + 0.5;
    if minutes % 60 == 0 {
      var h := minutes / 60;
      assert minutes == 60 * h;
      assert x == (10 * h) as real;
      assert n == 10 * h;
    }
  }

  /** `calculateWeeklyHours`: the minutes of the sessions at most a week
      old, in hours rounded to one decimal place. */
  method CalculateWeeklyHours(sessions: seq<StudySessionDto>, now: int) returns (hours: real)
    ensures hours == HoursToTenths(WeeklyMinutes(sessions, now))
  {
    var minutes := 0;
    for i := 0 to |sessions|
      invariant minutes == WeeklyMinutes(sessions[..i], now)
    {
      assert sessions[..i + 1][..i] == sessions[..i];
      if now - sessions[i].date <= WEEK_DURATION_MS {
        minutes := minutes + sessions[i].minutes;
      }
    }
    assert sessions[..|sessions|] == sessions;
    hours := Round(minutes as real / 60.0 * 10.0) as real / 10.0;
  }

  /** Sessions older than a week add nothing. */
  lemma {:induction false} OldSessionsIgnored(sessions: seq<StudySessionDto>, old_: StudySessionDto, now: int)
    requires !InWeek(old_, now)
    ensures WeeklyMinutes(sessions + [old_], now) == WeeklyMinutes(sessions, now)
  {
    assert (sessions + [old_])[..|sessions|] == sessions;
  }

  /** `snapshot?.streakDays ?? 0`. */
  function StreakOf(snapshot: Option<Progress.Snapshot>): (r: nat)
    ensures snapshot.None? ==> r == 0
    ensures snapshot.Some? ==> r == snapshot.value.streakDays
  {
    if snapshot.None? then 0 else snapshot.value.streakDays
  }

  /** `toStudyMetrics`. */
  method ToStudyMetrics(snapshot: Option<Progress.Snapshot>, plans: seq<LearningPlanDto>,
                        studySessions: seq<StudySessionDto>, now: int) returns (metrics: StudyMetrics)
    ensures metrics.totalCompletedSteps == SumCompleted(plans)
    ensures metrics.streakDays == StreakOf(snapshot)
    ensures metrics.weeklyHours == HoursToTenths(WeeklyMinutes(studySessions, now))
  {
    var totalCompletedSteps := CountTotalCompletedSteps(plans);
    var streakDays := if snapshot.Some? then snapshot.value.streakDays else 0;
    var weeklyHours := CalculateWeeklyHours(studySessions, now);
    metrics := StudyMetrics(weeklyHours, totalCompletedSteps, streakDays);
  }

  // -------------------------------------------------------------- summary

  /** `getSummary`: a missing user is an error; otherwise the profile is
      named after the user, the plans are the user's, newest first, the
      study sessions are the user's twelve most recent, the streak is the
      latest snapshot's, and the chat sessions are the user's, most
      recently updated first. */
  method GetSummary(userId: nat, users: seq<Users.UserRecord>, plans: seq<Planning.Plan>,
                    tasks: seq<Planning.Task>, studyRecords: seq<Progress.StudySession>,
                    snapshots: seq<Progress.Snapshot>, sessions: seq<Dialogue.Session>, now: int)
    returns (r: Result<LearningSummary, string>)
    ensures Users.IndexOfId(users, userId).None? <==> r.Err?
    ensures r.Err? ==> r.error == USER_MISSING
    ensures r.Ok? ==> SummaryOf(r.value, userId, users, plans, tasks, studyRecords, snapshots, sessions, now)
  {
    var planRecords := PlanQuery(plans, tasks, userId);
    var recent := StudyQuery(studyRecords, userId);
    var progress := Progress.LatestSnapshot(snapshots, userId);
    var sessionRecords := ChatQuery(sessions, userId);
    var index := Users.IndexOfId(users, userId);
    if index.None? {
      return Err(USER_MISSING);
    }
    var userRecord := users[index.value];
    var learningPlans := ToPlanDtos(planRecords);
    var studySessions := ToStudySessions(recent);
    var metrics := ToStudyMetrics(progress, learningPlans, studySessions, now);
    var chatSessions := ToChatSessions(sessionRecords);
    var learnerProfile := ToLearnerProfile(userRecord.displayName, learningPlans);
    r := Ok(LearningSummary(learnerProfile, learningPlans, studySessions, metrics, chatSessions));
  }

  /** What a summary for `userId` holds, field by field. */
  ghost predicate SummaryOf(s: LearningSummary, userId: nat, users: seq<Users.UserRecord>,
                            plans: seq<Planning.Plan>, tasks: seq<Planning.Task>,
                            studyRecords: seq<Progress.StudySession>, snapshots: seq<Progress.Snapshot>,
                            sessions: seq<Dialogue.Session>, now: int)
  {
    Users.IndexOfId(users, userId).Some? &&
    s.learnerProfile.name == users[Users.IndexOfId(users, userId).value].displayName &&
    s.learnerProfile == Profile(s.learnerProfile.name, Distinct(Focuses(s.learningPlans))) &&
    PlansShown(s.learningPlans, PlanQuery(plans, tasks, userId)) &&
    SessionsShown(s.studySessions, StudyQuery(studyRecords, userId)) &&
    s.metrics.streakDays == StreakOf(Progress.LatestSnapshot(snapshots, userId)) &&
    s.metrics.totalCompletedSteps == SumCompleted(s.learningPlans) &&
    s.metrics.weeklyHours == HoursToTenths(WeeklyMinutes(s.studySessions, now)) &&
    ChatsShown(s.chatSessions, ChatQuery(sessions, userId))
  }

  ghost predicate PlansShown(dtos: seq<LearningPlanDto>, query: seq<PlanWithTasks>) {
    |dtos| == |query| && forall k :: 0 <= k < |dtos| ==> dtos[k] == PlanDto(query[k])
  }

  ghost predicate SessionsShown(dtos: seq<StudySessionDto>, query: seq<Progress.StudySession>) {
    |dtos| == |query| && forall k :: 0 <= k < |dtos| ==> dtos[k] == StudySessionDtoOf(query[k])
  }

  ghost predicate ChatsShown(dtos: seq<ChatSessionDto>, query: seq<Dialogue.Session>) {
    |dtos| == |query| && forall k :: 0 <= k < |dtos| ==> dtos[k] == ChatSessionDtoOf(query[k])
  }
}
