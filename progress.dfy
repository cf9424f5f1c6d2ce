/** Study-time tracking (`apps/server/src/progress/progress.service.ts`):
    study sessions and progress snapshots over an in-memory store, with the
    statistics, the streak and the daily trend computed from them. Times
    are milliseconds since the epoch; a calendar date is its UTC day
    number, which orders and compares as the "YYYY-MM-DD" keys do. */
module Progress {
  import opened Wrappers
  import opened Sorting
  import Planning

  const MS_PER_DAY: int := 24 * 60 * 60 * 1000
  const DAYS_IN_WEEK: int := 7
  const DAYS_IN_MONTH: int := 30
  const DEFAULT_SESSION_LIMIT: nat := 20
  const DEFAULT_TREND_DAYS: nat := 30

  datatype StudySession = StudySession(
    id: nat, userId: nat, sessionId: Option<nat>, focus: string, minutes: int, recordedAt: int, createdAt: int)

  datatype Snapshot = Snapshot(id: nat, userId: nat, streakDays: nat, completedTasks: nat, studyMinutes: int, capturedAt: int)

  datatype Stats = Stats(
    streakDays: nat, totalCompletedTasks: nat, weeklyStudyMinutes: int, monthlyStudyMinutes: int,
    totalStudyMinutes: int, activeDays: nat, avgDailyMinutes: real,
    recentSessions: seq<StudySession>, latestSnapshot: Option<Snapshot>)

  datatype TrendPoint = TrendPoint(date: int, minutes: int, completedTasks: nat)

  datatype Trend = Trend(days: nat, dataPoints: seq<TrendPoint>)

  /** A counter in the trend map. */
  datatype Bucket = Bucket(minutes: int, completedTasks: nat)

  /** The UTC day of a time: the date `toISOString().split("T")[0]` names. */
  function DayOf(ms: int): int {
    ms / MS_PER_DAY
  }

  lemma DayOfShift(ms: int, i: int)
    ensures DayOf(ms + i * MS_PER_DAY) == DayOf(ms) + i
  {
    var q := ms / MS_PER_DAY;
    var r := ms % MS_PER_DAY;
    assert ms + i * MS_PER_DAY == (q + i) * MS_PER_DAY + r;
  }

  // ------------------------------------------------------------ filters

  /** The sessions of user `userId`, in stored order. */
  function UserSessions(sessions: seq<StudySession>, userId: nat): (r: seq<StudySession>)
    ensures |r| <= |sessions|
    ensures forall k :: 0 <= k < |r| ==> r[k].userId == userId
    ensures forall s :: s in sessions && s.userId == userId ==> s in r
  {
    if sessions == [] then []
    else
      var rest := UserSessions(sessions[1..], userId);
      assert forall s :: s in sessions && s != sessions[0] ==> s in sessions[1..];
      if sessions[0].userId == userId then [sessions[0]] + rest else rest
  }

  /** The user's sessions are taken from the store, each no more often
      than it is stored. */
  lemma {:induction false} UserSessionsFromStore(sessions: seq<StudySession>, userId: nat)
    ensures multiset(UserSessions(sessions, userId)) <= multiset(sessions)
  {
    if sessions != [] {
      UserSessionsFromStore(sessions[1..], userId);
      assert sessions == [sessions[0]] + sessions[1..];
    }
  }

  function RecordedAt(s: StudySession): real {
    s.recordedAt as real
  }

  function Earliness(s: StudySession): real {
    -(s.recordedAt as real)
  }

  /** `orderBy: { recordedAt: "asc" }`. */
  function Ascending(sessions: seq<StudySession>): (r: seq<StudySession>)
    ensures |r| == |sessions| && multiset(r) == multiset(sessions)
    ensures forall i, j :: 0 <= i < j < |r| ==> r[i].recordedAt <= r[j].recordedAt
  {
    var r := SortDesc(sessions, Earliness);
    assert forall i, j :: 0 <= i < j < |r| ==> Earliness(r[i]) >= Earliness(r[j]);
    r
  }

  // --------------------------------------------------------------- sums

  /** The minutes of all sessions. */
  function TotalMinutes(sessions: seq<StudySession>): int {
    if sessions == [] then 0
    else TotalMinutes(sessions[..|sessions| - 1]) + sessions[|sessions| - 1].minutes
  }

  /** The minutes of the sessions recorded at or after `from`. */
  function MinutesSince(sessions: seq<StudySession>, from: int): int {
    if sessions == [] then 0
    else
      var last := sessions[|sessions| - 1];
      MinutesSince(sessions[..|sessions| - 1], from) + (if last.recordedAt >= from then last.minutes else 0)
  }

  predicate NonNegativeMinutes(sessions: seq<StudySession>) {
    forall k :: 0 <= k < |sessions| ==> sessions[k].minutes >= 0
  }

  /** A later window lies inside an earlier one, and every window inside
      the total. */
  lemma {:induction false} WindowsNested(sessions: seq<StudySession>, early: int, late: int)
    requires NonNegativeMinutes(sessions) && early <= late
    ensures 0 <= MinutesSince(sessions, late) <= MinutesSince(sessions, early) <= TotalMinutes(sessions)
  {
    if sessions != [] {
      WindowsNested(sessions[..|sessions| - 1], early, late);
    }
  }

  /** The minutes of the sessions recorded at or after `from` on `day`. */
  function MinutesOn(sessions: seq<StudySession>, from: int, day: int): int {
    if sessions == [] then 0
    else
      var last := sessions[|sessions| - 1];
      MinutesOn(sessions[..|sessions| - 1], from, day)
        + (if last.recordedAt >= from && DayOf(last.recordedAt) == day then last.minutes else 0)
  }

  /** The completions at or after `from` on `day`. */
  function CompletionsOn(completedAt: seq<int>, from: int, day: int): nat {
    if completedAt == [] then 0
    else
      var last := completedAt[|completedAt| - 1];
      CompletionsOn(completedAt[..|completedAt| - 1], from, day) + (if last >= from && DayOf(last) == day then 1 else 0)
  }

  // ----------------------------------------------------- completed tasks

  /** A stored plan with id `planId` belongs to `userId`: the relation
      filter `plan: { userId }` on a task. */
  predicate PlanOfUser(plans: seq<Planning.Plan>, planId: nat, userId: nat) {
    exists k :: 0 <= k < |plans| && plans[k].id == planId && plans[k].userId == userId
  }

  /** The user's done tasks in stored order, as the query on tasks
      `where: { plan: { userId }, status: "done" }` selects them. */
  function DoneTasks(plans: seq<Planning.Plan>, tasks: seq<Planning.Task>, userId: nat): (r: seq<Planning.Task>)
    ensures |r| <= |tasks|
  {
    if tasks == [] then []
    else
      var last := tasks[|tasks| - 1];
      DoneTasks(plans, tasks[..|tasks| - 1], userId)
        + (if last.status == Planning.DONE && PlanOfUser(plans, last.planId, userId) then [last] else [])
  }

  /** A task is selected exactly when it is stored, done and of one of
      the user's plans. */
  lemma {:induction false} DoneTasksMembers(plans: seq<Planning.Plan>, tasks: seq<Planning.Task>, userId: nat)
    ensures forall t :: t in DoneTasks(plans, tasks, userId) <==>
      t in tasks && t.status == Planning.DONE && PlanOfUser(plans, t.planId, userId)
    decreases |tasks|
  {
    if tasks != [] {
      var init := tasks[..|tasks| - 1];
      DoneTasksMembers(plans, init, userId);
      assert tasks == init + [tasks[|tasks| - 1]];
    }
  }

  /** The completion times of `done`, skipping a task that has none (the
      `if (task.completedAt)` test); `timeOf` reads a stored date. */
  function CompletionTimes(done: seq<Planning.Task>, timeOf: string -> int): (r: seq<int>)
    ensures |r| <= |done|
  {
    if done == [] then []
    else
      var last := done[|done| - 1];
      CompletionTimes(done[..|done| - 1], timeOf)
        + (if last.completedAt.Some? then [timeOf(last.completedAt.value)] else [])
  }

  /** No day counts more completions than there are completion times. */
  lemma {:induction false} CompletionsOnBound(completedAt: seq<int>, from: int, day: int)
    ensures CompletionsOn(completedAt, from, day) <= |completedAt|
    decreases |completedAt|
  {
    if completedAt != [] {
      CompletionsOnBound(completedAt[..|completedAt| - 1], from, day);
    }
  }

  /** No trend point counts more completed tasks than the user has done
      tasks, whatever the day and the start of the window. */
  lemma TrendCompletionsBound(plans: seq<Planning.Plan>, tasks: seq<Planning.Task>, userId: nat,
                              timeOf: string -> int, from: int, day: int)
    ensures CompletionsOn(CompletionTimes(DoneTasks(plans, tasks, userId), timeOf), from, day)
      <= |DoneTasks(plans, tasks, userId)|
  {
    CompletionsOnBound(CompletionTimes(DoneTasks(plans, tasks, userId), timeOf), from, day);
  }

  // ---------------------------------------------------------------- days

  /** The distinct study days. */
  function Days(sessions: seq<StudySession>): set<int> {
    if sessions == [] then {}
    else Days(sessions[..|sessions| - 1]) + {DayOf(sessions[|sessions| - 1].recordedAt)}
  }

  predicate Increasing(xs: seq<int>) {
    forall i, j :: 0 <= i < j < |xs| ==> xs[i] < xs[j]
  }

  function InsertDay(d: int, xs: seq<int>): (r: seq<int>)
    requires Increasing(xs)
    ensures r != []
    ensures Increasing(r)
    ensures forall x :: x in r <==> x == d || x in xs
  {
    if xs == [] then [d]
    else if d == xs[0] then xs
    else if d < xs[0] then [d] + xs
    else
      var rest := InsertDay(d, xs[1..]);
      assert forall x :: x in rest ==> xs[0] < x;
      ConsIncreasing(xs[0], rest);
      [xs[0]] + rest
  }

  lemma ConsIncreasing(a: int, xs: seq<int>)
    requires Increasing(xs) && forall x :: x in xs ==> a < x
    ensures Increasing([a] + xs)
  {
    var r := [a] + xs;
    forall i, j | 0 <= i < j < |r| ensures r[i] < r[j] {
      assert r[j] == xs[j - 1];
      if i > 0 {
        assert r[i] == xs[i - 1];
      } else {
        assert xs[j - 1] in xs;
      }
    }
  }

  /** `Array.from(new Set(dates)).sort()`: the study days, ascending. */
  function SortedDays(sessions: seq<StudySession>): (r: seq<int>)
    ensures sessions != [] ==> r != []
    ensures Increasing(r)
    ensures forall d :: d in r <==> d in Days(sessions)
  {
    if sessions == [] then []
    else InsertDay(DayOf(sessions[|sessions| - 1].recordedAt), SortedDays(sessions[..|sessions| - 1]))
  }

  lemma {:induction false} IncreasingCard(xs: seq<int>)
    requires Increasing(xs)
    ensures |set x | x in xs| == |xs|
  {
    if xs != [] {
      IncreasingCard(xs[1..]);
      assert (set x | x in xs) == {xs[0]} + (set x | x in xs[1..]);
    }
  }

  /** There are as many sorted days as active days. */
  lemma SortedDaysCount(sessions: seq<StudySession>)
    ensures |SortedDays(sessions)| == |Days(sessions)|
  {
    var r := SortedDays(sessions);
    IncreasingCard(r);
    assert (set x | x in r) == Days(sessions);
  }

  // -------------------------------------------------------------- streak

  /** The length of the run of consecutive days that ends with the last. */
  function RunLength(days: seq<int>): (r: nat)
    requires days != []
    ensures 1 <= r <= |days|
  {
    var n := |days|;
    if n == 1 then 1
    else if days[n - 1] - days[n - 2] == 1 then RunLength(days[..n - 1]) + 1
    else 1
  }

  /** `calculateStreakDays` on sorted distinct days: 0 without days or
      when the last one is more than a day before `today`, otherwise the
      run ending at the last day. */
  function StreakDays(days: seq<int>, today: int): nat {
    if days == [] then 0
    else if today - days[|days| - 1] > 1 then 0
    else RunLength(days)
  }

  predicate ConsecutiveFrom(days: seq<int>, p: nat) {
    forall k :: p <= k < |days| - 1 ==> days[k + 1] - days[k] == 1
  }

  /** The run is the maximal consecutive suffix: a consecutive suffix
      starting at `p` that cannot be extended has length `RunLength`. */
  lemma {:induction false} RunLengthIsMaximal(days: seq<int>, p: nat)
    requires p < |days| && ConsecutiveFrom(days, p)
    requires p == 0 || days[p] - days[p - 1] != 1
    ensures RunLength(days) == |days| - p
    decreases |days|
  {
    var n := |days|;
    if n > 1 && p < n - 1 {
      var init := days[..n - 1];
      assert ConsecutiveFrom(init, p);
      RunLengthIsMaximal(init, p);
    }
  }

  /** The days of the run are consecutive, and the day before it is not
      adjacent to it. */
  lemma {:induction false} RunLengthConsecutive(days: seq<int>)
    requires days != []
    ensures ConsecutiveFrom(days, |days| - RunLength(days))
    ensures RunLength(days) < |days| ==> days[|days| - RunLength(days)] - days[|days| - RunLength(days) - 1] != 1
  {
    var n := |days|;
    if n > 1 && days[n - 1] - days[n - 2] == 1 {
      var init := days[..n - 1];
      RunLengthConsecutive(init);
      var p := |init| - RunLength(init);
      assert RunLength(days) == RunLength(init) + 1;
      forall k | p <= k < n - 1 ensures days[k + 1] - days[k] == 1 {
        if k < n - 2 {
          assert days[k + 1] == init[k + 1] && days[k] == init[k];
        }
      }
      if p > 0 {
        assert days[p] == init[p] && days[p - 1] == init[p - 1];
      }
    }
  }

  /** The streak counts at most the active days, and at least one once
      the last study day is today or yesterday. */
  lemma StreakBounds(sessions: seq<StudySession>, today: int)
    ensures StreakDays(SortedDays(sessions), today) <= |Days(sessions)|
    ensures sessions != [] && today - SortedDays(sessions)[|SortedDays(sessions)| - 1] <= 1 ==>
      StreakDays(SortedDays(sessions), today) >= 1
  {
    SortedDaysCount(sessions);
    StreakOfDaysBounds(SortedDays(sessions), today);
  }

  lemma StreakOfDaysBounds(days: seq<int>, today: int)
    ensures StreakDays(days, today) <= |days|
    ensures days != [] && today - days[|days| - 1] <= 1 ==> StreakDays(days, today) >= 1
  {
  }

  /** `calculateStreakDays`: walks the sorted days back from the last
      while they are one day apart. */
  method CalculateStreakDays(sessions: seq<StudySession>, now: int) returns (streak: nat)
    ensures streak == StreakDays(SortedDays(sessions), DayOf(now))
  {
    if |sessions| == 0 {
      return 0;
    }
    var uniqueDates := SortedDays(sessions);
    var today := DayOf(now);
    var lastDate := uniqueDates[|uniqueDates| - 1];
    var daysSinceLastStudy := today - lastDate;
    if daysSinceLastStudy > 1 {
      return 0;
    }
    streak := 1;
    var i := |uniqueDates| - 2;
    while i >= 0
      invariant -1 <= i <= |uniqueDates| - 2
      invariant streak == |uniqueDates| - 1 - i
      invariant ConsecutiveFrom(uniqueDates, i + 1)
      decreases i + 1
    {
      var dayDiff := uniqueDates[i + 1] - uniqueDates[i];
      if dayDiff == 1 {
        streak := streak + 1;
      } else {
        break;
      }
      i := i - 1;
    }
    RunLengthIsMaximal(uniqueDates, i + 1);
  }

  // ------------------------------------------------------------- reports

  /** The `n` latest sessions of user `userId`, newest first, taken from
      the store: `orderBy: { recordedAt: "desc" }, take: n`. */
  function LatestSessions(sessions: seq<StudySession>, userId: nat, n: nat): (r: seq<StudySession>)
    ensures var own := UserSessions(sessions, userId);
      |r| == (if n < |own| then n else |own|)
    ensures forall k :: 0 <= k < |r| ==> r[k].userId == userId && r[k] in sessions
    ensures multiset(r) <= multiset(UserSessions(sessions, userId)) && multiset(r) <= multiset(sessions)
    ensures forall i, j :: 0 <= i < j < |r| ==> r[i].recordedAt >= r[j].recordedAt
    ensures forall s :: s in sessions && s.userId == userId && s !in r ==>
      forall k :: 0 <= k < |r| ==> r[k].recordedAt >= s.recordedAt
  {
    LatestFromStore(sessions, userId, n);
    LatestAreNewest(sessions, userId, n);
    Top(UserSessions(sessions, userId), RecordedAt, n)
  }

  lemma LatestFromStore(sessions: seq<StudySession>, userId: nat, n: nat)
    ensures var r := Top(UserSessions(sessions, userId), RecordedAt, n);
      (forall k :: 0 <= k < |r| ==> r[k].userId == userId && r[k] in sessions)
      && multiset(r) <= multiset(sessions)
  {
    var own := UserSessions(sessions, userId);
    var r := Top(own, RecordedAt, n);
    UserSessionsFromStore(sessions, userId);
    forall k | 0 <= k < |r| ensures r[k].userId == userId && r[k] in sessions {
      assert r[k] in own;
      assert r[k] in multiset(own);
    }
  }

  lemma LatestAreNewest(sessions: seq<StudySession>, userId: nat, n: nat)
    ensures var r := Top(UserSessions(sessions, userId), RecordedAt, n);
      (forall i, j :: 0 <= i < j < |r| ==> r[i].recordedAt >= r[j].recordedAt)
      && forall s :: s in sessions && s.userId == userId && s !in r ==>
        forall k :: 0 <= k < |r| ==> r[k].recordedAt >= s.recordedAt
  {
    var own := UserSessions(sessions, userId);
    var r := Top(own, RecordedAt, n);
    assert forall i, j :: 0 <= i < j < |r| ==> RecordedAt(r[i]) >= RecordedAt(r[j]);
    forall s | s in sessions && s.userId == userId && s !in r
      ensures forall k :: 0 <= k < |r| ==> r[k].recordedAt >= s.recordedAt
    {
      TopIsBest(own, RecordedAt, n, s);
    }
  }

  /** `slice(-n)`: the last `n` elements, or all of them. */
  function LastN<T>(xs: seq<T>, n: nat): (r: seq<T>)
    ensures |r| == if n < |xs| then n else |xs|
    ensures forall k :: 0 <= k < |r| ==> r[k] == xs[|xs| - |r| + k]
  {
    if n < |xs| then xs[|xs| - n..] else xs
  }

  function Reverse<T>(xs: seq<T>): (r: seq<T>)
    ensures |r| == |xs|
    ensures forall k :: 0 <= k < |r| ==> r[k] == xs[|xs| - 1 - k]
  {
    if xs == [] then [] else [xs[|xs| - 1]] + Reverse(xs[..|xs| - 1])
  }

  /** `recentSessions`: the last sessions of an ascending list, newest
      first. */
  lemma RecentNewestFirst(all: seq<StudySession>)
    requires forall i, j :: 0 <= i < j < |all| ==> all[i].recordedAt <= all[j].recordedAt
    ensures var recent := Reverse(LastN(all, DEFAULT_SESSION_LIMIT));
      |recent| == (if |all| < 20 then |all| else 20)
      && (forall k :: 0 <= k < |recent| ==> recent[k] == all[|all| - 1 - k])
      && forall i, j :: 0 <= i < j < |recent| ==> recent[i].recordedAt >= recent[j].recordedAt
  {
    var last := LastN(all, DEFAULT_SESSION_LIMIT);
    var recent := Reverse(last);
    assert forall k :: 0 <= k < |recent| ==> recent[k] == last[|last| - 1 - k];
    assert forall k :: 0 <= k < |recent| ==> recent[k] == all[|all| - 1 - k];
  }

  function CapturedAt(s: Snapshot): real {
    s.capturedAt as real
  }

  /** The snapshots of user `userId`. */
  function UserSnapshots(snapshots: seq<Snapshot>, userId: nat): (r: seq<Snapshot>)
    ensures forall s :: s in r <==> s in snapshots && s.userId == userId
  {
    if snapshots == [] then []
    else
      var rest := UserSnapshots(snapshots[1..], userId);
      if snapshots[0].userId == userId then [snapshots[0]] + rest else rest
  }

  /** `findFirst` ordered by `capturedAt` descending. */
  function LatestSnapshot(snapshots: seq<Snapshot>, userId: nat): (r: Option<Snapshot>)
    ensures r.None? <==> forall s :: s in snapshots ==> s.userId != userId
    ensures r.Some? ==> r.value in snapshots && r.value.userId == userId
    ensures r.Some? ==> forall s :: s in snapshots && s.userId == userId ==> s.capturedAt <= r.value.capturedAt
  {
    var own := UserSnapshots(snapshots, userId);
    var top := Top(own, CapturedAt, 1);
    if top == [] then None
    else
      forall s | s in snapshots && s.userId == userId ensures s.capturedAt <= top[0].capturedAt {
        if s !in top {
          TopIsBest(own, CapturedAt, 1, s);
        }
      }
      Some(top[0])
  }

  /** The average of `total` over `activeDays` days, 0 without any. */
  function Average(total: int, activeDays: nat): (r: real)
    ensures activeDays == 0 ==> r == 0.0
    ensures activeDays > 0 ==> r * activeDays as real == total as real
  {
    if activeDays > 0 then total as real / activeDays as real else 0.0
  }

  /** The statistics `getProgressStats` reports at `now` from the user's
      sessions `own`, taken in ascending order. */
  function StatsOf(own: seq<StudySession>, snapshots: seq<Snapshot>, userId: nat, completedTasks: nat, now: int)
    : (r: Stats)
  {
    var all := Ascending(own);
    var total := TotalMinutes(all);
    var activeDays := |Days(all)|;
    Stats(StreakDays(SortedDays(all), DayOf(now)), completedTasks,
          MinutesSince(all, now - DAYS_IN_WEEK * MS_PER_DAY), MinutesSince(all, now - DAYS_IN_MONTH * MS_PER_DAY),
          total, activeDays, Average(total, activeDays), Reverse(LastN(all, DEFAULT_SESSION_LIMIT)),
          LatestSnapshot(snapshots, userId))
  }

  /** The reported figures agree with each other: the week's minutes are
      within the month's, which are within the total; the streak counts
      only active days; and at most 20 recent sessions are listed. */
  lemma StatsConsistent(own: seq<StudySession>, snapshots: seq<Snapshot>, userId: nat, completedTasks: nat, now: int)
    requires NonNegativeMinutes(own)
    ensures var st := StatsOf(own, snapshots, userId, completedTasks, now);
      && 0 <= st.weeklyStudyMinutes <= st.monthlyStudyMinutes <= st.totalStudyMinutes
      && st.streakDays <= st.activeDays
      && |st.recentSessions| <= DEFAULT_SESSION_LIMIT
  {
    var all := Ascending(own);
    AscendingKeepsMinutes(own);
    WindowsNested(all, now - DAYS_IN_MONTH * MS_PER_DAY, now - DAYS_IN_WEEK * MS_PER_DAY);
    StreakBounds(all, DayOf(now));
  }

  lemma AscendingKeepsMinutes(own: seq<StudySession>)
    requires NonNegativeMinutes(own)
    ensures NonNegativeMinutes(Ascending(own))
  {
    var all := Ascending(own);
    forall k | 0 <= k < |all| ensures all[k].minutes >= 0 {
      assert all[k] in multiset(own);
    }
  }

  class ProgressService {
    var studySessions: seq<StudySession>
    var snapshots: seq<Snapshot>
    var nextId: nat

    constructor()
      ensures studySessions == [] && snapshots == [] && nextId == 0
    {
      studySessions := [];
      snapshots := [];
      nextId := 0;
    }

    /** `createStudySession`: `recordedAt` defaults to now. */
    method CreateStudySession(userId: nat, focus: string, minutes: int, recordedAt: Option<int>,
                              sessionId: Option<nat>, now: int) returns (r: StudySession)
      modifies this
      ensures r == StudySession(old(nextId), userId, sessionId, focus, minutes, recordedAt.GetOr(now), now)
      ensures studySessions == old(studySessions) + [r]
      ensures snapshots == old(snapshots) && nextId == old(nextId) + 1
    {
      r := StudySession(nextId, userId, sessionId, focus, minutes, recordedAt.GetOr(now), now);
      studySessions := studySessions + [r];
      nextId := nextId + 1;
    }

    /** `getStudySessions`: the user's `limit` latest sessions, newest
        first. */
    function GetStudySessions(userId: nat, limit: Option<nat>): (r: seq<StudySession>)
      reads this
      ensures var own := UserSessions(studySessions, userId); var n := limit.GetOr(DEFAULT_SESSION_LIMIT);
        |r| == (if n < |own| then n else |own|)
      ensures forall k :: 0 <= k < |r| ==> r[k].userId == userId && r[k] in studySessions
      ensures multiset(r) <= multiset(UserSessions(studySessions, userId)) && multiset(r) <= multiset(studySessions)
      ensures forall i, j :: 0 <= i < j < |r| ==> r[i].recordedAt >= r[j].recordedAt
      ensures forall s :: s in studySessions && s.userId == userId && s !in r ==>
        forall k :: 0 <= k < |r| ==> r[k].recordedAt >= s.recordedAt
    {
      LatestSessions(studySessions, userId, limit.GetOr(DEFAULT_SESSION_LIMIT))
    }

    /** `getProgressStats` at time `now`, with the plan and task tables
        `plans` and `tasks` that the done-task count is taken from. */
    method GetProgressStats(userId: nat, plans: seq<Planning.Plan>, tasks: seq<Planning.Task>, now: int)
      returns (stats: Stats)
      ensures stats == StatsOf(UserSessions(studySessions, userId), snapshots, userId,
                               |DoneTasks(plans, tasks, userId)|, now)
      ensures stats.totalCompletedTasks == |DoneTasks(plans, tasks, userId)|
    {
      var completedTasks := |DoneTasks(plans, tasks, userId)|;
      var own := UserSessions(studySessions, userId);
      var streakDays := CalculateStreakDays(Ascending(own), now);
      stats := StatsOf(own, snapshots, userId, completedTasks, now).(streakDays := streakDays);
    }

    /** `updateProgressSnapshot`: records the current streak, completed
        tasks and total minutes. */
    method UpdateProgressSnapshot(userId: nat, plans: seq<Planning.Plan>, tasks: seq<Planning.Task>, now: int)
      returns (snapshot: Snapshot)
      modifies this
      ensures var all := Ascending(UserSessions(old(studySessions), userId));
        snapshot == Snapshot(old(nextId), userId, StreakDays(SortedDays(all), DayOf(now)),
                             |DoneTasks(plans, tasks, userId)|, TotalMinutes(all), now)
      ensures snapshots == old(snapshots) + [snapshot]
      ensures studySessions == old(studySessions) && nextId == old(nextId) + 1
    {
      var stats := GetProgressStats(userId, plans, tasks, now);
      ghost var all := Ascending(UserSessions(studySessions, userId));
      assert stats.streakDays == StreakDays(SortedDays(all), DayOf(now)) && stats.totalStudyMinutes == TotalMinutes(all);
      assert stats.totalCompletedTasks == |DoneTasks(plans, tasks, userId)|;
      snapshot := Snapshot(nextId, userId, stats.streakDays, stats.totalCompletedTasks, stats.totalStudyMinutes, now);
      snapshots := snapshots + [snapshot];
      nextId := nextId + 1;
    }

    /** `getProgressTrend`: one point per day from the day of `now - days`
        to the day before today, with the minutes and completions recorded
        since `now - days` on that day; `days` defaults to 30. The
        completions are those of the user's done tasks in `plans` and
        `tasks`, their stored dates read by `timeOf`. */
    method GetProgressTrend(userId: nat, days: Option<nat>, plans: seq<Planning.Plan>, tasks: seq<Planning.Task>,
                            timeOf: string -> int, now: int) returns (r: Trend)
      ensures r.days == days.GetOr(DEFAULT_TREND_DAYS) && |r.dataPoints| == r.days
      ensures var start := now - r.days * MS_PER_DAY;
        var sessions := UserSessions(studySessions, userId);
        var completedAt := CompletionTimes(DoneTasks(plans, tasks, userId), timeOf);
        forall i :: 0 <= i < r.days ==>
          r.dataPoints[i] == TrendPoint(DayOf(start) + i, MinutesOn(sessions, start, DayOf(start) + i),
                                        CompletionsOn(completedAt, start, DayOf(start) + i))
    {
      var n := days.GetOr(DEFAULT_TREND_DAYS);
      var startDate := now - n * MS_PER_DAY;
      var sessions := UserSessions(studySessions, userId);
      var completedAt := CompletionTimes(DoneTasks(plans, tasks, userId), timeOf);
      var dataMap, keys := InitBuckets(startDate, n);
      dataMap := AddMinutes(dataMap, sessions, startDate);
      dataMap := AddCompletions(dataMap, completedAt, startDate);
      var dataPoints := seq(|keys|, k requires 0 <= k < |keys| && keys[k] in dataMap =>
        TrendPoint(keys[k], dataMap[keys[k]].minutes, dataMap[keys[k]].completedTasks));
      r := Trend(n, dataPoints);
    }
  }

  /** One empty bucket per day, keyed in ascending order from the day of
      `startDate`. */
  method InitBuckets(startDate: int, days: nat) returns (dataMap: map<int, Bucket>, keys: seq<int>)
    ensures |keys| == days && forall k :: 0 <= k < days ==> keys[k] == DayOf(startDate) + k
    ensures forall d :: d in dataMap <==> DayOf(startDate) <= d < DayOf(startDate) + days
    ensures forall d :: d in dataMap ==> dataMap[d] == Bucket(0, 0)
  {
    var first := DayOf(startDate);
    dataMap := map[];
    keys := [];
    for i := 0 to days
      invariant |keys| == i && forall k :: 0 <= k < i ==> keys[k] == first + k
      invariant forall d :: d in dataMap <==> first <= d < first + i
      invariant forall d :: d in dataMap ==> dataMap[d] == Bucket(0, 0)
    {
      DayOfShift(startDate, i);
      var dateKey := DayOf(startDate + i * MS_PER_DAY);
      dataMap := dataMap[dateKey := Bucket(0, 0)];
      keys := keys + [dateKey];
    }
  }

  /** Adds each session since `startDate` to the bucket of its day, when
      there is one. */
  method AddMinutes(dataMap: map<int, Bucket>, sessions: seq<StudySession>, startDate: int) returns (r: map<int, Bucket>)
    ensures r.Keys == dataMap.Keys
    ensures forall d :: d in r ==> r[d] == dataMap[d].(minutes := dataMap[d].minutes + MinutesOn(sessions, startDate, d))
  {
    r := dataMap;
    for j := 0 to |sessions|
      invariant r.Keys == dataMap.Keys
      invariant forall d :: d in r ==> r[d] == dataMap[d].(minutes := dataMap[d].minutes + MinutesOn(sessions[..j], startDate, d))
    {
      assert sessions[..j + 1][..j] == sessions[..j];
      var session := sessions[j];
      if session.recordedAt >= startDate {
        var dateKey := DayOf(session.recordedAt);
        if dateKey in r {
          r := r[dateKey := r[dateKey].(minutes := r[dateKey].minutes + session.minutes)];
        }
      }
    }
    assert sessions[..|sessions|] == sessions;
  }

  /** Counts each completion since `startDate` in the bucket of its day,
      when there is one. */
  method AddCompletions(dataMap: map<int, Bucket>, completedAt: seq<int>, startDate: int) returns (r: map<int, Bucket>)
    ensures r.Keys == dataMap.Keys
    ensures forall d :: d in r ==>
      r[d] == dataMap[d].(completedTasks := dataMap[d].completedTasks + CompletionsOn(completedAt, startDate, d))
  {
    r := dataMap;
    for j := 0 to |completedAt|
      invariant r.Keys == dataMap.Keys
      invariant forall d :: d in r ==>
        r[d] == dataMap[d].(completedTasks := dataMap[d].completedTasks + CompletionsOn(completedAt[..j], startDate, d))
    {
      assert completedAt[..j + 1][..j] == completedAt[..j];
      var time := completedAt[j];
      if time >= startDate {
        var dateKey := DayOf(time);
        if dateKey in r {
          r := r[dateKey := r[dateKey].(completedTasks := r[dateKey].completedTasks + 1)];
        }
      }
    }
    assert completedAt[..|completedAt|] == completedAt;
  }

  /** The last point of the trend is the day before today: today's study
      time is never counted. */
  lemma TrendEndsYesterday(now: int, days: nat)
    requires days > 0
    ensures DayOf(now - days * MS_PER_DAY) + days - 1 == DayOf(now) - 1
  {
    DayOfShift(now - days * MS_PER_DAY, days);
    assert now - days * MS_PER_DAY + days * MS_PER_DAY == now;
  }
}
