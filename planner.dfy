/** The planner page: adding a task for the selected day, ticking a task off
    (which drives the points, counter, streak and achievement bookkeeping),
    and the list of the selected day's tasks (client/src/pages/Planner.tsx). */
module Planner {
  import opened Basics
  import opened UserProfile
  import opened Subscription

  type TaskId = string

  /** A document of the `tasks` collection; `date` and `completedAt` are
      timestamps in milliseconds. */
  datatype Task = Task(id: TaskId, title: string, completed: bool, date: int, points: int, completedAt: Option<int>)

  /** The points every new task is worth. */
  const TaskPoints: int := 10

  /** The characters `String.prototype.trim` removes. */
  predicate IsWhitespace(c: char)
  {
    || c == ' ' || c == '\t' || c == '\n' || c == '\r' || c == '\U{B}' || c == '\U{C}'
    || c == '\U{A0}' || c == '\U{1680}' || ('\U{2000}' <= c <= '\U{200A}')
    || c == '\U{2028}' || c == '\U{2029}' || c == '\U{202F}' || c == '\U{205F}'
    || c == '\U{3000}' || c == '\U{FEFF}'
  }

  /** `!s.trim()`: nothing is left once the surrounding whitespace is gone. */
  predicate IsBlank(s: string)
  {
    forall i :: 0 <= i < |s| ==> IsWhitespace(s[i])
  }

  /** The document `handleAddTask` writes. */
  function NewTask(id: TaskId, title: string, date: int): (t: Task)
    ensures !t.completed && t.points == TaskPoints && t.date == date && t.title == title
    ensures t.completedAt.None?
  {
    Task(id, title, false, date, TaskPoints, None)
  }

  const TaskAddedMessage: string := "Tarefa adicionada com sucesso!"
  const DefaultLimitMessage: string := "Limite de tarefas atingido"

  /** The message shown when `canCreateTask` refuses: its reason, or a
      default when the reason is missing or empty. */
  function RefusalMessage(d: CreateDecision): (m: string)
    ensures |m| > 0
    ensures d.reason.Some? && d.reason.value != "" ==> m == d.reason.value
  {
    if d.reason.Some? && d.reason.value != "" then d.reason.value else DefaultLimitMessage
  }

  /** `filteredTasks`: the tasks on the calendar day of the selected date, in
      their order; none when no date is selected. */
  function FilteredTasks(tasks: seq<Task>, date: Option<int>): (r: seq<Task>)
    ensures date.None? ==> r == []
    ensures date.Some? ==> forall t :: t in r <==> t in tasks && Day(t.date) == Day(date.value)
    ensures multiset(r) <= multiset(tasks)
  {
    if date.None? || tasks == [] then []
    else
      var rest := FilteredTasks(tasks[1..], date);
      assert tasks == [tasks[0]] + tasks[1..];
      if Day(tasks[0].date) == Day(date.value) then [tasks[0]] + rest else rest
  }

  /** `filter` keeps order and multiplicity: filtering `a + b` filters `a`
      and then `b`. */
  lemma {:induction false} FilteredTasksKeepOrder(a: seq<Task>, b: seq<Task>, date: Option<int>)
    ensures FilteredTasks(a + b, date) == FilteredTasks(a, date) + FilteredTasks(b, date)
  {
    if date.None? {
    } else if a == [] {
      assert a + b == b;
    } else {
      var head := if Day(a[0].date) == Day(date.value) then [a[0]] else [];
      assert FilteredTasks(a + b, date) == head + FilteredTasks(a[1..] + b, date) by {
        assert (a + b)[0] == a[0];
        assert (a + b)[1..] == a[1..] + b;
      }
      FilteredTasksKeepOrder(a[1..], b, date);
    }
  }

  /** A single task is kept exactly when it lies on the selected day. */
  lemma FilteredTaskOfOne(t: Task, date: int)
    ensures FilteredTasks([t], Some(date)) == if Day(t.date) == Day(date) then [t] else []
  {
    assert [t][1..] == [];
  }

  /** The position of the document with id `id`, if there is one. */
  function FindTask(tasks: seq<Task>, id: TaskId): (r: Option<nat>)
    ensures r.Some? ==> r.value < |tasks| && tasks[r.value].id == id
    ensures r.None? ==> forall k :: 0 <= k < |tasks| ==> tasks[k].id != id
  {
    if tasks == [] then None
    else if tasks[0].id == id then Some(0)
    else
      var rest := FindTask(tasks[1..], id);
      if rest.Some? then Some(rest.value + 1) else None
  }

  /** What ticking a task off does to the profile, in the order of the page:
      the task's points, one more completed task, the streak for the task's
      date, then the achievements against the counters read back afterwards. */
  function CompleteTask(p: Profile, t: Task, now: int): Profile
  {
    var counted := IncrementCompleted(AddPoints(p, t.points));
    var streaked := StreakUpdate(counted, t.date, now);
    ApplyUnlocks(streaked, streaked.completedTasks, streaked.currentStreak)
  }

  /** What unticking a task does to the profile: its points and one completed
      task are taken back; nothing else. */
  function UncompleteTask(p: Profile, t: Task): Profile
  {
    DecrementCompleted(RemovePoints(p, t.points))
  }

  /** The stored task after the toggle: the flag flipped from the task as the
      page saw it, and a completion time exactly when it became completed. */
  function Toggled(stored: Task, seen: Task, now: int): (r: Task)
    ensures r.completed == !seen.completed
    ensures r.completedAt.Some? <==> r.completed
    ensures r.(completed := stored.completed, completedAt := stored.completedAt) == stored
  {
    var newCompleted := !seen.completed;
    stored.(completed := newCompleted, completedAt := if newCompleted then Some(now) else None)
  }

  /** The profile collection after toggling `t` for user `uid`. Unticking
      without a stored profile fails at its first read and writes nothing. */
  function ToggleEffect(docs: map<UserId, Profile>, uid: UserId, t: Task, now: int): map<UserId, Profile>
  {
    if !t.completed then docs[uid := CompleteTask(Fetch(docs, uid), t, now)]
    else if uid in docs then docs[uid := UncompleteTask(docs[uid], t)]
    else docs
  }

  /** Completing a task keeps a profile consistent and moves it as the page
      promises: points up by the task's points plus the bonuses of what it
      unlocked, one more completed task, the streak updated from the task's
      date, and every achievement the new counters meet unlocked. */
  lemma {:induction false} CompleteTaskEffect(p: Profile, t: Task, now: int)
    requires Consistent(p)
    ensures var r := CompleteTask(p, t, now);
      var s := StreakUpdate(IncrementCompleted(AddPoints(p, t.points)), t.date, now);
      && Consistent(r)
      && r.completedTasks == p.completedTasks + 1
      && r.currentStreak == s.currentStreak && r.longestStreak == s.longestStreak
      && r.lastTaskDate == Some(Day(t.date))
      && r.totalPoints == p.totalPoints + t.points
           + SumPoints(Eligible(p.unlockedAchievements, Achievements, r.completedTasks, r.currentStreak))
      && r.unlockedAchievements == p.unlockedAchievements + NewlyUnlocked(s, s.completedTasks, s.currentStreak)
      && (forall k :: 0 <= k < |Achievements| && Met(Achievements[k], r.completedTasks, r.currentStreak)
            ==> Achievements[k].id in r.unlockedAchievements)
  {
    var a := AddPoints(p, t.points);
    PointOperations(p, t.points);
    var b := IncrementCompleted(a);
    CounterOperations(a);
    var s := StreakUpdate(b, t.date, now);
    StreakKeepsConsistent(b, t.date, now);
    StreakTransitions(b, t.date, now);
    UnlocksAddEachBonusOnce(s, s.completedTasks, s.currentStreak);
    UnlockedAfterCheck(s, s.completedTasks, s.currentStreak);
  }

  /** Unticking a task takes back its points and one completed task, and
      leaves the streak, the last task date and the unlocked achievements as
      they were: the bonuses already paid stay. */
  lemma {:induction false} UncompleteKeepsRewards(p: Profile, t: Task)
    requires Consistent(p)
    ensures var r := UncompleteTask(p, t);
      && Consistent(r)
      && r.totalPoints == p.totalPoints - t.points
      && r.completedTasks == p.completedTasks - 1
      && r.(totalPoints := p.totalPoints, level := p.level, completedTasks := p.completedTasks) == p
  {
    PointOperations(p, t.points);
    CounterOperations(RemovePoints(p, t.points));
  }

  /** Ticking a task off and then unticking it gives back the task's points
      and the counter, but the achievement bonuses it earned stay paid. */
  lemma {:induction false} CompleteThenUncomplete(p: Profile, t: Task, now: int)
    requires Consistent(p)
    ensures var c := CompleteTask(p, t, now);
      var r := UncompleteTask(c, t);
      && r.completedTasks == p.completedTasks
      && r.totalPoints == p.totalPoints
           + SumPoints(Eligible(p.unlockedAchievements, Achievements, c.completedTasks, c.currentStreak))
      && r.totalPoints >= p.totalPoints
      && r.unlockedAchievements == c.unlockedAchievements
  {
    CompleteTaskEffect(p, t, now);
    var c := CompleteTask(p, t, now);
    UncompleteKeepsRewards(c, t);
    SumPointsNonNegative(Eligible(p.unlockedAchievements, Achievements, c.completedTasks, c.currentStreak));
  }

  lemma {:induction false} SumPointsNonNegative(entries: seq<Achievement>)
    requires forall a :: a in entries ==> a in Achievements
    ensures SumPoints(entries) >= 0
  {
    if entries != [] {
      var init := entries[..|entries| - 1];
      assert forall a :: a in init ==> a in entries;
      SumPointsNonNegative(init);
      assert entries[|entries| - 1] in entries;
    }
  }

  /** A new user ticking off one ten-point task ends with 60 points (10 plus
      the 50 of "first-task"), one completed task, a streak of one,
      "first-task" unlocked, and level 1. */
  lemma FirstTaskScenario(uid: UserId, t: Task, now: int)
    requires t.points == TaskPoints
    ensures var r := CompleteTask(NewProfile(uid), t, now);
      && r.totalPoints == 60 && r.completedTasks == 1 && r.currentStreak == 1
      && r.unlockedAchievements == ["first-task"] && r.level == 1
  {
    var s := StreakUpdate(IncrementCompleted(AddPoints(NewProfile(uid), t.points)), t.date, now);
    assert s.completedTasks == 1 && s.currentStreak == 1 && s.unlockedAchievements == [];
    FirstUnlock(s);
  }

  /** With one completed task, a streak of one and nothing unlocked, the
      check unlocks "first-task" alone and pays its 50 points. */
  lemma FirstUnlock(s: Profile)
    requires s.completedTasks == 1 && s.currentStreak == 1 && s.unlockedAchievements == []
    ensures var r := ApplyUnlocks(s, 1, 1);
      r.unlockedAchievements == ["first-task"] && r.totalPoints == s.totalPoints + 50
      && r.level == LevelFor(s.totalPoints + 50) && r.currentStreak == 1 && r.completedTasks == 1
  {
    AchievementIdsDistinct();
    UnlockOverCredits(s, Achievements, 1, 1);
    OnlyFirstEligible();
    var e := [Achievements[0]];
    assert e[..0] == [];
    assert Ids(e) == ["first-task"];
    assert SumPoints(e) == 50;
    assert ApplyUnlocks(s, 1, 1) == Credited(s, e);
  }

  /** With one completed task and a streak of one, only "first-task" is met. */
  lemma OnlyFirstEligible()
    ensures Eligible([], Achievements, 1, 1) == [Achievements[0]]
  {
    assert forall k :: 1 <= k < |Achievements| ==> !Met(Achievements[k], 1, 1);
    EligibleIgnoresUnmet([], Achievements, 1, 1, 1);
    var first := Achievements[..1];
    assert first == [Achievements[0]] && first[..0] == [];
  }

  /** A user with 490 points who ticks off a ten-point task reaches 500 points
      and level 2 before any bonus is counted. */
  lemma LevelUpAt500(p: Profile)
    requires p.totalPoints == 490
    ensures AddPoints(p, TaskPoints).totalPoints == 500 && AddPoints(p, TaskPoints).level == 2
  {
  }

  /** The planner page: the signed-in user, the profile collection, the
      selected date, the user's tasks and the text of the new-task field. */
  class PlannerPage {
    const user: Option<UserId>
    const store: ProfileStore
    var date: Option<int>
    var tasks: seq<Task>
    var newTask: string

    constructor (user: Option<UserId>, store: ProfileStore, now: int)
      ensures this.user == user && this.store == store
      ensures date == Some(now) && tasks == [] && newTask == ""
    {
      this.user := user;
      this.store := store;
      date := Some(now);
      tasks := [];
      newTask := "";
    }

    /** `handleAddTask`. Nothing happens with a blank title, no user or no
      date. Otherwise the plan is consulted (which creates a missing profile);
      on refusal its reason is shown and nothing is written; on success a
      ten-point open task for the selected date is added and the field cleared.
      `newId` is the id the database assigns. */
    method HandleAddTask(newId: TaskId, now: int) returns (toast: Toast)
      modifies this, store
      ensures date == old(date)
      ensures IsBlank(old(newTask)) || user.None? || old(date).None? ==>
        toast == NoToast && tasks == old(tasks) && newTask == old(newTask) && store.docs == old(store.docs)
      ensures !(IsBlank(old(newTask)) || user.None? || old(date).None?) ==>
        var profile := Fetch(old(store.docs), user.value);
        var decision := CanCreateTask(profile, now);
        && store.docs == old(store.docs)[user.value := profile]
        && (decision.canCreate ==>
              tasks == old(tasks) + [NewTask(newId, old(newTask), old(date).value)]
              && newTask == "" && toast == SuccessToast(TaskAddedMessage))
        && (!decision.canCreate ==>
              tasks == old(tasks) && newTask == old(newTask) && toast == ErrorToast(RefusalMessage(decision)))
      ensures old(store.Valid()) ==> store.Valid()
    {
      if IsBlank(newTask) || user.None? || date.None? {
        return NoToast;
      }
      var profile := store.GetUserProfile(user.value);
      var canCreate := CanCreateTask(profile, now);
      if !canCreate.canCreate {
        return ErrorToast(RefusalMessage(canCreate));
      }
      tasks := tasks + [NewTask(newId, newTask, date.value)];
      newTask := "";
      toast := SuccessToast(TaskAddedMessage);
    }

    /** The profile updates of ticking `t` off, in the page's order: its
      points, one more completed task, the streak, then the achievements
      checked against the counters read back. */
    method RecordCompletion(uid: UserId, t: Task, now: int)
      modifies store
      ensures store.docs == old(store.docs)[uid := CompleteTask(Fetch(old(store.docs), uid), t, now)]
      ensures old(store.Valid()) ==> store.Valid()
    {
      RecordProgress(uid, t, now);
      var profile := store.GetUserProfile(uid);
      var _ := store.CheckAndUnlockAchievements(uid, profile.completedTasks, profile.currentStreak);
    }

    /** The first three updates of ticking `t` off: its points, one more
      completed task and the streak for its date. */
    method RecordProgress(uid: UserId, t: Task, now: int)
      modifies store
      ensures store.docs == old(store.docs)[uid := StreakUpdate(IncrementCompleted(AddPoints(
                Fetch(old(store.docs), uid), t.points)), t.date, now)]
      ensures old(store.Valid()) ==> store.Valid()
    {
      store.AddPointsToProfile(uid, t.points);
      store.IncrementCompletedTasks(uid);
      store.UpdateStreak(uid, t.date, now);
    }

    /** `toggleTask`: flips the stored task's flag (as the page saw it) and
      stamps or clears its completion time, then updates the profile in the
      page's order. A task that is no longer stored makes the first write fail
      and nothing changes. */
    method ToggleTask(t: Task, now: int)
      modifies this, store
      ensures date == old(date) && newTask == old(newTask)
      ensures user.None? ==> tasks == old(tasks) && store.docs == old(store.docs)
      ensures user.Some? ==>
        var idx := FindTask(old(tasks), t.id);
        && (idx.None? ==> tasks == old(tasks) && store.docs == old(store.docs))
        && (idx.Some? ==>
              tasks == old(tasks)[idx.value := Toggled(old(tasks)[idx.value], t, now)]
              && store.docs == ToggleEffect(old(store.docs), user.value, t, now))
      ensures old(store.Valid()) ==> store.Valid()
    {
      if user.None? {
        return;
      }
      var uid := user.value;
      var idx := FindTask(tasks, t.id);
      if idx.None? {
        return;
      }
      var newCompleted := !t.completed;
      tasks := tasks[idx.value := tasks[idx.value].(completed := newCompleted,
                                                    completedAt := if newCompleted then Some(now) else None)];
      if newCompleted {
        RecordCompletion(uid, t, now);
      } else {
        var ok := store.RemovePointsFromProfile(uid, t.points);
        if ok {
          ok := store.DecrementCompletedTasks(uid);
        }
      }
    }
  }
}
