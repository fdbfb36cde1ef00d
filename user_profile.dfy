/** The profile document of a user and the gamification bookkeeping kept in it:
    points and level, the completed-task counter, the daily streak, the
    achievements and the subscription fields (client/src/lib/userProfile.ts).

    The functions on `Profile` say what each helper does to one document; the
    class `ProfileStore` is the `userProfiles` collection, and its methods do the
    same read-modify-write steps on it that the helpers do through the database. */
module UserProfile {
  import opened Basics

  type UserId = string

  datatype Plan = Basic | Premium

  datatype Feature = PlannerFeature | AnotaChefFeature | RewardsFeature | AdvancedGamification

  /** The personal fields; `None` is a field that is absent or `null`. */
  datatype PersonalData = PersonalData(
    displayName: Option<string>,
    phone: Option<string>,
    address: Option<string>,
    city: Option<string>,
    state: Option<string>,
    zipCode: Option<string>)

  /** One stored profile. `lastTaskDate` is a day number (the stored timestamp
      is always a midnight); the subscription dates are in milliseconds. The
      plan is optional because a stored document need not carry it. */
  datatype Profile = Profile(
    userId: UserId,
    personal: PersonalData,
    totalPoints: int,
    level: int,
    completedTasks: int,
    currentStreak: int,
    longestStreak: int,
    lastTaskDate: Option<int>,
    unlockedAchievements: seq<string>,
    subscriptionPlan: Option<Plan>,
    subscriptionStartDate: Option<int>,
    subscriptionEndDate: Option<int>)

  /** Points per level. */
  const PointsPerLevel: int := 500

  /** `Math.max(1, Math.floor(total / 500) + 1)`. */
  function LevelFor(total: int): (r: int)
    ensures r >= 1
    ensures total >= 0 ==> (r - 1) * PointsPerLevel <= total < r * PointsPerLevel
    ensures total < PointsPerLevel ==> r == 1
  {
    Max(1, total / PointsPerLevel + 1)
  }

  /** Clamping a negative total at zero, as removal does, gives the level the
      unclamped total gives: every negative total is level 1. */
  lemma LevelOfClampedTotal(total: int)
    ensures LevelFor(Max(0, total)) == LevelFor(total)
  {
  }

  ghost predicate NoDuplicates(s: seq<string>)
  {
    forall i, j :: 0 <= i < j < |s| ==> s[i] != s[j]
  }

  /** What every profile reachable through the helpers satisfies: the level is
      the one the total gives, the streak is positive exactly once a task date
      has been recorded, the longest streak is at least the current one, and no
      achievement is unlocked twice. */
  ghost predicate Consistent(p: Profile)
  {
    && p.level == LevelFor(p.totalPoints)
    && p.currentStreak >= 0
    && (p.lastTaskDate.Some? <==> p.currentStreak >= 1)
    && p.longestStreak >= p.currentStreak
    && NoDuplicates(p.unlockedAchievements)
  }

  const NoPersonalData := PersonalData(None, None, None, None, None, None)

  /** The profile `getUserProfile` creates for a user who has none. */
  function NewProfile(uid: UserId): (p: Profile)
    ensures Consistent(p) && p.userId == uid
    ensures p.totalPoints == 0 && p.level == 1 && p.completedTasks == 0
    ensures p.currentStreak == 0 && p.longestStreak == 0 && p.lastTaskDate == None
    ensures p.unlockedAchievements == [] && p.subscriptionPlan == Some(Basic)
    ensures p.personal == NoPersonalData
    ensures p.subscriptionStartDate == None && p.subscriptionEndDate == None
  {
    Profile(uid, NoPersonalData, 0, 1, 0, 0, 0, None, [], Some(Basic), None, None)
  }

  /** A personal field as `setDoc` receives it: left `undefined`, set to
      `null`, or set to a string. */
  datatype Written = Undefined | Null | Text(text: string)

  /** The six personal fields of the document `getUserProfile` builds for a
      new user, as the code builds them: all left `undefined`. */
  const CreationFieldsAsWritten: seq<Written> := [Undefined, Undefined, Undefined, Undefined, Undefined, Undefined]

  /** The same fields written as `null`, as `updateUserProfileData` writes a
      cleared field. */
  const CreationFieldsCorrected: seq<Written> := [Null, Null, Null, Null, Null, Null]

  /** Firestore's client, opened without `ignoreUndefinedProperties`, refuses
      a document that holds an `undefined` value. */
  predicate SetDocAccepts(fields: seq<Written>)
  {
    forall k :: 0 <= k < |fields| ==> !fields[k].Undefined?
  }

  /** A written field as a later read delivers it: only a string is present. */
  function ReadBack(w: Written): (r: Option<string>)
    ensures r.Some? <==> w.Text?
    ensures r.Some? ==> r.value == w.text
  {
    if w.Text? then Some(w.text) else None
  }

  /** The personal data a later read finds in six written fields. */
  function PersonalOf(fields: seq<Written>): PersonalData
    requires |fields| == 6
  {
    PersonalData(ReadBack(fields[0]), ReadBack(fields[1]), ReadBack(fields[2]),
                 ReadBack(fields[3]), ReadBack(fields[4]), ReadBack(fields[5]))
  }

  /** As written, the creation document carries six `undefined` fields, so the
      store refuses it and no profile is ever created. */
  lemma CreationWriteRefused()
    ensures |CreationFieldsAsWritten| == 6
    ensures forall k :: 0 <= k < 6 ==> CreationFieldsAsWritten[k].Undefined?
    ensures !SetDocAccepts(CreationFieldsAsWritten)
  {
    assert CreationFieldsAsWritten[0].Undefined?;
  }

  /** Written as `null`, the fields are accepted and read back as absent:
      the stored document is the profile `NewProfile` describes. */
  lemma CorrectedCreationStoresNewProfile(uid: UserId)
    ensures SetDocAccepts(CreationFieldsCorrected)
    ensures PersonalOf(CreationFieldsCorrected) == NewProfile(uid).personal
  {
  }

  /** The profile `getUserProfile` returns: the stored one, else a new one. */
  function Fetch(docs: map<UserId, Profile>, uid: UserId): Profile
  {
    if uid in docs then docs[uid] else NewProfile(uid)
  }

  // ---------------------------------------------------------------------------
  // Points, level and the completed-task counter

  /** `addPointsToProfile`: the total rises by `points`, the level follows it. */
  function AddPoints(p: Profile, points: int): Profile
  {
    var total := p.totalPoints + points;
    p.(totalPoints := total, level := LevelFor(total))
  }

  /** `removePointsFromProfile`: the total falls by `points` and may become
      negative; the level is taken from the total clamped at zero. */
  function RemovePoints(p: Profile, points: int): Profile
  {
    var total := p.totalPoints - points;
    p.(totalPoints := total, level := LevelFor(Max(0, total)))
  }

  function IncrementCompleted(p: Profile): Profile
  {
    p.(completedTasks := p.completedTasks + 1)
  }

  function DecrementCompleted(p: Profile): Profile
  {
    p.(completedTasks := p.completedTasks - 1)
  }

  /** Both point operations move the total by exactly the amount given, leave
      the level equal to the level of the new total, and touch nothing else. */
  lemma {:induction false} PointOperations(p: Profile, points: int)
    requires Consistent(p)
    ensures AddPoints(p, points).totalPoints == p.totalPoints + points
    ensures RemovePoints(p, points).totalPoints == p.totalPoints - points
    ensures Consistent(AddPoints(p, points)) && Consistent(RemovePoints(p, points))
    ensures AddPoints(p, points).(totalPoints := p.totalPoints, level := p.level) == p
    ensures RemovePoints(p, points).(totalPoints := p.totalPoints, level := p.level) == p
  {
    LevelOfClampedTotal(p.totalPoints - points);
  }

  /** Removing what was added restores the profile, level included. */
  lemma {:induction false} RemoveUndoesAdd(p: Profile, points: int)
    requires Consistent(p)
    ensures RemovePoints(AddPoints(p, points), points) == p
  {
    LevelOfClampedTotal(p.totalPoints);
  }

  /** The counter operations change the counter by one and nothing else, keep
      the profile consistent, and undo each other. */
  lemma CounterOperations(p: Profile)
    requires Consistent(p)
    ensures IncrementCompleted(p).completedTasks == p.completedTasks + 1
    ensures DecrementCompleted(p).completedTasks == p.completedTasks - 1
    ensures Consistent(IncrementCompleted(p)) && Consistent(DecrementCompleted(p))
    ensures DecrementCompleted(IncrementCompleted(p)) == p
  {
  }

  // ---------------------------------------------------------------------------
  // Streak

  /** The streak `updateStreak` computes for a task dated `taskDay` completed
      on day `today`. */
  function NextStreak(p: Profile, taskDay: int, today: int): int
  {
    if p.lastTaskDate.None? then 1                      // first task ever
    else if taskDay == today then
      if p.lastTaskDate.value == today - 1 then p.currentStreak + 1
      else if p.lastTaskDate.value == today then p.currentStreak
      else 1
    else p.currentStreak                                 // another day's task
  }

  /** `updateStreak` on an existing profile: `taskDate` and `now` are
      timestamps; both are reduced to their day. */
  function StreakUpdate(p: Profile, taskDate: int, now: int): Profile
  {
    var taskDay := Day(taskDate);
    var newStreak := NextStreak(p, taskDay, Day(now));
    var newLongest := if newStreak > p.longestStreak then newStreak else p.longestStreak;
    p.(currentStreak := newStreak, longestStreak := newLongest, lastTaskDate := Some(taskDay))
  }

  /** The streak transition table, the running maximum, the recorded date, and
      that nothing else changes. */
  lemma {:induction false} StreakTransitions(p: Profile, taskDate: int, now: int)
    ensures var r := StreakUpdate(p, taskDate, now);
      && (p.lastTaskDate.None? ==> r.currentStreak == 1)
      && (p.lastTaskDate.Some? && Day(taskDate) == Day(now) ==>
            r.currentStreak == (if p.lastTaskDate.value == Day(now) - 1 then p.currentStreak + 1
                                else if p.lastTaskDate.value == Day(now) then p.currentStreak
                                else 1))
      && (p.lastTaskDate.Some? && Day(taskDate) != Day(now) ==> r.currentStreak == p.currentStreak)
      && r.longestStreak == Max(p.longestStreak, r.currentStreak)
      && r.longestStreak >= p.longestStreak
      && r.lastTaskDate == Some(Day(taskDate))
      && r.(currentStreak := p.currentStreak, longestStreak := p.longestStreak,
            lastTaskDate := p.lastTaskDate) == p
  {
  }

  /** The streak update keeps a profile consistent. */
  lemma {:induction false} StreakKeepsConsistent(p: Profile, taskDate: int, now: int)
    requires Consistent(p)
    ensures Consistent(StreakUpdate(p, taskDate, now))
  {
    var r := StreakUpdate(p, taskDate, now);
    assert r.currentStreak >= 1;
  }

  /** Completing one task dated each day of `days`, each on its own day. */
  function StreakOverDays(p: Profile, days: seq<int>): Profile
  {
    if days == [] then p
    else
      var last := days[|days| - 1] * DayMs;
      StreakUpdate(StreakOverDays(p, days[..|days| - 1]), last, last)
  }

  ghost predicate Consecutive(days: seq<int>)
  {
    forall k :: 0 < k < |days| ==> days[k] == days[k - 1] + 1
  }

  /** A user with no recorded task who completes a task on each of n
      consecutive days has a streak of n, and a longest streak of at least n. */
  lemma {:induction false} ConsecutiveDaysBuildStreak(p: Profile, days: seq<int>)
    requires p.lastTaskDate.None?
    requires Consecutive(days)
    ensures var r := StreakOverDays(p, days);
      days != [] ==>
        r.currentStreak == |days| && r.longestStreak >= |days| && r.lastTaskDate == Some(days[|days| - 1])
  {
    if |days| > 1 {
      var init := days[..|days| - 1];
      ConsecutiveDaysBuildStreak(p, init);
      var last := days[|days| - 1];
      assert Day(last * DayMs) == last;
      assert init[|init| - 1] == days[|days| - 2];
    } else if |days| == 1 {
      assert days[..0] == [];
    }
  }

  /** A day skipped resets the streak to one, whatever it was. */
  lemma GapResetsStreak(p: Profile, lastDay: int, today: int)
    requires p.lastTaskDate == Some(lastDay) && lastDay < today - 1
    ensures StreakUpdate(p, today * DayMs, today * DayMs).currentStreak == 1
  {
  }

  /** As written, a task dated another day keeps the streak but records its
      own day as the last one. The day after a completion, a task dated
      neither today nor yesterday (an overdue or a future one) followed by
      today's task gives a streak of 1, where today's task alone extends it. */
  lemma {:induction false} OtherDayTaskBreaksStreak(p: Profile, other: int, task: int, now: int)
    requires p.lastTaskDate == Some(Day(now) - 1)
    requires Day(other) != Day(now) && Day(other) != Day(now) - 1
    requires Day(task) == Day(now)
    ensures StreakUpdate(p, task, now).currentStreak == p.currentStreak + 1
    ensures StreakUpdate(p, other, now).currentStreak == p.currentStreak
    ensures StreakUpdate(StreakUpdate(p, other, now), task, now).currentStreak == 1
  {
    StreakTransitions(p, task, now);
    StreakTransitions(p, other, now);
    StreakTransitions(StreakUpdate(p, other, now), task, now);
  }

  /** As written, a first task ever starts a streak of 1 whatever day it is
      dated. */
  lemma FirstTaskOnOtherDayStartsStreak(p: Profile, other: int, now: int)
    requires p.lastTaskDate.None? && Day(other) != Day(now)
    ensures StreakUpdate(p, other, now).currentStreak == 1
    ensures StreakUpdate(p, other, now).lastTaskDate == Some(Day(other))
  {
  }

  /** The update as designed: a task dated another day does not touch the
      streak or the recorded day; a task dated today is counted as before. */
  function IntendedStreakUpdate(p: Profile, taskDate: int, now: int): (r: Profile)
    ensures r.lastTaskDate == p.lastTaskDate || r.lastTaskDate == Some(Day(now))
    ensures r.currentStreak != p.currentStreak || r.lastTaskDate != p.lastTaskDate ==> Day(taskDate) == Day(now)
    ensures Consistent(p) ==> Consistent(r)
  {
    if Day(taskDate) != Day(now) then p
    else
      StreakKeepsConsistentIf(p, taskDate, now);
      StreakUpdate(p, taskDate, now)
  }

  lemma StreakKeepsConsistentIf(p: Profile, taskDate: int, now: int)
    ensures Consistent(p) ==> Consistent(StreakUpdate(p, taskDate, now))
  {
    if Consistent(p) {
      StreakKeepsConsistent(p, taskDate, now);
    }
  }

  /** Under the intended update, a task dated another day changes nothing any
      later task's streak depends on, and the scenario above extends the
      streak. */
  lemma {:induction false} OtherDayTaskLeavesStreakAlone(p: Profile, other: int, task: int, now: int, later: int)
    requires Day(other) != Day(now)
    ensures IntendedStreakUpdate(IntendedStreakUpdate(p, other, now), task, later)
      == IntendedStreakUpdate(p, task, later)
    ensures p.lastTaskDate == Some(Day(now) - 1) && Day(task) == Day(now) && later == now ==>
      IntendedStreakUpdate(IntendedStreakUpdate(p, other, now), task, now).currentStreak == p.currentStreak + 1
  {
    assert IntendedStreakUpdate(p, other, now) == p;
  }

  // ---------------------------------------------------------------------------
  // Achievements

  datatype Counter = TasksCounter | StreakCounter

  /** One entry of the unlock table: the counter it watches, the threshold and
      the bonus points it awards. */
  datatype Achievement = Achievement(id: string, required: int, points: int, counter: Counter)

  /** The fixed table `checkAndUnlockAchievements` walks, in its order. */
  const Achievements: seq<Achievement> := [
    Achievement("first-task", 1, 50, TasksCounter),
    Achievement("task-master", 10, 200, TasksCounter),
    Achievement("dedication", 25, 500, TasksCounter),
    Achievement("perfectionist", 50, 1000, TasksCounter),
    Achievement("legend", 100, 2500, TasksCounter),
    Achievement("streak", 7, 300, StreakCounter)
  ]

  lemma AchievementIdsDistinct()
    ensures DistinctIds(Achievements)
  {
  }

  /** The unlock condition: the streak for the streak entry, the completed-task
      counter for the others. */
  predicate Met(a: Achievement, completedTasks: int, currentStreak: int)
  {
    if a.counter == StreakCounter then currentStreak >= a.required
    else completedTasks >= a.required
  }

  /** The entries of `table`, in order, whose condition holds and whose id is
      not in `unlocked`. */
  function Eligible(unlocked: seq<string>, table: seq<Achievement>,
                    completedTasks: int, currentStreak: int): (r: seq<Achievement>)
    ensures |r| <= |table|
    ensures forall a :: a in r ==> a in table && Met(a, completedTasks, currentStreak) && a.id !in unlocked
    ensures forall k :: 0 <= k < |table| ==>
      (Met(table[k], completedTasks, currentStreak) && table[k].id !in unlocked ==> table[k] in r)
  {
    if table == [] then []
    else
      var a := table[|table| - 1];
      var init := Eligible(unlocked, table[..|table| - 1], completedTasks, currentStreak);
      if Met(a, completedTasks, currentStreak) && a.id !in unlocked then init + [a] else init
  }

  /** Selection keeps table order: the entries chosen from `a + b` are those
      chosen from `a` followed by those chosen from `b`. */
  lemma {:induction false} EligibleKeepsTableOrder(unlocked: seq<string>, a: seq<Achievement>, b: seq<Achievement>,
                                                   c: int, s: int)
    ensures Eligible(unlocked, a + b, c, s) == Eligible(unlocked, a, c, s) + Eligible(unlocked, b, c, s)
  {
    if b == [] {
      assert a + b == a;
    } else {
      var init, x := b[..|b| - 1], b[|b| - 1];
      var last := if Met(x, c, s) && x.id !in unlocked then [x] else [];
      assert Eligible(unlocked, a + b, c, s) == Eligible(unlocked, a + init, c, s) + last by {
        assert (a + b)[..|a + b| - 1] == a + init;
      }
      EligibleKeepsTableOrder(unlocked, a, init, c, s);
    }
  }

  /** A single entry is chosen exactly when it is met and not yet unlocked. */
  lemma EligibleOfOne(unlocked: seq<string>, x: Achievement, c: int, s: int)
    ensures Eligible(unlocked, [x], c, s) == if Met(x, c, s) && x.id !in unlocked then [x] else []
  {
    assert [x][..0] == [];
  }

  function Ids(entries: seq<Achievement>): (r: seq<string>)
    ensures |r| == |entries| && forall k :: 0 <= k < |entries| ==> r[k] == entries[k].id
  {
    seq(|entries|, k requires 0 <= k < |entries| => entries[k].id)
  }

  function SumPoints(entries: seq<Achievement>): int
  {
    if entries == [] then 0 else SumPoints(entries[..|entries| - 1]) + entries[|entries| - 1].points
  }

  /** `unlockAchievement`: the id is appended unless it is already there. */
  function Unlock(p: Profile, id: string): Profile
  {
    if id in p.unlockedAchievements then p
    else p.(unlockedAchievements := p.unlockedAchievements + [id])
  }

  /** Unlocking never loses an id and never adds a duplicate. */
  lemma UnlockKeepsSet(p: Profile, id: string)
    requires NoDuplicates(p.unlockedAchievements)
    ensures var u := Unlock(p, id).unlockedAchievements;
      && NoDuplicates(u) && id in u && (forall x :: x in p.unlockedAchievements ==> x in u)
      && (forall x :: x in u ==> x in p.unlockedAchievements || x == id)
  {
  }

  /** The profile after `checkAndUnlockAchievements` has walked the entries of
      `table` in order: an entry whose condition holds and whose id the profile
      (as it stands at that point) lacks is unlocked, then its bonus is added
      by `addPointsToProfile`. */
  function UnlockOver(p: Profile, table: seq<Achievement>, completedTasks: int, currentStreak: int): Profile
  {
    if table == [] then p
    else
      var q := UnlockOver(p, table[..|table| - 1], completedTasks, currentStreak);
      var a := table[|table| - 1];
      if Met(a, completedTasks, currentStreak) && a.id !in q.unlockedAchievements
      then AddPoints(Unlock(q, a.id), a.points)
      else q
  }

  /** The profile `checkAndUnlockAchievements` leaves. */
  function ApplyUnlocks(p: Profile, completedTasks: int, currentStreak: int): Profile
  {
    UnlockOver(p, Achievements, completedTasks, currentStreak)
  }

  /** The ids `checkAndUnlockAchievements` is meant to return: the table's
      entries, in order, that are met and were not unlocked before. */
  function NewlyUnlocked(p: Profile, completedTasks: int, currentStreak: int): seq<string>
  {
    Ids(Eligible(p.unlockedAchievements, Achievements, completedTasks, currentStreak))
  }

  ghost predicate DistinctIds(table: seq<Achievement>)
  {
    forall i, j :: 0 <= i < j < |table| ==> table[i].id != table[j].id
  }

  /** A profile credited at once with the entries `e`: their ids appended
      after the old ones, their bonuses added, and the level of the new total
      (the level is left alone when nothing is credited). */
  function Credited(p: Profile, e: seq<Achievement>): Profile
  {
    if e == [] then p
    else
      var total := p.totalPoints + SumPoints(e);
      p.(unlockedAchievements := p.unlockedAchievements + Ids(e), totalPoints := total, level := LevelFor(total))
  }

  /** Crediting one more entry, whose id is not yet there, is what one unlock
      followed by one bonus does. */
  lemma CreditStep(p: Profile, e0: seq<Achievement>, a: Achievement)
    requires a.id !in p.unlockedAchievements + Ids(e0)
    ensures AddPoints(Unlock(Credited(p, e0), a.id), a.points) == Credited(p, e0 + [a])
  {
    var e := e0 + [a];
    assert e[..|e| - 1] == e0;
    assert Ids(e) == Ids(e0) + [a.id];
  }

  lemma DistinctIdsOfPrefix(table: seq<Achievement>)
    requires DistinctIds(table) && table != []
    ensures DistinctIds(table[..|table| - 1])
  {
    var init := table[..|table| - 1];
    forall i, j | 0 <= i < j < |init| ensures init[i].id != init[j].id {
      assert init[i] == table[i] && init[j] == table[j];
    }
  }

  /** In a table with distinct ids, the last entry's id is not among the ids
      selected from the entries before it. */
  lemma LastIdFresh(unlocked: seq<string>, table: seq<Achievement>, c: int, s: int)
    requires DistinctIds(table) && table != []
    ensures table[|table| - 1].id !in Ids(Eligible(unlocked, table[..|table| - 1], c, s))
  {
    var n := |table|;
    var init := table[..n - 1];
    var e0 := Eligible(unlocked, init, c, s);
    forall j | 0 <= j < |e0|
      ensures e0[j].id != table[n - 1].id
    {
      assert e0[j] in e0;
      var k :| 0 <= k < |init| && init[k] == e0[j];
      assert table[k] == init[k];
    }
  }

  /** Walking a table with distinct ids one entry at a time comes to the same
      as crediting all the eligible entries at once: an id appended earlier
      never makes a later entry look unlocked. */
  lemma {:induction false} UnlockOverCredits(p: Profile, table: seq<Achievement>, c: int, s: int)
    requires DistinctIds(table)
    ensures UnlockOver(p, table, c, s) == Credited(p, Eligible(p.unlockedAchievements, table, c, s))
  {
    if table != [] {
      var n := |table|;
      var init := table[..n - 1];
      var a := table[n - 1];
      DistinctIdsOfPrefix(table);
      UnlockOverCredits(p, init, c, s);
      var e0 := Eligible(p.unlockedAchievements, init, c, s);
      LastIdFresh(p.unlockedAchievements, table, c, s);
      if Met(a, c, s) && a.id !in p.unlockedAchievements {
        CreditStep(p, e0, a);
      }
    }
  }

  /** The closed form field by field: the eligible ids appended, their bonuses
      added, the level of the new total, and nothing else changed. */
  lemma {:induction false} UnlockOverClosedForm(p: Profile, table: seq<Achievement>, c: int, s: int)
    requires DistinctIds(table)
    ensures var r := UnlockOver(p, table, c, s);
      var e := Eligible(p.unlockedAchievements, table, c, s);
      && r.unlockedAchievements == p.unlockedAchievements + Ids(e)
      && r.totalPoints == p.totalPoints + SumPoints(e)
      && r.level == (if e == [] then p.level else LevelFor(r.totalPoints))
      && r.(unlockedAchievements := p.unlockedAchievements, totalPoints := p.totalPoints,
            level := p.level) == p
  {
    UnlockOverCredits(p, table, c, s);
    var e := Eligible(p.unlockedAchievements, table, c, s);
    if e == [] {
      assert Ids(e) == [];
      assert p.unlockedAchievements + Ids(e) == p.unlockedAchievements;
    }
  }

  /** One more entry walked: the step the unlock loop takes. */
  lemma UnlockOverStep(p: Profile, table: seq<Achievement>, i: nat, c: int, s: int)
    requires i < |table|
    ensures var q := UnlockOver(p, table[..i], c, s);
      var a := table[i];
      UnlockOver(p, table[..i + 1], c, s) ==
        if Met(a, c, s) && a.id !in q.unlockedAchievements then AddPoints(Unlock(q, a.id), a.points) else q
  {
    assert table[..i + 1][..i] == table[..i];
  }

  lemma {:induction false} EligibleIdsDistinct(unlocked: seq<string>, table: seq<Achievement>, c: int, s: int)
    requires DistinctIds(table)
    ensures NoDuplicates(Ids(Eligible(unlocked, table, c, s)))
  {
    if table != [] {
      var n := |table|;
      var init := table[..n - 1];
      DistinctIdsOfPrefix(table);
      EligibleIdsDistinct(unlocked, init, c, s);
      LastIdFresh(unlocked, table, c, s);
      var e0 := Eligible(unlocked, init, c, s);
      var a := table[n - 1];
      if Met(a, c, s) && a.id !in unlocked {
        var ids := Ids(e0) + [a.id];
        assert Ids(e0 + [a]) == ids;
        forall i, j | 0 <= i < j < |ids| ensures ids[i] != ids[j] {
          if j == |ids| - 1 {
            assert ids[i] == Ids(e0)[i];
          } else {
            assert ids[i] == Ids(e0)[i] && ids[j] == Ids(e0)[j];
          }
        }
      }
    }
  }

  /** Entries past position `m` whose condition does not hold select nothing. */
  lemma {:induction false} EligibleIgnoresUnmet(unlocked: seq<string>, table: seq<Achievement>, m: nat, c: int, s: int)
    requires m <= |table|
    requires forall k :: m <= k < |table| ==> !Met(table[k], c, s)
    ensures Eligible(unlocked, table, c, s) == Eligible(unlocked, table[..m], c, s)
    decreases |table|
  {
    if |table| > m {
      var init := table[..|table| - 1];
      assert init[..m] == table[..m];
      assert forall k :: m <= k < |init| ==> init[k] == table[k];
      EligibleIgnoresUnmet(unlocked, init, m, c, s);
    } else {
      assert table[..m] == table;
    }
  }

  /** `checkAndUnlockAchievements` appends to the unlocked list exactly the
      ids it is meant to return, and adds exactly their bonuses, one each: the
      old ids stay in place, no id appears twice, the level follows the total,
      and no other field changes. */
  lemma {:induction false} UnlocksAddEachBonusOnce(p: Profile, c: int, s: int)
    requires Consistent(p)
    ensures var r := ApplyUnlocks(p, c, s);
      var e := Eligible(p.unlockedAchievements, Achievements, c, s);
      && r.unlockedAchievements == p.unlockedAchievements + NewlyUnlocked(p, c, s)
      && r.totalPoints == p.totalPoints + SumPoints(e)
      && Consistent(r)
      && r.(unlockedAchievements := p.unlockedAchievements, totalPoints := p.totalPoints,
            level := p.level) == p
  {
    AchievementIdsDistinct();
    UnlockOverClosedForm(p, Achievements, c, s);
    EligibleIdsDistinct(p.unlockedAchievements, Achievements, c, s);
    var e := Eligible(p.unlockedAchievements, Achievements, c, s);
    var u := p.unlockedAchievements + Ids(e);
    forall i, j | 0 <= i < j < |u| ensures u[i] != u[j] {
      if j >= |p.unlockedAchievements| {
        var k := j - |p.unlockedAchievements|;
        assert e[k] in e;
      }
    }
  }

  /** The ids the walk appended to the profile's list are the ones it is
      meant to return. */
  lemma WalkReturnsNewlyUnlocked(p: Profile, c: int, s: int, appended: seq<string>)
    requires ApplyUnlocks(p, c, s).unlockedAchievements == p.unlockedAchievements + appended
    ensures appended == NewlyUnlocked(p, c, s)
  {
    AchievementIdsDistinct();
    UnlockOverClosedForm(p, Achievements, c, s);
    var u0 := p.unlockedAchievements;
    assert appended == (u0 + appended)[|u0|..];
    assert NewlyUnlocked(p, c, s) == (u0 + NewlyUnlocked(p, c, s))[|u0|..];
  }

  /** After the check, every achievement whose condition the counters meet is
      unlocked, and every unlocked id was unlocked before or is met now. */
  lemma {:induction false} UnlockedAfterCheck(p: Profile, c: int, s: int)
    ensures var u := ApplyUnlocks(p, c, s).unlockedAchievements;
      && (forall k :: 0 <= k < |Achievements| && Met(Achievements[k], c, s) ==> Achievements[k].id in u)
      && (forall x :: x in u ==> (x in p.unlockedAchievements ||
            exists k :: 0 <= k < |Achievements| && Achievements[k].id == x && Met(Achievements[k], c, s)))
  {
    AchievementIdsDistinct();
    UnlockOverClosedForm(p, Achievements, c, s);
    var e := Eligible(p.unlockedAchievements, Achievements, c, s);
    var u := ApplyUnlocks(p, c, s).unlockedAchievements;
    forall k | 0 <= k < |Achievements| && Met(Achievements[k], c, s)
      ensures Achievements[k].id in u
    {
      if Achievements[k].id !in p.unlockedAchievements {
        var j :| 0 <= j < |e| && e[j] == Achievements[k];
        assert Ids(e)[j] == Achievements[k].id;
      }
    }
    forall x | x in u && x !in p.unlockedAchievements
      ensures exists k :: 0 <= k < |Achievements| && Achievements[k].id == x && Met(Achievements[k], c, s)
    {
      var j :| 0 <= j < |Ids(e)| && Ids(e)[j] == x;
      assert e[j] in e;
      var k :| 0 <= k < |Achievements| && Achievements[k] == e[j];
    }
  }

  /** Once the achievements have been checked against some counters, checking
      again against the same counters unlocks nothing and awards nothing: each
      bonus is paid once. */
  lemma {:induction false} UnlocksIdempotent(p: Profile, c: int, s: int)
    ensures var r := ApplyUnlocks(p, c, s);
      NewlyUnlocked(r, c, s) == [] && ApplyUnlocks(r, c, s) == r
  {
    var r := ApplyUnlocks(p, c, s);
    UnlockedAfterCheck(p, c, s);
    AchievementIdsDistinct();
    UnlockOverClosedForm(r, Achievements, c, s);
  }

  // ---------------------------------------------------------------------------
  // Subscription

  /** `isSubscriptionActive`: the basic plan always; otherwise an end date that
      lies after `now` (milliseconds). */
  predicate IsSubscriptionActive(p: Profile, now: int)
  {
    if p.subscriptionPlan == Some(Basic) then true
    else if p.subscriptionEndDate.None? then false
    else p.subscriptionEndDate.value > now
  }

  /** `hasFeatureAccess`. */
  predicate HasFeatureAccess(p: Profile, f: Feature, now: int)
  {
    if !IsSubscriptionActive(p, now) && p.subscriptionPlan == Some(Premium) then false
    else if p.subscriptionPlan == Some(Basic) then f == PlannerFeature || f == RewardsFeature
    else true
  }

  /** The access matrix: basic gets the planner and the rewards only, an active
      premium everything, an expired premium nothing. */
  lemma FeatureAccessMatrix(p: Profile, f: Feature, now: int)
    ensures p.subscriptionPlan == Some(Basic) ==>
      IsSubscriptionActive(p, now) && (HasFeatureAccess(p, f, now) <==> f in {PlannerFeature, RewardsFeature})
    ensures p.subscriptionPlan == Some(Premium) ==>
      (IsSubscriptionActive(p, now) <==> p.subscriptionEndDate.Some? && p.subscriptionEndDate.value > now)
      && (HasFeatureAccess(p, f, now) <==> IsSubscriptionActive(p, now))
  {
  }

  /** A document that holds no plan at all is granted every feature, although
      `getCurrentPlan` reports such a user as basic. */
  lemma MissingPlanGrantsEverything(p: Profile, f: Feature, now: int)
    requires p.subscriptionPlan.None?
    ensures HasFeatureAccess(p, f, now)
  {
  }

  /** `updateSubscriptionPlan`: plan, start and end dates are overwritten; the
      end date (a calendar computation) is given. */
  function SetPlan(p: Profile, plan: Plan, now: int, endDate: int): Profile
  {
    p.(subscriptionPlan := Some(plan), subscriptionStartDate := Some(now), subscriptionEndDate := Some(endDate))
  }

  lemma PlanChangeActivation(p: Profile, plan: Plan, now: int, endDate: int, later: int)
    ensures var r := SetPlan(p, plan, now, endDate);
      Consistent(p) ==> Consistent(r)
    ensures IsSubscriptionActive(SetPlan(p, plan, now, endDate), later) <==> plan == Basic || endDate > later
  {
  }

  // ---------------------------------------------------------------------------
  // Personal data

  /** The argument of `updateUserProfileData`: `None` is `undefined`. */
  datatype PersonalUpdate = PersonalUpdate(
    displayName: Option<string>,
    phone: Option<string>,
    address: Option<string>,
    city: Option<string>,
    state: Option<string>,
    zipCode: Option<string>)

  /** One field of `updateUserProfileData`: `undefined` is not written, an
      empty string is written as `null`, anything else as given. */
  function UpdateField(stored: Option<string>, given: Option<string>): (r: Option<string>)
    ensures given.None? ==> r == stored
    ensures given.Some? ==> (r.None? <==> given.value == "")
    ensures r.Some? ==> r == stored || r == given
    ensures given.Some? && given.value != "" ==> r == given
  {
    match given
    case None => stored
    case Some(v) => if v == "" then None else Some(v)
  }

  function UpdatePersonal(p: Profile, d: PersonalUpdate): Profile
  {
    var q := p.personal;
    p.(personal := PersonalData(
      UpdateField(q.displayName, d.displayName),
      UpdateField(q.phone, d.phone),
      UpdateField(q.address, d.address),
      UpdateField(q.city, d.city),
      UpdateField(q.state, d.state),
      UpdateField(q.zipCode, d.zipCode)))
  }

  // ---------------------------------------------------------------------------
  // The collection

  /** The `userProfiles` collection: one document per user id. */
  class ProfileStore {
    var docs: map<UserId, Profile>

    ghost predicate Valid()
      reads this
    {
      forall uid :: uid in docs ==> Consistent(docs[uid])
    }

    constructor ()
      ensures docs == map[] && Valid()
    {
      docs := map[];
    }

    /** `getUserProfile`: the stored profile, or a new one, stored. */
    method GetUserProfile(uid: UserId) returns (p: Profile)
      modifies this
      ensures p == Fetch(old(docs), uid)
      ensures docs == old(docs)[uid := p]
      ensures old(Valid()) ==> Valid()
    {
      if uid in docs {
        p := docs[uid];
      } else {
        p := NewProfile(uid);
        docs := docs[uid := p];
      }
    }

    /** `addPointsToProfile`, creating the profile first if it is missing. */
    method AddPointsToProfile(uid: UserId, points: int)
      modifies this
      ensures docs == old(docs)[uid := AddPoints(Fetch(old(docs), uid), points)]
      ensures old(Valid()) ==> Valid()
    {
      var profile := GetUserProfile(uid);
      var newTotal := profile.totalPoints + points;
      var newLevel := Max(1, newTotal / PointsPerLevel + 1);
      docs := docs[uid := profile.(totalPoints := newTotal, level := newLevel)];
      if old(Valid()) {
        PointOperations(profile, points);
      }
    }

    /** `removePointsFromProfile`; it fails (reads a missing document) when
      the user has no profile, and then nothing is written. */
    method RemovePointsFromProfile(uid: UserId, points: int) returns (ok: bool)
      modifies this
      ensures ok == (uid in old(docs))
      ensures docs == if ok then old(docs)[uid := RemovePoints(old(docs)[uid], points)] else old(docs)
      ensures old(Valid()) ==> Valid()
    {
      if uid !in docs {
        return false;
      }
      var profile := docs[uid];
      var newTotal := Max(0, profile.totalPoints - points);
      var newLevel := Max(1, newTotal / PointsPerLevel + 1);
      docs := docs[uid := profile.(totalPoints := profile.totalPoints - points, level := newLevel)];
      if old(Valid()) {
        PointOperations(profile, points);
      }
      ok := true;
    }

    /** `incrementCompletedTasks`, creating the profile first if it is missing. */
    method IncrementCompletedTasks(uid: UserId)
      modifies this
      ensures docs == old(docs)[uid := IncrementCompleted(Fetch(old(docs), uid))]
      ensures old(Valid()) ==> Valid()
    {
      var profile := GetUserProfile(uid);
      docs := docs[uid := profile.(completedTasks := profile.completedTasks + 1)];
    }

    /** `decrementCompletedTasks`; the update of a missing document fails. */
    method DecrementCompletedTasks(uid: UserId) returns (ok: bool)
      modifies this
      ensures ok == (uid in old(docs))
      ensures docs == if ok then old(docs)[uid := DecrementCompleted(old(docs)[uid])] else old(docs)
      ensures old(Valid()) ==> Valid()
    {
      if uid !in docs {
        return false;
      }
      docs := docs[uid := docs[uid].(completedTasks := docs[uid].completedTasks - 1)];
      ok := true;
    }

    /** `updateStreak`: a missing profile is created and left as created. */
    method UpdateStreak(uid: UserId, taskDate: int, now: int)
      modifies this
      ensures docs == old(docs)[uid := if uid in old(docs) then StreakUpdate(old(docs)[uid], taskDate, now)
                                       else NewProfile(uid)]
      ensures old(Valid()) ==> Valid()
    {
      if uid !in docs {
        var _ := GetUserProfile(uid);
        return;
      }
      var profile := docs[uid];
      var today := Day(now);
      var taskDateOnly := Day(taskDate);
      var yesterday := today - 1;
      var newStreak := profile.currentStreak;
      var newLongestStreak := profile.longestStreak;
      if profile.lastTaskDate.None? {
        newStreak := 1;
      } else {
        var lastTaskDate := profile.lastTaskDate.value;
        if taskDateOnly == today {
          if lastTaskDate == yesterday {
            newStreak := profile.currentStreak + 1;
          } else if lastTaskDate == today {
            newStreak := profile.currentStreak;
          } else {
            newStreak := 1;
          }
        } else {
          newStreak := profile.currentStreak;
        }
      }
      if newStreak > profile.longestStreak {
        newLongestStreak := newStreak;
      }
      docs := docs[uid := profile.(currentStreak := newStreak, longestStreak := newLongestStreak,
                                   lastTaskDate := Some(taskDateOnly))];
      if old(Valid()) {
        StreakKeepsConsistent(profile, taskDate, now);
      }
    }

    /** `unlockAchievement`. With no stored profile the helper creates one and
      then fails reading the snapshot it took before. */
    method UnlockAchievement(uid: UserId, id: string) returns (ok: bool)
      modifies this
      ensures ok == (uid in old(docs))
      ensures docs == old(docs)[uid := if ok then Unlock(old(docs)[uid], id) else NewProfile(uid)]
      ensures old(Valid()) ==> Valid()
    {
      if uid !in docs {
        var _ := GetUserProfile(uid);
        return false;
      }
      var profile := docs[uid];
      if id !in profile.unlockedAchievements {
        docs := docs[uid := profile.(unlockedAchievements := profile.unlockedAchievements + [id])];
      }
      ok := true;
      if old(Valid()) {
        UnlockKeepsSet(profile, id);
      }
    }

    /** The loop of `checkAndUnlockAchievements` over the entries of `table`:
      for each entry whose condition holds on the counters given and whose id
      the profile lacks, unlocks it and adds its bonus. Returns those ids. */
    method UnlockWalk(uid: UserId, table: seq<Achievement>, completedTasks: int, currentStreak: int)
      returns (newlyUnlocked: seq<string>)
      requires uid in docs
      modifies this
      ensures docs == old(docs)[uid := UnlockOver(old(docs)[uid], table, completedTasks, currentStreak)]
      ensures docs[uid].unlockedAchievements == old(docs)[uid].unlockedAchievements + newlyUnlocked
    {
      var profile := docs[uid];
      ghost var p0 := profile;
      newlyUnlocked := [];
      var i := 0;
      while i < |table|
        invariant 0 <= i <= |table|
        invariant profile == UnlockOver(p0, table[..i], completedTasks, currentStreak)
        invariant docs == old(docs)[uid := profile]
        invariant profile.unlockedAchievements == p0.unlockedAchievements + newlyUnlocked
      {
        var achievement := table[i];
        var condition := if achievement.counter == StreakCounter then currentStreak >= achievement.required
                         else completedTasks >= achievement.required;
        var alreadyUnlocked := achievement.id in profile.unlockedAchievements;
        UnlockOverStep(p0, table, i, completedTasks, currentStreak);
        if condition && !alreadyUnlocked {
          var ok := UnlockAchievement(uid, achievement.id);
          AddPointsToProfile(uid, achievement.points);
          profile := docs[uid];
          newlyUnlocked := newlyUnlocked + [achievement.id];
        }
        i := i + 1;
      }
      assert table[..i] == table;
    }

    /** `checkAndUnlockAchievements`: walks the achievement table in order and
      returns the ids it unlocked. A missing profile is created and nothing
      is unlocked. */
    method CheckAndUnlockAchievements(uid: UserId, completedTasks: int, currentStreak: int)
      returns (newlyUnlocked: seq<string>)
      modifies this
      ensures uid !in old(docs) ==> newlyUnlocked == [] && docs == old(docs)[uid := NewProfile(uid)]
      ensures uid in old(docs) ==>
        && newlyUnlocked == NewlyUnlocked(old(docs)[uid], completedTasks, currentStreak)
        && docs == old(docs)[uid := ApplyUnlocks(old(docs)[uid], completedTasks, currentStreak)]
      ensures old(Valid()) ==> Valid()
    {
      if uid !in docs {
        var _ := GetUserProfile(uid);
        return [];
      }
      ghost var p0 := docs[uid];
      newlyUnlocked := UnlockWalk(uid, Achievements, completedTasks, currentStreak);
      WalkReturnsNewlyUnlocked(p0, completedTasks, currentStreak, newlyUnlocked);
      if old(Valid()) {
        UnlocksAddEachBonusOnce(p0, completedTasks, currentStreak);
      }
    }

    /** `updateSubscriptionPlan`, with the computed end date given. */
    method UpdateSubscriptionPlan(uid: UserId, plan: Plan, now: int, endDate: int)
      modifies this
      ensures docs == old(docs)[uid := SetPlan(Fetch(old(docs), uid), plan, now, endDate)]
      ensures old(Valid()) ==> Valid()
    {
      var profile := GetUserProfile(uid);
      docs := docs[uid := SetPlan(profile, plan, now, endDate)];
    }

    /** `updateUserProfileData`, creating the profile first if it is missing. */
    method UpdateUserProfileData(uid: UserId, data: PersonalUpdate)
      modifies this
      ensures docs == old(docs)[uid := UpdatePersonal(Fetch(old(docs), uid), data)]
      ensures old(Valid()) ==> Valid()
    {
      var profile := GetUserProfile(uid);
      docs := docs[uid := UpdatePersonal(profile, data)];
    }
  }
}
