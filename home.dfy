/** The dashboard's derived values: the five upcoming open tasks, computed
    from the open-tasks query or, when that query fails, from all the user's
    tasks; and how many points are left to the next level
    (client/src/pages/Home.tsx). */
module Home {
  import opened Basics
  import opened UserProfile
  import opened Planner

  /** How many upcoming tasks the dashboard lists. */
  const UpcomingLimit: int := 5

  ghost predicate SortedByDate(s: seq<Task>)
  {
    forall i, j :: 0 <= i < j < |s| ==> s[i].date <= s[j].date
  }

  /** Inserts `t` before the first task of `s` dated at or after it, so that
      tasks with equal dates keep their order. */
  function InsertByDate(t: Task, s: seq<Task>): (r: seq<Task>)
    ensures multiset(r) == multiset(s) + multiset{t}
    ensures forall x :: x in r <==> x == t || x in s
  {
    if s == [] then [t]
    else if t.date <= s[0].date then [t] + s
    else
      assert s == [s[0]] + s[1..];
      [s[0]] + InsertByDate(t, s[1..])
  }

  lemma {:induction false} InsertKeepsSorted(t: Task, s: seq<Task>)
    requires SortedByDate(s)
    ensures SortedByDate(InsertByDate(t, s))
  {
    if s != [] && t.date > s[0].date {
      var rest := InsertByDate(t, s[1..]);
      InsertKeepsSorted(t, s[1..]);
      forall k | 0 <= k < |rest|
        ensures s[0].date <= rest[k].date
      {
        assert rest[k] in rest;
        if rest[k] != t {
          var j :| 0 <= j < |s[1..]| && s[1..][j] == rest[k];
          assert s[j + 1] == rest[k];
        }
      }
      var r := [s[0]] + rest;
      assert r == InsertByDate(t, s);
      forall i, j | 0 <= i < j < |r|
        ensures r[i].date <= r[j].date
      {
        if i > 0 {
          assert r[i] == rest[i - 1] && r[j] == rest[j - 1];
        } else {
          assert r[j] == rest[j - 1];
        }
      }
    }
  }

  /** `sort((a, b) => a.date - b.date)`: ascending by date. */
  function SortByDate(ts: seq<Task>): (r: seq<Task>)
    ensures SortedByDate(r)
    ensures multiset(r) == multiset(ts)
  {
    if ts == [] then []
    else
      assert ts == [ts[0]] + ts[1..];
      var rest := SortByDate(ts[1..]);
      InsertKeepsSorted(ts[0], rest);
      InsertByDate(ts[0], rest)
  }

  /** The documents of the primary query: the user's tasks not completed. */
  function OpenTasks(ts: seq<Task>): (r: seq<Task>)
    ensures forall t :: t in r <==> t in ts && !t.completed
    ensures multiset(r) <= multiset(ts)
  {
    if ts == [] then []
    else
      assert ts == [ts[0]] + ts[1..];
      (if ts[0].completed then [] else [ts[0]]) + OpenTasks(ts[1..])
  }

  /** The primary path's filter: tasks dated at or after `today` (a midnight). */
  function FromToday(ts: seq<Task>, today: int): (r: seq<Task>)
    ensures forall t :: t in r <==> t in ts && t.date >= today
    ensures multiset(r) <= multiset(ts)
  {
    if ts == [] then []
    else
      assert ts == [ts[0]] + ts[1..];
      (if ts[0].date >= today then [ts[0]] else []) + FromToday(ts[1..], today)
  }

  /** The fallback path's map and filter: completed tasks dropped, then the
      tasks dated before `today` dropped. */
  function OpenFromToday(ts: seq<Task>, today: int): (r: seq<Task>)
    ensures forall t :: t in r <==> t in ts && !t.completed && t.date >= today
    ensures multiset(r) <= multiset(ts)
  {
    if ts == [] then []
    else
      assert ts == [ts[0]] + ts[1..];
      (if !ts[0].completed && ts[0].date >= today then [ts[0]] else []) + OpenFromToday(ts[1..], today)
  }

  function Take(s: seq<Task>, n: nat): seq<Task>
  {
    s[..Min(n, |s|)]
  }

  /** The list the primary snapshot produces from the documents `queried`. */
  function UpcomingTasks(queried: seq<Task>, now: int): seq<Task>
  {
    Take(SortByDate(FromToday(queried, Midnight(now))), UpcomingLimit)
  }

  /** The list the fallback snapshot produces from all the user's documents. */
  function UpcomingFallback(all: seq<Task>, now: int): seq<Task>
  {
    Take(SortByDate(OpenFromToday(all, Midnight(now))), UpcomingLimit)
  }

  lemma {:induction false} FiltersCompose(ts: seq<Task>, today: int)
    ensures FromToday(OpenTasks(ts), today) == OpenFromToday(ts, today)
  {
    if ts != [] {
      FiltersCompose(ts[1..], today);
      var head := if ts[0].completed then [] else [ts[0]];
      FromTodayAppend(head, OpenTasks(ts[1..]), today);
    }
  }

  lemma {:induction false} FromTodayAppend(a: seq<Task>, b: seq<Task>, today: int)
    ensures FromToday(a + b, today) == FromToday(a, today) + FromToday(b, today)
  {
    if a != [] {
      assert (a + b)[1..] == a[1..] + b;
      FromTodayAppend(a[1..], b, today);
    } else {
      assert a + b == b;
    }
  }

  /** When the open-tasks query fails, the fallback lists the same tasks in
      the same order as the primary path would have. */
  lemma FallbackAgreesWithPrimary(all: seq<Task>, now: int)
    ensures UpcomingTasks(OpenTasks(all), now) == UpcomingFallback(all, now)
  {
    FiltersCompose(all, Midnight(now));
  }

  /** The first `n` tasks of a date-ordered list are ordered too, and no task
      after them is dated before one of them. */
  lemma {:induction false} TakeEarliest(sorted: seq<Task>, n: nat)
    requires SortedByDate(sorted)
    ensures var r := Take(sorted, n);
      && |r| == Min(n, |sorted|)
      && SortedByDate(r)
      && multiset(r) <= multiset(sorted)
      && (forall t, k :: t in multiset(sorted) - multiset(r) && 0 <= k < |r| ==> r[k].date <= t.date)
  {
    var m := Min(n, |sorted|);
    var r := sorted[..m];
    assert sorted == r + sorted[m..];
    assert multiset(sorted) == multiset(r) + multiset(sorted[m..]);
    forall t, k | t in multiset(sorted) - multiset(r) && 0 <= k < |r|
      ensures r[k].date <= t.date
    {
      assert t in multiset(sorted[m..]);
      var j :| 0 <= j < |sorted[m..]| && sorted[m..][j] == t;
      assert sorted[m + j] == t;
    }
  }

  /** The upcoming list: at most five tasks, all open, all dated today or
      later, in date order, taken from the user's tasks; as many as there are
      such tasks up to five, and no such task left out is dated before one
      that is listed. */
  lemma {:induction false} UpcomingSelection(all: seq<Task>, now: int)
    ensures var r := UpcomingTasks(OpenTasks(all), now);
      var candidates := OpenFromToday(all, Midnight(now));
      && |r| == Min(UpcomingLimit, |candidates|)
      && (forall k :: 0 <= k < |r| ==> !r[k].completed && Day(r[k].date) >= Day(now))
      && SortedByDate(r)
      && multiset(r) <= multiset(all)
      && (forall t, k :: t in multiset(candidates) - multiset(r) && 0 <= k < |r| ==> r[k].date <= t.date)
  {
    FiltersCompose(all, Midnight(now));
    var candidates := OpenFromToday(all, Midnight(now));
    var sorted := SortByDate(candidates);
    var r := Take(sorted, UpcomingLimit);
    TakeEarliest(sorted, UpcomingLimit);
    assert multiset(r) <= multiset(candidates);
    forall k | 0 <= k < |r|
      ensures !r[k].completed && Day(r[k].date) >= Day(now)
    {
      assert r[k] in multiset(r);
      assert r[k] in candidates;
      AtOrAfterMidnight(r[k].date, now);
    }
  }

  /** `pointsToNextLevel`: JavaScript's `totalPoints % 500`, or 0 while no
      profile is loaded. */
  function PointsIntoLevel(profile: Option<Profile>): int
  {
    if profile.None? then 0 else JsRem(profile.value.totalPoints, PointsPerLevel)
  }

  /** `pointsNeeded = 500 - pointsToNextLevel`. For a non-negative total it is
      between 1 and 500 and is exactly what takes the total to the next level. */
  function PointsNeeded(profile: Option<Profile>): (r: int)
    ensures r > 0
    ensures profile.Some? && profile.value.totalPoints >= 0 ==>
      1 <= r <= PointsPerLevel
      && LevelFor(profile.value.totalPoints + r) == LevelFor(profile.value.totalPoints) + 1
      && LevelFor(profile.value.totalPoints + r - 1) == LevelFor(profile.value.totalPoints)
  {
    PointsPerLevel - PointsIntoLevel(profile)
  }

  /** The line under the progress bar. */
  datatype LevelHint = PointsToGo(points: int) | MaxLevelReached

  function LevelHintFor(profile: Option<Profile>): LevelHint
  {
    var needed := PointsNeeded(profile);
    if needed > 0 then PointsToGo(needed) else MaxLevelReached
  }

  /** "Nível máximo alcançado!" is never shown, whatever the total, negative
      totals included. */
  lemma MaxLevelNeverShown(profile: Option<Profile>)
    ensures LevelHintFor(profile).PointsToGo?
  {
  }
}
