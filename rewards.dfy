/** The rewards page: the profile's counters as the page shows them, the six
    achievement cards and whether each shows unlocked, and the level line
    (client/src/pages/Rewards.tsx). */
module Rewards {
  import opened Basics
  import opened UserProfile
  import opened Home

  /** A card's static part, as the page declares it: its own copy of the
      achievement table, with a title, a description and an icon. */
  datatype Badge = Badge(id: string, title: string, description: string, icon: string,
                         points: int, required: int, counter: Counter)

  const Badges: seq<Badge> := [
    Badge("first-task", "Primeiro Passo", "Complete sua primeira tarefa", "star", 50, 1, TasksCounter),
    Badge("task-master", "Mestre das Tarefas", "Complete 10 tarefas", "target", 200, 10, TasksCounter),
    Badge("dedication", "Dedicação", "Complete 25 tarefas", "flame", 500, 25, TasksCounter),
    Badge("perfectionist", "Perfeccionista", "Complete 50 tarefas", "trophy", 1000, 50, TasksCounter),
    Badge("legend", "Lenda", "Complete 100 tarefas", "award", 2500, 100, TasksCounter),
    Badge("streak", "Sequência", "Complete tarefas por 7 dias seguidos", "zap", 300, 7, StreakCounter)
  ]

  /** The page's copy of the table agrees entry by entry with the one that
      awards the bonuses: same ids, thresholds, counters and points. */
  lemma BadgesMatchAchievements()
    ensures |Badges| == |Achievements|
    ensures forall k :: 0 <= k < |Badges| ==>
      Badges[k].id == Achievements[k].id && Badges[k].points == Achievements[k].points &&
      Badges[k].required == Achievements[k].required && Badges[k].counter == Achievements[k].counter
  {
  }

  /** What the page holds after reading a profile. */
  datatype RewardsState = RewardsState(userPoints: int, completedTasks: int, level: int,
                                       currentStreak: int, longestStreak: int,
                                       unlockedAchievements: seq<string>)

  /** A profile document as a snapshot delivers it: any field may be missing. */
  datatype RawProfile = RawProfile(totalPoints: Option<int>, completedTasks: Option<int>, level: Option<int>,
                                   currentStreak: Option<int>, longestStreak: Option<int>,
                                   unlockedAchievements: Option<seq<string>>)

  /** JavaScript's `n || fallback` on a number: a missing value and 0 both
      give the fallback. */
  function OrDefault(n: Option<int>, fallback: int): (r: int)
    ensures n.Some? && n.value != 0 ==> r == n.value
    ensures n.None? || n.value == 0 ==> r == fallback
  {
    if n.Some? && n.value != 0 then n.value else fallback
  }

  /** The first load: `getUserProfile` and its fields as they are. */
  function StateFromProfile(p: Profile): RewardsState
  {
    RewardsState(p.totalPoints, p.completedTasks, p.level, p.currentStreak, p.longestStreak,
                 p.unlockedAchievements)
  }

  /** Every later snapshot: each field with its `||` default. */
  function StateFromSnapshot(raw: RawProfile): (r: RewardsState)
    ensures r.level != 0
    ensures raw.unlockedAchievements.None? ==> r.unlockedAchievements == []
  {
    RewardsState(OrDefault(raw.totalPoints, 0), OrDefault(raw.completedTasks, 0), OrDefault(raw.level, 1),
                 OrDefault(raw.currentStreak, 0), OrDefault(raw.longestStreak, 0),
                 if raw.unlockedAchievements.Some? then raw.unlockedAchievements.value else [])
  }

  /** The document of a stored profile, every field present. */
  function RawOf(p: Profile): RawProfile
  {
    RawProfile(Some(p.totalPoints), Some(p.completedTasks), Some(p.level), Some(p.currentStreak),
               Some(p.longestStreak), Some(p.unlockedAchievements))
  }

  /** For a consistent profile the snapshot's defaults never apply: the page
      shows the same state whichever of the two reads delivered it. */
  lemma SnapshotAgreesWithLoad(p: Profile)
    requires Consistent(p)
    ensures StateFromSnapshot(RawOf(p)) == StateFromProfile(p)
  {
  }

  /** A document with no fields shows a fresh user: no points, level 1. */
  lemma EmptySnapshotShowsDefaults()
    ensures StateFromSnapshot(RawProfile(None, None, None, None, None, None)) ==
      RewardsState(0, 0, 1, 0, 0, [])
  {
  }

  /** A card as the page renders it. */
  datatype Card = Card(badge: Badge, unlocked: bool)

  /** A card shows unlocked when its id is in the list or its counter has
      reached the threshold, whether or not the bonus was awarded. */
  function CardFor(b: Badge, s: RewardsState): (c: Card)
    ensures c.badge == b
    ensures c.unlocked <==>
      (b.id in s.unlockedAchievements
       || (b.counter.TasksCounter? && s.completedTasks >= b.required)
       || (b.counter.StreakCounter? && s.currentStreak >= b.required))
  {
    var reached := if b.counter.TasksCounter? then s.completedTasks >= b.required
                   else s.currentStreak >= b.required;
    Card(b, (b.id in s.unlockedAchievements) || reached)
  }

  function Cards(s: RewardsState): (r: seq<Card>)
    ensures |r| == |Badges|
    ensures forall k :: 0 <= k < |r| ==> r[k] == CardFor(Badges[k], s)
  {
    seq(|Badges|, k requires 0 <= k < |Badges| => CardFor(Badges[k], s))
  }

  /** The positions of the unlocked cards. */
  function UnlockedPositions(cards: seq<Card>): set<int>
  {
    set k | 0 <= k < |cards| && cards[k].unlocked
  }

  /** Dropping the last card drops its position, if it was unlocked, and no
      other. */
  lemma UnlockedPositionsOfPrefix(cards: seq<Card>)
    requires cards != []
    ensures var n := |cards| - 1;
      UnlockedPositions(cards) ==
        UnlockedPositions(cards[..n]) + (if cards[n].unlocked then {n} else {})
      && n !in UnlockedPositions(cards[..n])
  {
    var n := |cards| - 1;
    forall k | k in UnlockedPositions(cards[..n]) ensures k in UnlockedPositions(cards) {
      assert cards[..n][k] == cards[k];
    }
    forall k | k in UnlockedPositions(cards) && k != n ensures k in UnlockedPositions(cards[..n]) {
      assert cards[..n][k] == cards[k];
    }
  }

  /** `achievements.filter(a => a.unlocked).length`: the number of unlocked
      cards. */
  function UnlockedCount(cards: seq<Card>): (r: nat)
    ensures r == |UnlockedPositions(cards)|
    ensures r <= |cards|
    ensures r == 0 <==> forall k :: 0 <= k < |cards| ==> !cards[k].unlocked
    ensures r == |cards| <==> forall k :: 0 <= k < |cards| ==> cards[k].unlocked
  {
    if cards == [] then
      assert UnlockedPositions(cards) == {};
      0
    else
      var rest := UnlockedCount(cards[..|cards| - 1]);
      UnlockedPositionsOfPrefix(cards);
      rest + if cards[|cards| - 1].unlocked then 1 else 0
  }

  /** The count in the stats card: the number of badges whose card shows
      unlocked, between none and all six. */
  function UnlockedAchievementsCount(s: RewardsState): (r: nat)
    ensures r == |set k | 0 <= k < |Badges| && CardFor(Badges[k], s).unlocked|
    ensures r <= 6
    ensures r == 6 <==> forall k :: 0 <= k < |Badges| ==> Cards(s)[k].unlocked
  {
    var cards := Cards(s);
    assert UnlockedPositions(cards) == set k | 0 <= k < |Badges| && CardFor(Badges[k], s).unlocked;
    UnlockedCount(cards)
  }

  /** After a task is completed and the achievements are checked against the
      profile's own counters, a card shows unlocked exactly when its id is in
      the profile's list: the counter rule adds nothing and no bonus is
      missing. */
  lemma {:induction false} CardsAfterCheck(q: Profile, k: int)
    requires 0 <= k < |Badges|
    ensures var p := ApplyUnlocks(q, q.completedTasks, q.currentStreak);
      Cards(StateFromProfile(p))[k].unlocked <==> Badges[k].id in p.unlockedAchievements
  {
    var p := ApplyUnlocks(q, q.completedTasks, q.currentStreak);
    BadgesMatchAchievements();
    UnlockedAfterCheck(q, q.completedTasks, q.currentStreak);
    assert ApplyUnlocks(q, q.completedTasks, q.currentStreak).completedTasks == q.completedTasks
      && ApplyUnlocks(q, q.completedTasks, q.currentStreak).currentStreak == q.currentStreak by {
      AchievementIdsDistinct();
      UnlockOverClosedForm(q, Achievements, q.completedTasks, q.currentStreak);
    }
    var b := Badges[k];
    assert Met(Achievements[k], q.completedTasks, q.currentStreak) ==> b.id in p.unlockedAchievements;
  }

  /** `userPoints % 500` as JavaScript computes it: the points gathered inside
      the current level. */
  function PointsIntoLevelOf(points: int): (r: int)
    ensures points >= 0 ==> 0 <= r < PointsPerLevel && (points - r) % PointsPerLevel == 0
  {
    JsRem(points, PointsPerLevel)
  }

  /** The stats card's line as written: it reads a remainder of 0, which is
      where every level starts, as the maximum level. */
  function LevelHintAsWritten(points: int): LevelHint
  {
    var into := PointsIntoLevelOf(points);
    if into > 0 then PointsToGo(PointsPerLevel - into) else MaxLevelReached
  }

  /** A new user, with 0 points and level 1, is told the maximum level has been
      reached; so is anyone with 500, 1000, ... points, although levels have no
      upper bound. */
  lemma NewUserToldMaxLevel()
    ensures LevelHintAsWritten(0) == MaxLevelReached && LevelFor(0) == 1 && LevelFor(PointsPerLevel) == 2
    ensures LevelHintAsWritten(PointsPerLevel) == MaxLevelReached
  {
  }

  /** The line as the dashboard states it: always the points still needed. */
  function LevelHintOf(points: int): (r: LevelHint)
    ensures r.PointsToGo?
    ensures points >= 0 ==>
      1 <= r.points <= PointsPerLevel
      && LevelFor(points + r.points) == LevelFor(points) + 1
      && LevelFor(points + r.points - 1) == LevelFor(points)
  {
    PointsToGo(PointsPerLevel - PointsIntoLevelOf(points))
  }

  /** The corrected line agrees with the dashboard's for every loaded profile. */
  lemma LevelHintMatchesDashboard(p: Profile)
    ensures LevelHintOf(p.totalPoints) == LevelHintFor(Some(p))
  {
  }
}
