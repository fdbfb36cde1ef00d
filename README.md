# Seiton gamification and subscription core, in Dafny

Seiton is a personal planner. A user adds tasks for a day and ticks them off. Each completed task earns points, which raise the user's level every 500 points. Completed tasks also advance a counter and a daily streak, and they unlock six achievements that each pay a one-time bonus. A basic or premium subscription decides whether new tasks may be created and which features are open.

This project models that core:

- the profile document and the helpers that update it
- the plan rules
- the pages that drive them (planner, dashboard, rewards, settings)

It proves what these promise.

Layout, one module per file:

| file | module | models |
|---|---|---|
| `basics.dfy` | `Basics` | Optional values and page notifications. Calendar days of millisecond timestamps (`Date` with the time of day cleared). JavaScript's `%` and `Math.ceil` on integers. |
| `user_profile.dfy` | `UserProfile` | The profile document (`Profile`), pure functions for each helper's effect, and the lemmas about them. The class `ProfileStore` is the `userProfiles` collection: its methods perform the helpers' read-modify-write steps on a `map` field and are proved equal to the functions. |
| `subscription.dfy` | `Subscription` | The plan catalogue, the current plan, the task-creation limit, the renewal date and the days remaining. |
| `planner.dfy` | `Planner` | The task document, the day filter, and what ticking or unticking a task does to the profile. The class `PlannerPage` holds the page's state (selected date, task list, input field) and its two handlers. |
| `home.dfy` | `Home` | The dashboard's five upcoming tasks on both query paths, and the points still needed to reach the next level. |
| `rewards.dfy` | `Rewards` | The rewards page: snapshot defaults, the achievement cards, the unlocked count and the level line. |
| `settings.dfy` | `Settings` | Password-change validation and profile-form saving, both as functions. The class `SettingsPage` holds the page's forms and runs its handlers. Also the subscription "active" badge. |

Time is modelled as follows:

- A task date and a subscription end date are timestamps in milliseconds.
- `Day(ms)` is the calendar day a timestamp falls on.
- The stored `lastTaskDate`, always a midnight, is kept as its day number.
- The current time `now` is a parameter of every operation that reads the clock.

## Model

| member | source | states |
|---|---|---|
| Basics.Midnight | client/src/lib/userProfile.ts:188-192 | Clearing the time of day gives the latest midnight not after the timestamp, on the same calendar day. |
| Basics.AtOrAfterMidnight | client/src/pages/Home.tsx:89-93 | A task is at or after today's midnight exactly when its calendar day is today or later. |
| Basics.JsRem | client/src/pages/Home.tsx:165 | JavaScript's `%`: the result differs from the dividend by a multiple of the divisor and takes the dividend's sign. A non-negative total gives a remainder in [0, 500) and a negative one a remainder in (-500, 0], so the value is fixed for every total. |
| Basics.CeilDays | client/src/lib/subscription.ts:106 | `Math.ceil(diff / day)`: the smallest number of whole days that covers the difference. |
| UserProfile.NewProfile | client/src/lib/userProfile.ts:50-68 | A created profile has 0 points, level 1, no completed tasks, both streaks 0, no last task date, no achievements, no personal data, the basic plan and no subscription dates, and it is consistent. |
| UserProfile.ReadBack | client/src/lib/userProfile.ts:50-74 | A written personal field reads back as present exactly when a string was written, and then as that string. |
| UserProfile.CreationWriteRefused | client/src/lib/userProfile.ts:52-57 | As written, all six personal fields of the creation document are `undefined`, so a store that refuses `undefined` values refuses the document. |
| UserProfile.CorrectedCreationStoresNewProfile | client/src/lib/userProfile.ts:50-74 | Written as `null`, the same fields are accepted and read back as absent: the stored document is `NewProfile`. |
| UserProfile.LevelFor | client/src/lib/userProfile.ts:115 | The level is at least 1. For a non-negative total it is the band of 500 points the total falls in. Totals below 500 are level 1. |
| UserProfile.LevelOfClampedTotal | client/src/lib/userProfile.ts:136-137 | Taking the level from the total clamped at zero gives the level of the unclamped total. |
| UserProfile.PointOperations | client/src/lib/userProfile.ts:113-143 | Adding or removing points moves the total by exactly that amount. The level becomes the level of the new total and nothing else changes. Consistency is kept, even when removal takes the total below zero. |
| UserProfile.RemoveUndoesAdd | client/src/lib/userProfile.ts:113-143 | Removing the points just added restores the profile exactly, level included. |
| UserProfile.CounterOperations | client/src/lib/userProfile.ts:149-172 | Increment and decrement change only the completed-task counter, by one each, and undo each other. |
| UserProfile.StreakTransitions | client/src/lib/userProfile.ts:197-233 | The streak table:<br>• no previous date gives 1<br>• a task dated today after a task yesterday adds 1<br>• a task dated today after one today keeps the streak<br>• a task dated today after an older one resets to 1<br>• a task dated another day keeps the streak<br>The longest streak is the running maximum, the task's day is recorded, and nothing else changes. |
| UserProfile.StreakKeepsConsistent | client/src/lib/userProfile.ts:197-233 | The streak update keeps a profile consistent: the streak is positive once a date is recorded, and the longest streak is at least the current one. |
| UserProfile.ConsecutiveDaysBuildStreak | client/src/lib/userProfile.ts:207-211 | Completing a task on each of n consecutive days, starting with no recorded date, gives a streak of n and a longest streak of at least n. |
| UserProfile.GapResetsStreak | client/src/lib/userProfile.ts:215-218 | A skipped day resets the streak to 1. |
| UserProfile.OtherDayTaskBreaksStreak | client/src/lib/userProfile.ts:219-233 | As written, the day after a completion, a task dated neither today nor yesterday keeps the streak but records its day, so today's task then resets the streak to 1. Without it, today's task adds 1. |
| UserProfile.FirstTaskOnOtherDayStartsStreak | client/src/lib/userProfile.ts:200-202 | As written, a first task ever starts a streak of 1 and records its day, whatever day it is dated. |
| UserProfile.IntendedStreakUpdate | client/src/lib/userProfile.ts:219-222 | Corrected update: only a task dated today changes the streak or the recorded day, and only to today. The profile invariant is kept. |
| UserProfile.OtherDayTaskLeavesStreakAlone | client/src/lib/userProfile.ts:219-222 | Under the corrected update, a task dated another day changes nothing that any later task's update depends on. The overdue-then-today scenario extends the streak by 1. |
| UserProfile.AchievementIdsDistinct | client/src/lib/userProfile.ts:270-277 | The six achievement ids are distinct. |
| UserProfile.Eligible | client/src/lib/userProfile.ts:291-299 | An entry is selected exactly when its condition is met and its id is not yet unlocked (both directions). |
| UserProfile.EligibleKeepsTableOrder | client/src/lib/userProfile.ts:291-319 | The selection keeps table order. The entries chosen from `a + b` are those chosen from `a` followed by those chosen from `b`. |
| UserProfile.EligibleOfOne | client/src/lib/userProfile.ts:291-299 | A single entry is chosen exactly when its condition is met and its id is not yet unlocked. With the previous lemma this fixes the selection, order included. |
| UserProfile.UnlockKeepsSet | client/src/lib/userProfile.ts:254-259 | Unlocking an id adds it once, never duplicates one, and loses nothing. |
| UserProfile.UnlockOverCredits | client/src/lib/userProfile.ts:291-324 | Walking the table with a distinct-id table gives exactly the profile credited at once with the eligible entries. |
| UserProfile.UnlockOverClosedForm | client/src/lib/userProfile.ts:291-324 | Walking the table one entry at a time equals appending all eligible ids at once and adding their bonuses at once. The level follows the total and no other field changes. |
| UserProfile.WalkReturnsNewlyUnlocked | client/src/lib/userProfile.ts:291-326 | The ids the walk appended to the list are exactly the eligible ids of the table, in table order. |
| UserProfile.EligibleIdsDistinct | client/src/lib/userProfile.ts:291-299 | The ids selected from a table with distinct ids are distinct. |
| UserProfile.UnlocksAddEachBonusOnce | client/src/lib/userProfile.ts:265-327 | The check appends exactly the returned ids after the old ones and adds exactly their bonuses, one each. It never duplicates an id, keeps the profile consistent and changes nothing else. |
| UserProfile.UnlockedAfterCheck | client/src/lib/userProfile.ts:291-319 | After the check, every achievement the counters meet is unlocked. Every unlocked id was unlocked before or is met now. |
| UserProfile.UnlocksIdempotent | client/src/lib/userProfile.ts:297-299 | Checking again with the same counters unlocks nothing and pays nothing. |
| UserProfile.FeatureAccessMatrix | client/src/lib/userProfile.ts:357-393 | Basic is always active and opens the planner and rewards only. Premium is active exactly while its end date lies ahead; active premium opens every feature and expired premium none. |
| UserProfile.MissingPlanGrantsEverything | client/src/lib/userProfile.ts:382-392 | A document without a plan passes every feature check. |
| UserProfile.PlanChangeActivation | client/src/lib/userProfile.ts:346-369 | After a plan change the subscription is active exactly when the plan is basic or the end date lies ahead. Consistency is kept. |
| UserProfile.UpdateField | client/src/lib/userProfile.ts:418-423 | An undefined field keeps its stored value, an empty string clears it, and any other value is written as given. |
| UserProfile.ProfileStore.GetUserProfile | client/src/lib/userProfile.ts:40-81 | Returns the stored profile, or creates and stores a new one. |
| UserProfile.ProfileStore.AddPointsToProfile | client/src/lib/userProfile.ts:96-122 | The stored profile, created if missing, gets the new total and its level. The store's consistency is kept. |
| UserProfile.ProfileStore.RemovePointsFromProfile | client/src/lib/userProfile.ts:127-144 | Fails, writing nothing, when there is no profile. Otherwise stores the lowered total and the level of the clamped total. |
| UserProfile.ProfileStore.IncrementCompletedTasks | client/src/lib/userProfile.ts:149-159 | The counter of the profile, created if missing, rises by one. |
| UserProfile.ProfileStore.DecrementCompletedTasks | client/src/lib/userProfile.ts:164-172 | Fails on a missing profile. Otherwise the counter falls by one. |
| UserProfile.ProfileStore.UpdateStreak | client/src/lib/userProfile.ts:177-235 | A missing profile is created and left as created. Otherwise the stored profile becomes the streak update of the task date. |
| UserProfile.ProfileStore.UnlockAchievement | client/src/lib/userProfile.ts:240-260 | Appends the id when absent. With no profile, one is created and the call fails. |
| UserProfile.ProfileStore.CheckAndUnlockAchievements | client/src/lib/userProfile.ts:265-327 | Returns exactly the eligible ids in table order and stores the profile the unlock walk produces. A missing profile is created and nothing is returned. The profile invariant is kept. |
| UserProfile.ProfileStore.UnlockWalk | client/src/lib/userProfile.ts:291-326 | The loop over the table stores the profile `UnlockOver` describes. The ids it returns are exactly those it appended to the stored list, in order. |
| UserProfile.ProfileStore.UpdateSubscriptionPlan | client/src/lib/userProfile.ts:332-352 | The plan, start date and end date of the profile, created if missing, are overwritten. |
| UserProfile.ProfileStore.UpdateUserProfileData | client/src/lib/userProfile.ts:398-426 | Each personal field is updated field by field as `UpdateField` says. |
| Subscription.PlanCatalogue | client/src/lib/subscription.ts:14-45 | There are two plans, basic first; only premium is highlighted, and each plan id is found in the catalogue. |
| Subscription.FindIn | client/src/pages/Settings.tsx:95 | A find returns the first entry with the id, or reports that there is none. |
| Subscription.GetCurrentPlan | client/src/lib/subscription.ts:50-53 | The stored plan, or basic when the document has none. |
| Subscription.CanCreateTask | client/src/lib/subscription.ts:58-83 | Creation is allowed exactly for an active premium subscription or while fewer than 50 tasks are completed. A refusal, and only a refusal, carries a non-empty reason. |
| Subscription.TaskLimitByPlan | client/src/lib/subscription.ts:62-77 | Active premium is never refused. Basic users and inactive subscriptions are refused exactly from 50 completed tasks on. |
| Subscription.FormatRenewalDate | client/src/lib/subscription.ts:88-89 | No end date gives "N/A". |
| Subscription.GetDaysRemaining | client/src/lib/subscription.ts:101-107 | Never negative and 0 without an end date. Positive exactly when the end date lies ahead, and then the days rounded up. |
| Planner.NewTask | client/src/pages/Planner.tsx:100-107 | A new task is open, worth 10 points and dated on the selected day, with the typed title. |
| Planner.RefusalMessage | client/src/pages/Planner.tsx:95-97 | The refusal toast shows the reason, or a non-empty default. |
| Planner.FilteredTasks | client/src/pages/Planner.tsx:156-160 | No date selected shows nothing. Otherwise exactly the tasks on the selected calendar day are shown, drawn from the list. |
| Planner.FilteredTasksKeepOrder | client/src/pages/Planner.tsx:156-160 | The filter keeps order and multiplicity. Filtering `a + b` gives the filtered `a` followed by the filtered `b`. |
| Planner.FilteredTaskOfOne | client/src/pages/Planner.tsx:156-160 | A single task is kept exactly when it lies on the selected calendar day. With the previous lemma this fixes the filtered list, order included. |
| Planner.FindTask | client/src/pages/Planner.tsx:121-127 | Finds the document with the task's id, or reports that none is stored. |
| Planner.Toggled | client/src/pages/Planner.tsx:122-127 | The flag is flipped from the page's copy, a completion time is stamped exactly when the task becomes completed, and nothing else changes. |
| Planner.CompleteTaskEffect | client/src/pages/Planner.tsx:129-145 | Ticking a task keeps the profile consistent and adds one completed task. Points rise by the task's points plus the unlocked bonuses, the streak follows the task date, and every met achievement ends up unlocked. |
| Planner.UncompleteKeepsRewards | client/src/pages/Planner.tsx:146-150 | Unticking takes back the task's points and one completed task and keeps everything else, achievements included. |
| Planner.CompleteThenUncomplete | client/src/pages/Planner.tsx:117-150 | Tick then untick restores the counter. The total ends above the starting total by exactly the bonuses of the achievements the completion unlocked, which stay paid together with their ids. |
| Planner.FirstTaskScenario | client/src/pages/Planner.tsx:129-145 | A new user's first 10-point task gives 60 points, 1 task, streak 1, "first-task" unlocked and level 1. |
| Planner.OnlyFirstEligible | client/src/lib/userProfile.ts:270-277 | With one completed task and a streak of 1, "first-task" is the only eligible entry. |
| Planner.LevelUpAt500 | client/src/lib/userProfile.ts:113-115 | Going from 490 to 500 points reaches level 2. |
| Planner.PlannerPage.HandleAddTask | client/src/pages/Planner.tsx:89-115 | A blank title, no user or no date does nothing. A refusal shows its reason and adds nothing. Otherwise the new task is appended and the field cleared. |
| Planner.PlannerPage.ToggleTask | client/src/pages/Planner.tsx:117-154 | The stored task is toggled and the profile updated as `ToggleEffect` says. A missing task changes nothing. A failed point removal skips the decrement. |
| Planner.PlannerPage.RecordCompletion | client/src/pages/Planner.tsx:130-145 | Ticking a task off stores the profile `CompleteTask` describes: points, counter and streak, then the achievements checked against the counters read back. The profile invariant is kept. |
| Planner.PlannerPage.RecordProgress | client/src/pages/Planner.tsx:130-135 | The points, the completed-task counter and the streak are updated in that order, a missing profile being created first. The profile invariant is kept. |
| Home.InsertByDate | client/src/pages/Home.tsx:94-99 | Insertion adds exactly the one task. |
| Home.InsertKeepsSorted | client/src/pages/Home.tsx:94-99 | Inserting into a date-ordered list keeps it ordered. |
| Home.SortByDate | client/src/pages/Home.tsx:94-99 | The sort orders by date and is a permutation. |
| Home.OpenTasks | client/src/pages/Home.tsx:72-76 | The query returns exactly the open tasks. |
| Home.FromToday | client/src/pages/Home.tsx:89-93 | The filter keeps exactly the tasks dated at or after today's midnight. |
| Home.OpenFromToday | client/src/pages/Home.tsx:112-127 | The fallback's map and filter keep exactly the open tasks dated today or later. |
| Home.FiltersCompose | client/src/pages/Home.tsx:72-93 | Query then filter equals the fallback's single pass. |
| Home.FallbackAgreesWithPrimary | client/src/pages/Home.tsx:106-135 | The fallback path lists the same tasks in the same order as the primary path. |
| Home.TakeEarliest | client/src/pages/Home.tsx:100 | Taking a prefix of a sorted list keeps it sorted, and every task left out is dated no earlier than those kept. |
| Home.UpcomingSelection | client/src/pages/Home.tsx:68-100 | The list is the min(5, n) earliest open tasks dated today or later, in date order, drawn from the user's tasks. |
| Home.PointsNeeded | client/src/pages/Home.tsx:165-167 | Always positive. For a non-negative total it lies in [1, 500] and is exactly the number of points that brings the next level. |
| Home.MaxLevelNeverShown | client/src/pages/Home.tsx:319-321 | The dashboard never shows "Nível máximo alcançado!". |
| Rewards.BadgesMatchAchievements | client/src/pages/Rewards.tsx:31-80 | The page's table agrees with the unlock table in ids, thresholds, counters and points. |
| Rewards.OrDefault | client/src/pages/Rewards.tsx:107-111 | `x \|\| d`: a missing value or a 0 gives the default. |
| Rewards.StateFromSnapshot | client/src/pages/Rewards.tsx:104-113 | The level shown is never 0, and a missing list shows as empty. |
| Rewards.SnapshotAgreesWithLoad | client/src/pages/Rewards.tsx:88-113 | For a consistent profile, the snapshot and the first load show the same state. |
| Rewards.EmptySnapshotShowsDefaults | client/src/pages/Rewards.tsx:107-112 | An empty document shows 0 points, 0 tasks, level 1, streaks 0 and no achievements. |
| Rewards.CardFor | client/src/pages/Rewards.tsx:38-78 | A card shows unlocked exactly when its id is listed or its counter has reached the threshold. |
| Rewards.Cards | client/src/pages/Rewards.tsx:31-80 | One card per entry of the page's table, in order. |
| Rewards.UnlockedCount | client/src/pages/Rewards.tsx:134 | The count is the number of positions whose card is unlocked. So it is at most the number of cards, 0 exactly when none is unlocked, and the full number exactly when all are. |
| Rewards.UnlockedAchievementsCount | client/src/pages/Rewards.tsx:134 | The count shown is the number of badges whose card shows unlocked. It is between 0 and 6, and 6 exactly when every card shows unlocked. |
| Rewards.CardsAfterCheck | client/src/pages/Rewards.tsx:31-80 | After a completion's check, a card shows unlocked exactly when its id is stored. |
| Rewards.PointsIntoLevelOf | client/src/pages/Rewards.tsx:119 | For non-negative points: the points inside the current level, in [0, 500). |
| Rewards.NewUserToldMaxLevel | client/src/pages/Rewards.tsx:166 | The line as written tells a user with 0 or 500 points that the maximum level is reached, although level 1 and level 2 are not the last. |
| Rewards.LevelHintOf | client/src/pages/Rewards.tsx:166 | Corrected line: always the points still needed, in [1, 500] for non-negative points, exactly enough to level up. |
| Rewards.LevelHintMatchesDashboard | client/src/pages/Rewards.tsx:166 | The corrected line agrees with the dashboard's for every profile. |
| Settings.PasswordRejection | client/src/pages/Settings.tsx:135-148 | A form is accepted exactly when it has a user, non-empty current and new passwords, a matching confirmation and at least 6 characters. Each refusal message is characterised in the order empty, then mismatch, then length. |
| Settings.PasswordCheckOrder | client/src/pages/Settings.tsx:135-148 | The three messages are distinct. A short mismatched password is reported as a mismatch, and an empty new password as missing fields. |
| Settings.MessageOr | client/src/pages/Settings.tsx:171 | An empty error message falls back to the default. |
| Settings.Shown | client/src/pages/Settings.tsx:55-61 | A missing field loads as the empty string. |
| Settings.Submitted | client/src/pages/Settings.tsx:111-116 | An empty field is sent as undefined. Anything else is sent as typed. |
| Settings.EmailChange | client/src/pages/Settings.tsx:120-122 | The email is sent exactly when it differs from the account's. |
| Settings.SaveWritesFilledFields | client/src/pages/Settings.tsx:110-117 | Saving writes each filled field and keeps each emptied one at its stored value. Nothing outside the personal data changes. |
| Settings.UneditedSaveChangesNothing | client/src/pages/Settings.tsx:54-122 | Saving the form as loaded changes neither the profile nor the email. |
| Settings.SettingsAgreesWithProfile | client/src/pages/Settings.tsx:177-179 | The page's "active" rule agrees with `isSubscriptionActive` for every profile and time. With no profile it is false. |
| Settings.UpgradeMessage | client/src/pages/Settings.tsx:95 | The upgrade toast names the chosen plan from the catalogue. |
| Settings.SettingsPage.LoadProfile | client/src/pages/Settings.tsx:47-66 | Shows the plan (basic when none is stored) and fills the form from the profile, which is created if missing. |
| Settings.SettingsPage.HandleChangePassword | client/src/pages/Settings.tsx:134-175 | The auth service is called exactly when validation passes; otherwise the first failure's message is shown. Only success clears the three fields, and an auth error shows its message or the default. |
| Settings.SettingsPage.HandleSaveProfile | client/src/pages/Settings.tsx:105-132 | Writes the mapped fields and sends the email exactly when it changed. Success closes the editor; an email failure shows its message. |
| Settings.SettingsPage.HandleUpgrade | client/src/pages/Settings.tsx:87-103 | Moves the user to the plan and shows the plan's name. |

## Left out

- I/O and concurrency:
  - Firestore and Auth I/O become direct changes to `ProfileStore.docs` and to page fields.
  - Live snapshot listeners, the dashboard's primary query failing, reauthentication and the email and password updates become parameters: the documents delivered, or the error message.
  - Concurrent writes, and the race between reading `totalPoints` and writing `level`, are not modelled; every operation runs alone.
- Failures:
  - Network and backend failures other than a missing document, and the generic error toasts they produce, are not modelled.
  - The exception the task-document update throws for a missing task is modelled as "nothing changes".
- Clock and calendar:
  - `Day(ms)` treats every day as 86,400,000 ms of local time. Time zones and daylight-saving days are folded into the timestamps.
  - The one-month `setMonth` end date of `updateSubscriptionPlan` is a parameter.
  - `toLocaleDateString` output is a parameter of `Subscription.FormatRenewalDate`.
- Display values:
  - Floating point is not modelled: progress percentages, transaction amounts and the monthly chart on the dashboard.
  - Plan prices are kept as their display strings.
  - The icon lookup and the unused `unlockedAt` field are not modelled.
  - The `createdAt` and `updatedAt` server timestamps are not modelled.
- Page state:
  - The planner's task list is updated by the handlers themselves, not by the snapshot that refreshes it in the application.
  - The task id is a parameter of `HandleAddTask`.
  - The settings page's loading and submitting flags and its selected plan are not modelled.
  - `hasFeatureAccess` is modelled as `UserProfile.HasFeatureAccess`, but no page calls it.
- Settings.PasswordRejection: the length is counted in characters, whereas JavaScript's `length` counts UTF-16 code units. The two differ only for characters outside the Basic Multilingual Plane.
- Subscription.CanCreateTask: the limit is called monthly, but the application counts it against the lifetime completed-task counter. The model follows the code and does not model a monthly count.
- UserProfile.ProfileStore.GetUserProfile: the creation write is taken to succeed, with the personal fields absent, as the corrected row under "## Findings" states. As written, the store would refuse it. Every helper that creates a missing profile, the planner's plan gate for a new user and `Planner.FirstTaskScenario` would then fail at that write instead.
- UserProfile.ProfileStore.UpdateStreak: follows the code as written, recording the day of a task dated another day. The designed behaviour is stated beside it as `UserProfile.IntendedStreakUpdate`, see "## Findings".
- Home.SortByDate: states order by date and permutation, not stability (tasks with equal dates keeping their input order).
- AnotaChef, the landing page, login, routing, layout and the Firebase configuration are not part of this model.

## Findings

| source | as written | input that shows it | evidently intended | confidence | as-written member | corrected member |
|---|---|---|---|---|---|---|
| client/src/pages/Rewards.tsx:166 | A remainder of 0 points within the level is read as "maximum level reached". | A new user with 0 points, or anyone with 500, 1000, ... points. | "500 pontos para o próximo nível", as the dashboard shows. Levels have no upper bound. | high; not executed | Rewards.NewUserToldMaxLevel | Rewards.LevelHintOf |
| client/src/lib/userProfile.ts:52-57 | The document created for a user with no profile sets the six personal fields to `undefined` and passes it to `setDoc`, on a database opened with a plain `getFirestore(app)` (client/src/lib/firebase.ts:68). Firestore's client then refuses `undefined` field values. | Any user without a profile document, such as a new user's first `getUserProfile`. | The profile is created with the personal fields absent or `null`, as `NewProfile` describes. | medium (rests on the Firestore client's documented refusal of `undefined` values); not executed | UserProfile.CreationWriteRefused | UserProfile.CorrectedCreationStoresNewProfile |
| client/src/lib/userProfile.ts:219-233 | A task dated another day keeps the streak but still overwrites `lastTaskDate` with its own day. | Streak 5, last task yesterday. Completing an overdue task dated five days ago, then today's task, gives streak 1; today's task alone gives 6. | A task dated another day does not affect the streak at all, as the code's own comment at line 220 says. | high; not executed | UserProfile.OtherDayTaskBreaksStreak | UserProfile.IntendedStreakUpdate |
