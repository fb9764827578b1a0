# GlowUp fitness tracker — a verified model of its core

GlowUp is a single-page fitness tracker. These Dafny modules model its core:

- The session provider (`UserContext`) holds three things:
  - the signed-in profile;
  - the logged-in flag;
  - the progress log, with one entry per day.

  It keeps all three in step with the browser's local storage. Logging a day:
  - replaces the entry for that date, or appends one;
  - awards 10 points;
  - recomputes the level from the threshold chain 100 / 250 / 500 / 1000.

  `login` fills every falsy field of a partial profile with a fixed default.
- The progress page (`ProgressPage`) covers:
  - the log form and its prefill from an existing entry;
  - the in-place sort, by date, of the session's own log when the progress page renders;
  - the chart series;
  - the completed-workout count and the cardio total;
  - the five achievement rules.
- The dashboard (`Dashboard`) covers:
  - body-mass index and its four bands;
  - the capped, direction-agnostic progress towards the target weight;
  - the level bar and the "points to next level" line;
  - the workout of the day;
  - the choice of meal plan.
- The profile page (`ProfilePage`) covers:
  - the table of fitness levels and the lookup of the current row;
  - the progress bar towards the next level;
  - the edit form, which replaces the seven editable fields and keeps points and level.
- The sign-in page (`LoginPage`) covers:
  - the two-step form that builds the new profile;
  - the required-field gate;
  - the demo account.
- The workout page (`WorkoutPage`) covers:
  - the mapping from `getDay()` to a Monday-first index;
  - the plan chosen by goal, with its fallback;
  - the shape of the seven-day tables.

Three small modules support these:
- `Wrappers` defines `Option`.
- `Calendar` maps `getDay()` numbers to weekdays.
- `Numbers` models what `parseInt` does to a number written out in decimal.

How the browser's values are represented:
- Dates are day numbers. A `yyyy-MM-dd` key stands for one day, and key order is day order.
- Weights and heights are exact `real`s.
- Local storage is a map from key to stored record. The JSON text is represented by the record it encodes.
- The stateful parts are classes. These are the session, the progress form, the profile form and the sign-in form.
- Their handlers are methods. Each method states the new state in full.
- Every pure derivation is a function. Lemmas state its properties.
- `Goal` and `Level` carry an `Unlisted` case. It covers strings outside the TypeScript unions, such as the profile form's initial empty goal or a hand-edited stored profile. With it, the code's `||` fallbacks can be reached.

## Model

| member | source | states |
|---|---|---|
| `UserContext.LevelFor` | src/contexts/UserContext.tsx:104-117 | each tier holds exactly the totals in its band: below 100 Beginner, 100–249 Intermediate, 250–499 Gym Rat, 500–999 Gym Bro, 1000 and up GYM SHARK |
| `UserContext.LevelForMonotone` | src/contexts/UserContext.tsx:107-117 | more points never earn a lower tier |
| `UserContext.FindDateIndex` | src/contexts/UserContext.tsx:88 | the loop returns the first index whose date matches, or -1 exactly when no entry has that date |
| `UserContext.Upsert` | src/contexts/UserContext.tsx:86-99 | reference definition of logging a day: the log grows by one exactly when no entry has the date, and holds nothing but the old entries and the new one |
| `UserContext.UpsertReplacesFirstMatch` | src/contexts/UserContext.tsx:88-94 | when index i holds the first entry for the date, the upsert overwrites position i and nothing else |
| `UserContext.UpsertAppends` | src/contexts/UserContext.tsx:95-98 | with no entry for the date, the upsert appends the entry at the end |
| `UserContext.UpsertKeepsUniqueDates` | src/contexts/UserContext.tsx:85-99 | a log with one entry per date keeps that property |
| `UserContext.UpsertContainsEntry` | src/contexts/UserContext.tsx:86-99 | after an upsert the log holds the new entry, for every log |
| `UserContext.UpsertStoresEntry` | src/contexts/UserContext.tsx:85-99 | with unique dates, the new entry is the only entry for its date afterwards |
| `UserContext.UpsertOverwrites` | src/contexts/UserContext.tsx:88-94 | logging the same date twice equals logging only the second entry |
| `UserContext.UpsertKeepsOtherDates` | src/contexts/UserContext.tsx:85-99 | entries for other dates are kept; the log grows by at most one |
| `UserContext.ProfileFrom` | src/contexts/UserContext.tsx:129-139 | each field is the supplied value when truthy and its default otherwise (target falls back to weight, then 70); the result has no falsy field but points |
| `UserContext.LoginWithNoFields` | src/contexts/UserContext.tsx:129-139 | an empty partial profile yields the default profile User/30/170/70/None/general fitness/70/0/Beginner |
| `UserContext.LoginIsIdempotent` | src/contexts/UserContext.tsx:129-139 | signing in again with a built profile gives the same profile |
| `UserContext.LoginKeepsSuppliedLevel` | src/contexts/UserContext.tsx:137-138 | a supplied level is kept even when it disagrees with the points |
| `UserContext.LoadedUser` | src/contexts/UserContext.tsx:55-58 | the profile is read exactly when the key holds a stored profile, and it is that profile |
| `UserContext.LoadedLoggedIn` | src/contexts/UserContext.tsx:60-62 | the flag is set exactly when the stored text is `"true"` |
| `UserContext.LoadedProgress` | src/contexts/UserContext.tsx:64-67 | the stored log when the key holds one, and the empty log otherwise |
| `UserContext.WriteUser` | src/contexts/UserContext.tsx:69-75 | the profile effect writes the profile or removes its key, and leaves every other key as it was |
| `UserContext.WriteFlag` | src/contexts/UserContext.tsx:77-79 | the flag effect writes the flag as text, and leaves every other key as it was |
| `UserContext.WriteLog` | src/contexts/UserContext.tsx:81-83 | the log effect writes the log, and leaves every other key as it was |
| `UserContext.Persisted` | src/contexts/UserContext.tsx:69-83 | the write-back effects leave the store in step with the state, and other keys untouched |
| `UserContext.ReloadRoundTrip` | src/contexts/UserContext.tsx:55-83 | reading back a persisted store gives the same profile, flag and log |
| `UserContext.UserSession.constructor` | src/contexts/UserContext.tsx:55-67 | mounting loads the three keys, falling back to no profile, false and an empty log; the store then holds exactly that state |
| `UserContext.UserSession.SetUser` | src/contexts/UserContext.tsx:69-75 | sets the profile, and only the profile effect runs; the store keeps its reordering invariant |
| `UserContext.UserSession.SetIsLoggedIn` | src/contexts/UserContext.tsx:77-79 | sets the flag, and only the flag effect runs |
| `UserContext.UpsertByIndex` | src/contexts/UserContext.tsx:85-98 | the find-then-replace-or-append updater computes exactly the reference upsert |
| `UserContext.Rewarded` | src/contexts/UserContext.tsx:101-121 | the profile gains exactly 10 points, its level is the tier of the new total, and every other field is kept |
| `UserContext.UserSession.AddProgress` | src/contexts/UserContext.tsx:85-125 | the log becomes the upsert; with a profile, points rise by 10 and the level is recomputed from them; unique dates are kept; the log effect (and the profile effect when there is a profile) runs, so the store holds exactly the new state |
| `UserContext.UserSession.Login` | src/contexts/UserContext.tsx:127-143 | the profile becomes the defaulted one and the flag is set; the log is untouched; the profile and flag effects run |
| `UserContext.UserSession.Logout` | src/contexts/UserContext.tsx:145-148 | only the flag is cleared and written; profile and log stay |
| `ProgressPage.CardioMinutes` | src/pages/Progress.tsx:102 | a blank or unparseable cardio box logs 0 minutes; a parsed number is logged as is |
| `ProgressPage.EntryFrom` | src/pages/Progress.tsx:98-104 | the submitted entry carries the day, the parsed weight, the workout box and the notes; its cardio minutes are 0 exactly when the box is blank, unparseable or zero |
| `ProgressPage.FormFromEntry` | src/pages/Progress.tsx:59-65 | a form shown for an existing entry can be submitted, and submitting it unchanged logs that same entry |
| `ProgressPage.BlankForm` | src/pages/Progress.tsx:66-73 | a day with no entry shows the profile's weight (none without a profile); submitted untouched it logs that weight, no workout, 0 minutes and no notes |
| `ProgressPage.ProgressForm.constructor` | src/pages/Progress.tsx:41-47 | the form starts on the given day with blank fields |
| `ProgressPage.ProgressForm.Select` | src/pages/Progress.tsx:41 | picking a day changes only the selected day |
| `ProgressPage.ProgressForm.Prefill` | src/pages/Progress.tsx:55-75 | the form shows the first entry for the day, or else the profile's weight and blanks |
| `ProgressPage.ProgressForm.HandleInputChange` | src/pages/Progress.tsx:79-85 | a keystroke changes only its own field |
| `ProgressPage.ProgressForm.HandleCheckboxChange` | src/pages/Progress.tsx:87-93 | the checkbox changes only the workout flag |
| `ProgressPage.ProgressForm.HandleSubmit` | src/pages/Progress.tsx:95-110 | submitting upserts the form's entry for that day and awards 10 points; the store then holds exactly that log and profile |
| `ProgressPage.CompletedWorkouts` | src/pages/Progress.tsx:119 | the count never exceeds the log's length |
| `ProgressPage.TotalCardioMinutes` | src/pages/Progress.tsx:120 | the total is non-negative when no entry is negative |
| `ProgressPage.CompletedExtremes` | src/pages/Progress.tsx:119 | the count is 0 exactly when no entry is completed, and the length exactly when all are |
| `ProgressPage.CardioBoundsEachEntry` | src/pages/Progress.tsx:120 | with no negative entries, the total is non-negative and at least each entry's minutes |
| `ProgressPage.CompletedAppend` | src/pages/Progress.tsx:119 | the count of a concatenation is the sum of the counts |
| `ProgressPage.CardioAppend` | src/pages/Progress.tsx:120 | the total of a concatenation is the sum of the totals |
| `ProgressPage.CompletedIsPermutationInvariant` | src/pages/Progress.tsx:112-119 | any reordering of the log, the in-place sort included, keeps the count |
| `ProgressPage.CardioIsPermutationInvariant` | src/pages/Progress.tsx:112-120 | any reordering of the log keeps the cardio total |
| `ProgressPage.TrimStart` | src/pages/Progress.tsx:163 | the result is a suffix of the note that starts with a non-white-space character or is empty |
| `ProgressPage.TrimStartDropsOnlyWhitespace` | src/pages/Progress.tsx:163 | everything trimming the start removes is white space |
| `ProgressPage.TrimEnd` | src/pages/Progress.tsx:163 | the result is a prefix of the note that ends with a non-white-space character or is empty |
| `ProgressPage.TrimEndDropsOnlyWhitespace` | src/pages/Progress.tsx:163 | everything trimming the end removes is white space |
| `ProgressPage.Trim` | src/pages/Progress.tsx:163 | trimming gives the empty string exactly for an all-white-space note; otherwise both ends are non-white-space |
| `ProgressPage.StrengthLogs` | src/pages/Progress.tsx:163 | the number of noted entries never exceeds the log's length |
| `ProgressPage.SortByDate` | src/pages/Progress.tsx:112-113 | the array ends up in ascending date order and is a permutation of what it held |
| `ProgressPage.SortedUniqueIsStrict` | src/pages/Progress.tsx:112-113 | with one entry per date, the sorted order is strict |
| `ProgressPage.ChartSeries` | src/pages/Progress.tsx:114-117 | one point per entry, in log order, with that entry's date and weight |
| `ProgressPage.WeightLost` | src/pages/Progress.tsx:149-152 | no loss for fewer than two entries; otherwise the loss is positive exactly when the last weight is below the first |
| `ProgressPage.Earned` | src/pages/Progress.tsx:122-171 | reference definition: the five candidates in rule order, each kept when its rule holds; at most five |
| `ProgressPage.GetAchievements` | src/pages/Progress.tsx:122-171 | the list pushed is exactly the rule-ordered candidates that qualify |
| `ProgressPage.PushWhen` | src/pages/Progress.tsx:125-147 | one count rule pushes its achievement exactly when its condition holds |
| `ProgressPage.PushWeightLoss` | src/pages/Progress.tsx:149-160 | the weight-loss rule pushes the loss from first to last entry exactly when a weight-loss goal has two entries and the weight went down |
| `ProgressPage.PushStrength` | src/pages/Progress.tsx:162-171 | the strength rule pushes exactly when a muscle-gain goal has two entries and three with notes |
| `ProgressPage.AchievementRules` | src/pages/Progress.tsx:125-171 | an achievement is listed exactly when its rule holds and it carries the log's cardio total or weight loss |
| `ProgressPage.AchievementsInRuleOrder` | src/pages/Progress.tsx:122-171 | the achievements come in rule order, each at most once, so at most five |
| `ProgressPage.RuleOrderBoundsLength` | src/pages/Progress.tsx:122-171 | a list in strict rule order has at most five entries |
| `ProgressPage.StrengthGuardIsRedundant` | src/pages/Progress.tsx:162-165 | the strength rule's two-entry guard never decides anything |
| `ProgressPage.Render` | src/pages/Progress.tsx:77-171 | without a profile nothing happens; otherwise the session's own log is sorted in place by date while the store is left as it was, the chart follows the sorted log, the totals equal those before sorting, and at most five achievements are listed |
| `ProgressPage.VisitingProgressMovesCurrentWeight` | src/pages/Progress.tsx:112-113 | with the later day logged first, the dashboard's current weight is 80 kg before the sort and 78 kg after it |
| `Dashboard.Bmi` | src/pages/Dashboard.tsx:25 | the index times the squared height in metres is the weight; there is no index at zero height |
| `Dashboard.Band` | src/pages/Dashboard.tsx:26-31 | the four bands partition the reals at 18.5, 25 and 30 |
| `Dashboard.BandMonotone` | src/pages/Dashboard.tsx:26-31 | a higher index never falls in a lower band |
| `Dashboard.ProfileBand` | src/pages/Dashboard.tsx:25-31 | the shown band is the index's band; at zero height it is Underweight for a negative weight and Obese otherwise |
| `Dashboard.SeventyKiloProfileIsNormal` | src/pages/Dashboard.tsx:25-31 | 70 kg at 170 cm is Normal |
| `Dashboard.CurrentWeight` | src/pages/Dashboard.tsx:36-38 | the last entry's weight, or the profile weight for an empty log |
| `Dashboard.Round` | src/pages/Dashboard.tsx:45 | `Math.round` picks the integer within half a unit, rounding halves up |
| `Dashboard.GoalProgressPercent` | src/pages/Dashboard.tsx:40-48 | 100 when start equals target; otherwise the change ratio rounded to the nearest integer, capped at 100 exactly from 99.5; always within 0–100 |
| `Dashboard.NoChangeIsNoProgress` | src/pages/Dashboard.tsx:42-45 | no change from the start weight is 0% |
| `Dashboard.EmptyLogShowsNoProgress` | src/pages/Dashboard.tsx:36-48 | with an empty log the dashboard shows 0%, or 100% at the target |
| `Dashboard.ProgressIgnoresDirection` | src/pages/Dashboard.tsx:43-45 | moving away from the target scores like moving towards it |
| `Dashboard.EightyToSeventyFive` | src/pages/Dashboard.tsx:40-48 | from 80 targeting 75: 78 kg is 40%, and 85 kg is 100% |
| `Dashboard.NextThreshold` | src/pages/Dashboard.tsx:149-160 | the four lower tiers have a next threshold, one above their last point, where the chain promotes by one tier |
| `Dashboard.LevelBarValue` | src/pages/Dashboard.tsx:163-170 | the bar is points as a percentage of the next threshold, and full otherwise |
| `Dashboard.PointsToNext` | src/pages/Dashboard.tsx:148-161 | the line appears for the four lower tiers, and points plus the figure reach the threshold |
| `Dashboard.ConsistentLevelCard` | src/pages/Dashboard.tsx:148-170 | for the tier the points earn, the figure is positive, earning it promotes by exactly one tier, and the bar is in [0, 100) |
| `Dashboard.IntermediateBarStartsAtForty` | src/pages/Dashboard.tsx:166 | a new Intermediate at 100 points already shows 40 |
| `Dashboard.GenerateWorkout` | src/pages/Dashboard.tsx:55-84 | every day's workout lists at least three exercises |
| `Dashboard.SundayIsRestForEveryGoal` | src/pages/Dashboard.tsx:81-82 | Sunday takes the default rest day whatever the goal |
| `Dashboard.OtherGoalsShareAPlan` | src/pages/Dashboard.tsx:56-80 | every goal except muscle gain gets the same workout each day |
| `Dashboard.MuscleGainHasItsOwnPlan` | src/pages/Dashboard.tsx:56-83 | muscle gain's workout differs from the others' on every day except Sunday |
| `Dashboard.RestDays` | src/pages/Dashboard.tsx:55-84 | "Rest Day" is Sunday's title, and Wednesday's for muscle gain, and no other day's |
| `Dashboard.MealPlanFor` | src/pages/Dashboard.tsx:89-120 | weight loss, muscle gain and maintain each get their own plan, and exactly those goals do; general fitness and any unlisted goal fall to the default plan |
| `ProfilePage.LevelTableShape` | src/pages/Profile.tsx:38-74 | five rows from 0, strictly ascending, each linked to the next, only the last without a next tier |
| `ProfilePage.LevelTableAgreesWithChain` | src/pages/Profile.tsx:38-74 | each row's span of points is exactly the session chain's span for that tier |
| `ProfilePage.FindLevel` | src/pages/Profile.tsx:143 | the find returns the first row for the level, and nothing exactly when none matches |
| `ProfilePage.CurrentLevelDetail` | src/pages/Profile.tsx:143 | the row for a listed level, and the Beginner row for any other |
| `ProfilePage.NextLevelProgress` | src/pages/Profile.tsx:145-153 | 100 at the top tier; otherwise the floor of the covered share of the tier's span in percent |
| `ProfilePage.NextLevelProgressBounds` | src/pages/Profile.tsx:147-152 | within the tier's span the bar lies in [0, 100) |
| `ProfilePage.PointsUntilNextLevel` | src/pages/Profile.tsx:315-318 | the line appears exactly when there is a next tier, and points plus the figure reach it |
| `ProfilePage.ConsistentLevelRow` | src/pages/Profile.tsx:143-153 | for the tier the points earn, the row starts at or below them, the bar is below full unless at the top, and the points to go are positive |
| `ProfilePage.PointsToGoAgreeWithDashboard` | src/pages/Profile.tsx:318 | for every listed level the figure matches the dashboard's |
| `ProfilePage.RowThresholdIsDashboardThreshold` | src/pages/Profile.tsx:38-74 | a listed tier's row has a next tier exactly when the dashboard has a threshold, and names the same points |
| `ProfilePage.UnlistedLevelCountsTowardsIntermediate` | src/pages/Profile.tsx:143-153 | for an unlisted level the dashboard shows no figure, while the profile falls back to the Beginner row and counts towards 100 |
| `ProfilePage.BarsDisagreeAtIntermediate` | src/pages/Profile.tsx:145-153 | at 100 points this bar is 0 while the dashboard's is 40 |
| `Numbers.Trunc` | src/pages/Profile.tsx:126-131 | `parseInt` of a decimal keeps the integer part, towards zero |
| `Numbers.TruncKeepsWholeNumbers` | src/pages/Profile.tsx:100-131 | truncation leaves a number unchanged exactly when it is whole |
| `ProfilePage.FormFromProfile` | src/pages/Profile.tsx:96-108 | the prefilled form holds the profile's text fields and the integer parts of its numbers |
| `ProfilePage.Saved` | src/pages/Profile.tsx:123-132 | the seven editable fields come from the form unchecked, and points and level are carried over |
| `ProfilePage.SaveAfterPrefill` | src/pages/Profile.tsx:96-132 | saving the prefilled form unchanged returns the profile exactly when height and both weights are whole |
| `ProfilePage.SaveIsIdempotent` | src/pages/Profile.tsx:123-132 | saving twice from one form equals saving once |
| `ProfilePage.ProfileForm.constructor` | src/pages/Profile.tsx:80-88 | every box starts blank and no goal is chosen |
| `ProfilePage.ProfileForm.Prefill` | src/pages/Profile.tsx:96-108 | the form takes the profile's values |
| `ProfilePage.ProfileForm.HandleInputChange` | src/pages/Profile.tsx:112-118 | a keystroke changes only its own field |
| `ProfilePage.ProfileForm.HandleGoalChange` | src/pages/Profile.tsx:236 | the picker changes only the goal |
| `ProfilePage.ProfileForm.HandleSaveProfile` | src/pages/Profile.tsx:120-136 | the session's profile becomes the saved one and only the profile key is rewritten; the flag and the log are untouched |
| `LoginPage.ParseNum` | src/pages/Login.tsx:52-54 | a blank box parses to nothing, a typed number to its integer part |
| `LoginPage.UserData` | src/pages/Login.tsx:50-60 | the parsed fields, the weight standing in for a blank target, 0 points and Beginner |
| `LoginPage.NewAccountStartsAsBeginner` | src/pages/Login.tsx:58-59 | a new account has 0 points at Beginner, which the chain also gives 0 points |
| `LoginPage.BlankTargetIsTheWeight` | src/pages/Login.tsx:57 | with the target blank, the profile's target equals its weight |
| `LoginPage.AgeBelowOneBecomesThirty` | src/pages/Login.tsx:45-52 | an age typed below one passes the check but the session stores 30 |
| `LoginPage.DemoProfileIsConsistent` | src/pages/Login.tsx:67-80 | the demo profile is taken as is, and its 50 points are Beginner points |
| `LoginPage.LoginForm.constructor` | src/pages/Login.tsx:18-26 | blank boxes, general fitness, step one |
| `LoginPage.LoginForm.Edit` | src/pages/Login.tsx:115-209 | typing or picking changes only that field and not the step |
| `LoginPage.LoginForm.HandleLogin` | src/pages/Login.tsx:36-65 | on step one with a name it moves to step two; otherwise it refuses while age, height or weight is blank, and signs in with the built profile once all are there, rewriting only the profile and flag keys; the typed fields are kept |
| `LoginPage.LoginForm.HandleDemoLogin` | src/pages/Login.tsx:67-83 | the session holds the demo profile and is signed in; only the profile and flag keys are rewritten |
| `LoginPage.LoginForm.Back` | src/pages/Login.tsx:215-221 | back to step one with every field kept |
| `WorkoutPage.TodayIndex` | src/pages/Workout.tsx:424-426 | the index is the position of today's weekday in the Monday-first week |
| `Calendar.WeekdayOfJsDay` | src/pages/Workout.tsx:424-425 | a `getDay()` number names Sunday exactly when it is 0, and Saturday exactly when it is 6 |
| `WorkoutPage.TodayIndexIsBijective` | src/pages/Workout.tsx:424-426 | the mapping and its inverse undo each other on 0..6; Monday is 0 and Sunday 6 |
| `WorkoutPage.WeekOrderIsInjective` | src/pages/Workout.tsx:424-426 | no weekday is at two positions |
| `WorkoutPage.WeeklyPlan` | src/pages/Workout.tsx:11-409 | each of the four goals has its own plan, and no other goal has one |
| `WorkoutPage.PlanFor` | src/pages/Workout.tsx:435 | the goal's plan, or the general-fitness plan when it has none |
| `WorkoutPage.EveryPlanIsAWeek` | src/pages/Workout.tsx:12-409 | every plan lists seven days Monday to Sunday and rests on Sunday |
| `WorkoutPage.TodaysTabIsToday` | src/pages/Workout.tsx:424-446 | today's tab exists in every plan and shows today's weekday |
| `WorkoutPage.ExactlyOneTabOffersCompletion` | src/pages/Workout.tsx:534-541 | exactly one tab offers "Mark as Completed" |
| `WorkoutPage.HandleCompleteWorkout` | src/pages/Workout.tsx:428-432 | completing a workout changes neither the profile nor the log |

## Left out

- Rendering is not modelled. This covers icons, colours, toasts, navigation and route guards, and the "(Today)" label. The time-of-day clock is left out; today's date and weekday are parameters.
- JSON text is not modelled. Stored values are the records they encode. `JSON.parse` on malformed stored text throws in the source. The model only reads well-formed stores, so its constructor requires a well-formed store.
- Text-to-number parsing is not modelled. The forms hold what `parseFloat`/`parseInt` make of the typed text: `Option` results, or `Blank`/`Typed` where the code tests the text itself. Exponent notation, which `parseInt` stops at, is not modelled.
- The `required` attributes are enforced by the browser, not by the code. They become the preconditions of the progress and profile submit handlers, where a blank box would otherwise produce NaN.
- Floating point is not modelled. Weights, BMI and bar values are exact reals. At zero height the profile band follows the sign rules of IEEE infinities and NaN. `toFixed(1)`, string formatting and the date labels are left out.
- React effects and batching are taken to run straight after each handler. The stale-closure reads of `user` inside handlers are not modelled.
- The static strings are left out: the meal-plan texts and each exercise's sets, reps, rest and notes in the weekly plans. Only which meal plan is chosen and how many exercises a day lists are kept.
- ProgressPage.SortByDate: the model's sort is an insertion sort, proved sorted and a permutation. The source calls `Array.prototype.sort`; its stability and comparator calls are not modelled.
- The Profile page's logout button is not modelled. It only calls the session's `Logout`, which is modelled.
- ProgressPage.Render: the page sorts the session's log in place. Because no write-back effect runs, the store keeps the order the entries were logged in. This is modelled: the session invariant only asks the stored log to be a reordering of the state's log. The model does not follow the array into pages rendered later. It does prove, in `VisitingProgressMovesCurrentWeight`, that the dashboard's current weight changes after such a sort.
- ProfilePage.Saved: the weight and target boxes step by 0.1 (src/pages/Profile.tsx:223, 256). A text with a leading dot, such as ".5", passes `required`, but `parseInt` gives NaN for it, and the source saves that NaN (src/pages/Profile.tsx:128-131). The profile's numbers are reals without NaN, so the model requires every number box to parse. That path is not modelled.
- ProfilePage.ProfileForm.HandleSaveProfile: the same leading-dot decimal, which would save a NaN weight or target, is excluded by its precondition and not modelled.
- WorkoutPage.WeeklyPlan: the table is a plain JavaScript object. A stored goal that names a member every object inherits ("constructor", "toString", "__proto__" and the like) finds that member instead of nothing. The model treats every unlisted goal as having no plan.
- WorkoutPage.PlanFor: for such an inherited name the source does not fall back to the general-fitness plan. The inherited member is truthy, so the page's map over it throws (src/pages/Workout.tsx:435, 445). The model falls back for every unlisted goal.

In these places the code has no check or recovery; the model follows the code:
- Saving the profile does not check that numbers are positive or that the name is non-blank (src/pages/Profile.tsx:120-134). `Saved` stores whatever parsed.
- Logging progress does not check the weight. A negative cardio figure is kept as typed (src/pages/Progress.tsx:98-104).
- Malformed stored JSON is not recovered to defaults; `JSON.parse` throws (src/contexts/UserContext.tsx:55-67).
- The workout page's toast says "+10 points added", but `handleCompleteWorkout` changes nothing (src/pages/Workout.tsx:428-432).
