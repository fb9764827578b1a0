/**
 * The workout page: a seven-day plan per goal, shown as one tab per day with
 * today's tab picked out.
 */
module WorkoutPage {
  import opened Wrappers
  import opened Calendar
  import opened UserContext

  /** The plans' day order, Monday first. */
  const WeekOrder: seq<Weekday> := [Monday, Tuesday, Wednesday, Thursday, Friday, Saturday, Sunday]

  /** `todayIndex`: the position of `getDay()`'s weekday in the Monday-first week. */
  function TodayIndex(d: JsDay): (i: nat)
    ensures i < |WeekOrder| && WeekOrder[i] == WeekdayOfJsDay(d)
  {
    if d == 0 then 6 else d - 1
  }

  /** The `getDay()` number of a position in the Monday-first week. */
  function JsDayAt(i: nat): (d: JsDay)
    requires i < 7
    ensures WeekdayOfJsDay(d) == WeekOrder[i]
  {
    if i == 6 then 0 else i + 1
  }

  /** The mapping is a bijection of 0..6: each position is one day's index,
      and distinct days get distinct positions. Monday is at 0, Sunday at 6. */
  lemma TodayIndexIsBijective(d: JsDay, i: nat)
    requires i < 7
    ensures TodayIndex(JsDayAt(i)) == i
    ensures JsDayAt(TodayIndex(d)) == d
    ensures TodayIndex(1) == 0 && TodayIndex(0) == 6
  {
  }

  /** A weekday cannot sit at two positions of the week. */
  lemma WeekOrderIsInjective(i: nat, j: nat)
    requires i < |WeekOrder| && j < |WeekOrder| && WeekOrder[i] == WeekOrder[j]
    ensures i == j
  {
  }

  /** One day of a plan (the exercises' sets, reps and notes are not
      modelled, only how many there are). */
  datatype PlanDay = PlanDay(
    day: Weekday,
    title: string,
    exerciseCount: nat,
    cardio: bool,
    duration: string,
    intensity: string,
    isRest: bool)

  const WeightLossPlan: seq<PlanDay> := [
    PlanDay(Monday, "Upper Body + Cardio", 5, true, "45-60 min", "Moderate", false),
    PlanDay(Tuesday, "Lower Body", 5, false, "40-50 min", "Moderate", false),
    PlanDay(Wednesday, "Cardio Day", 5, true, "45-50 min", "High", false),
    PlanDay(Thursday, "Full Body Circuit", 5, true, "30-40 min", "High", false),
    PlanDay(Friday, "Upper Body", 5, false, "40-50 min", "Moderate", false),
    PlanDay(Saturday, "HIIT Training", 5, true, "30-40 min", "Very High", false),
    PlanDay(Sunday, "Rest & Recovery", 4, false, "30-60 min", "Light", true)
  ]

  const MuscleGainPlan: seq<PlanDay> := [
    PlanDay(Monday, "Chest & Triceps", 5, false, "60-70 min", "High", false),
    PlanDay(Tuesday, "Back & Biceps", 5, false, "60-70 min", "High", false),
    PlanDay(Wednesday, "Rest Day", 3, false, "30-50 min", "Light", true),
    PlanDay(Thursday, "Shoulders & Abs", 5, false, "55-65 min", "High", false),
    PlanDay(Friday, "Legs", 5, false, "60-70 min", "Very High", false),
    PlanDay(Saturday, "Arms & Abs", 5, false, "50-60 min", "Moderate-High", false),
    PlanDay(Sunday, "Rest Day", 3, false, "30-60 min", "Light", true)
  ]

  const GeneralFitnessPlan: seq<PlanDay> := [
    PlanDay(Monday, "Full Body Strength", 5, false, "45-55 min", "Moderate", false),
    PlanDay(Tuesday, "Cardio & Core", 5, true, "40-50 min", "Moderate", false),
    PlanDay(Wednesday, "Active Recovery", 4, false, "40-55 min", "Light", true),
    PlanDay(Thursday, "Functional Fitness", 5, true, "45-55 min", "Moderate-High", false),
    PlanDay(Friday, "Upper Body Focus", 5, false, "45-55 min", "Moderate", false),
    PlanDay(Saturday, "Lower Body & Cardio", 5, true, "45-55 min", "Moderate-High", false),
    PlanDay(Sunday, "Rest Day", 3, false, "30-55 min", "Light", true)
  ]

  const MaintainPlan: seq<PlanDay> := [
    PlanDay(Monday, "Upper Body Strength", 5, false, "45-55 min", "Moderate", false),
    PlanDay(Tuesday, "Cardio Session", 4, true, "35-45 min", "Moderate-High", false),
    PlanDay(Wednesday, "Lower Body Focus", 5, false, "45-55 min", "Moderate", false),
    PlanDay(Thursday, "Active Recovery", 4, false, "45-60 min", "Light", true),
    PlanDay(Friday, "Core & Balance", 5, false, "40-50 min", "Moderate", false),
    PlanDay(Saturday, "Full Body Circuit", 6, true, "40-50 min", "Moderate-High", false),
    PlanDay(Sunday, "Rest Day", 3, false, "30-55 min", "Light", true)
  ]

  /** The weekly table looked up by goal: a plan for each of the four goals,
      none for any other name (names every JavaScript object inherits, such as
      "constructor", are not modelled). */
  function WeeklyPlan(goal: Goal): (p: Option<seq<PlanDay>>)
    ensures p.None? <==> goal.Unlisted?
    ensures p == Some(WeightLossPlan) <==> goal == WeightLoss
    ensures p == Some(MuscleGainPlan) <==> goal == MuscleGain
    ensures p == Some(GeneralFitnessPlan) <==> goal == GeneralFitness
    ensures p == Some(MaintainPlan) <==> goal == Maintain
  {
    match goal
    case WeightLoss => Some(WeightLossPlan)
    case MuscleGain => Some(MuscleGainPlan)
    case GeneralFitness => Some(GeneralFitnessPlan)
    case Maintain => Some(MaintainPlan)
    case Unlisted(_) => None
  }

  /** `workoutPlan`: the goal's plan, falling back to general fitness. */
  function PlanFor(goal: Goal): (p: seq<PlanDay>)
    ensures WeeklyPlan(goal).Some? ==> p == WeeklyPlan(goal).value
    ensures WeeklyPlan(goal).None? ==> p == GeneralFitnessPlan
  {
    match WeeklyPlan(goal)
    case Some(plan) => plan
    case None => GeneralFitnessPlan
  }

  /** A plan that lists the week Monday to Sunday and rests on Sunday. */
  predicate WellShapedWeek(p: seq<PlanDay>) {
    |p| == |WeekOrder| &&
    (forall i :: 0 <= i < |p| ==> p[i].day == WeekOrder[i]) &&
    p[|p| - 1].isRest
  }

  /** Every goal's plan, the fallback included, is a well-shaped week. */
  lemma EveryPlanIsAWeek(goal: Goal)
    ensures WellShapedWeek(PlanFor(goal))
  {
    match goal
    case WeightLoss => WeightLossPlanIsAWeek();
    case MuscleGain => MuscleGainPlanIsAWeek();
    case Maintain => MaintainPlanIsAWeek();
    case _ => GeneralFitnessPlanIsAWeek();
  }

  /** The four tables, one by one. */
  lemma WeightLossPlanIsAWeek()
    ensures WellShapedWeek(WeightLossPlan)
  {
  }

  lemma MuscleGainPlanIsAWeek()
    ensures WellShapedWeek(MuscleGainPlan)
  {
  }

  lemma GeneralFitnessPlanIsAWeek()
    ensures WellShapedWeek(GeneralFitnessPlan)
  {
  }

  lemma MaintainPlanIsAWeek()
    ensures WellShapedWeek(MaintainPlan)
  {
  }

  /** Today's tab shows the plan's entry for today's weekday. */
  lemma TodaysTabIsToday(goal: Goal, d: JsDay)
    ensures TodayIndex(d) < |PlanFor(goal)|
    ensures PlanFor(goal)[TodayIndex(d)].day == WeekdayOfJsDay(d)
  {
    EveryPlanIsAWeek(goal);
  }

  /** The "Mark as Completed" button sits on the tab whose index is today's. */
  predicate ShowsCompleteButton(index: int, d: JsDay) {
    index == TodayIndex(d)
  }

  /** Exactly one of the plan's tabs offers the button. */
  lemma ExactlyOneTabOffersCompletion(goal: Goal, d: JsDay)
    ensures exists i :: 0 <= i < |PlanFor(goal)| && ShowsCompleteButton(i, d)
    ensures forall i, j :: ShowsCompleteButton(i, d) && ShowsCompleteButton(j, d) ==> i == j
  {
    TodaysTabIsToday(goal, d);
    assert ShowsCompleteButton(TodayIndex(d), d);
  }

  /** `handleCompleteWorkout` only shows a toast (whose text promises ten
      points): the session's profile, flag and log stay as they are. */
  method HandleCompleteWorkout(session: UserSession)
    requires session.Valid()
    ensures session.Valid() && unchanged(session)
  {
  }
}
