/**
 * The dashboard's derived figures: body-mass index and its band, progress
 * towards the target weight, the level progress bar, and today's workout.
 */
module Dashboard {
  import opened Wrappers
  import opened Calendar
  import opened UserContext

  // ---------------------------------------------------------------------------
  // Body-mass index

  /** The body-mass index: the weight over the square of the height in metres, with weight in kilograms and height in
      centimetres. A zero height has no real quotient (the browser produces an
      infinity or NaN there). */
  function Bmi(weight: real, height: real): (b: Option<real>)
    ensures b.None? <==> height == 0.0
    ensures b.Some? ==> b.value * ((height / 100.0) * (height / 100.0)) == weight
  {
    if height == 0.0 then None
    else
      var m := height / 100.0;
      assert m * m > 0.0 by { assert m != 0.0; }
      Some(weight / (m * m))
  }

  datatype BmiBand = Underweight | Normal | Overweight | Obese

  function BandRank(c: BmiBand): nat {
    match c
    case Underweight => 0
    case Normal => 1
    case Overweight => 2
    case Obese => 3
  }

  /** `bmiCategory`: the first band whose upper bound the index is below. */
  function Band(b: real): (c: BmiBand)
    ensures c == Underweight <==> b < 18.5
    ensures c == Normal <==> 18.5 <= b < 25.0
    ensures c == Overweight <==> 25.0 <= b < 30.0
    ensures c == Obese <==> 30.0 <= b
  {
    if b < 18.5 then Underweight
    else if b < 25.0 then Normal
    else if b < 30.0 then Overweight
    else Obese
  }

  /** A higher index never falls in a lower band. */
  lemma BandMonotone(a: real, b: real)
    requires a <= b
    ensures BandRank(Band(a)) <= BandRank(Band(b))
  {
  }

  /** The band shown for a profile. At zero height the quotient is -Infinity
      for a negative weight (every comparison holds: Underweight) and +Infinity
      or NaN otherwise (no comparison holds: Obese). */
  function ProfileBand(weight: real, height: real): (c: BmiBand)
    ensures Bmi(weight, height).Some? ==> c == Band(Bmi(weight, height).value)
    ensures height == 0.0 ==> (c == Underweight <==> weight < 0.0)
    ensures height == 0.0 ==> (c == Obese <==> weight >= 0.0)
  {
    match Bmi(weight, height)
    case Some(b) => Band(b)
    case None => if weight < 0.0 then Underweight else Obese
  }

  /** A 70 kg, 170 cm profile falls in the normal band (index about 24.2). */
  lemma SeventyKiloProfileIsNormal()
    ensures ProfileBand(70.0, 170.0) == Normal
  {
    assert (170.0 / 100.0) * (170.0 / 100.0) == 2.89;
    assert 18.5 * 2.89 <= 70.0 < 25.0 * 2.89;
  }

  // ---------------------------------------------------------------------------
  // Progress towards the target weight

  /** The latest logged weight, or the profile's weight before anything is logged. */
  function CurrentWeight(profileWeight: real, log: seq<ProgressEntry>): (w: real)
    ensures log != [] ==> w == log[|log| - 1].weight
    ensures log == [] ==> w == profileWeight
  {
    if |log| > 0 then log[|log| - 1].weight else profileWeight
  }

  function Abs(x: real): (a: real)
    ensures a >= 0.0 && (a == x || a == -x)
  {
    if x < 0.0 then -x else x
  }

  /** `Math.round`: the nearest integer, halves rounding up. */
  function Round(x: real): (n: int)
    ensures n as real - 0.5 <= x < n as real + 0.5
  {
    (x + 0.5).Floor
  }

  /** The share of the way from the start weight to the target covered by the
      distance from the start weight to the current weight, in percent. */
  function ChangeRatio(start: real, goal: real, current: real): real
    requires start != goal
  {
    Abs(start - current) / Abs(start - goal) * 100.0
  }

  /** `weightProgressPercent`: 100 when the profile sits at its target, else
      the change ratio rounded and capped at 100. */
  function GoalProgressPercent(start: real, goal: real, current: real): (p: int)
    ensures 0 <= p <= 100
    ensures start == goal ==> p == 100
    ensures start != goal ==> (p == 100 <==> ChangeRatio(start, goal, current) >= 99.5)
    ensures start != goal && p < 100 ==>
      p as real - 0.5 <= ChangeRatio(start, goal, current) < p as real + 0.5
  {
    if start != goal then
      var r := Round(ChangeRatio(start, goal, current));
      if r < 100 then r else 100
    else
      100
  }

  /** No change from the start weight is no progress. */
  lemma NoChangeIsNoProgress(start: real, goal: real)
    requires start != goal
    ensures GoalProgressPercent(start, goal, start) == 0
  {
  }

  /** Before anything is logged the dashboard shows no progress, unless the
      profile already sits at its target. */
  lemma EmptyLogShowsNoProgress(start: real, goal: real)
    ensures GoalProgressPercent(start, goal, CurrentWeight(start, [])) == if start == goal then 100 else 0
  {
  }

  /** Only the distance from the start weight counts, not its direction:
      moving away from the target scores like moving towards it. */
  lemma ProgressIgnoresDirection(start: real, goal: real, d: real)
    ensures GoalProgressPercent(start, goal, start + d) == GoalProgressPercent(start, goal, start - d)
  {
    if start != goal {
      assert Abs(start - (start + d)) == Abs(start - (start - d));
    }
  }

  /** From 80 kg towards 75 kg: 78 kg is 40%, and gaining to 85 kg shows 100%. */
  lemma EightyToSeventyFive()
    ensures GoalProgressPercent(80.0, 75.0, 78.0) == 40
    ensures GoalProgressPercent(80.0, 75.0, 85.0) == 100
  {
    assert ChangeRatio(80.0, 75.0, 78.0) == 40.0;
    assert ChangeRatio(80.0, 75.0, 85.0) == 100.0;
  }

  // ---------------------------------------------------------------------------
  // The level card

  /** The points at which the next tier starts, for the four tiers that have one. */
  function NextThreshold(l: Level): (t: Option<int>)
    ensures t.Some? <==> 0 <= Rank(l) < 4
    ensures t.Some? ==> LevelFor(t.value - 1) == l && Rank(LevelFor(t.value)) == Rank(l) + 1
  {
    match l
    case Beginner => Some(100)
    case Intermediate => Some(250)
    case GymRat => Some(500)
    case GymBro => Some(1000)
    case _ => None
  }

  /** The bar's value: points as a percentage of the next tier's threshold
      (not of the span of the current tier), and a full bar otherwise. */
  function LevelBarValue(l: Level, points: int): (v: real)
    ensures NextThreshold(l).Some? ==> v * NextThreshold(l).value as real == points as real * 100.0
    ensures NextThreshold(l).None? ==> v == 100.0
  {
    match l
    case Beginner => points as real / 100.0 * 100.0
    case Intermediate => points as real / 250.0 * 100.0
    case GymRat => points as real / 500.0 * 100.0
    case GymBro => points as real / 1000.0 * 100.0
    case _ => 100.0
  }

  /** "N points to <next tier>": no line for the top tier or an unlisted one. */
  function PointsToNext(l: Level, points: int): (n: Option<int>)
    ensures n.Some? <==> NextThreshold(l).Some?
    ensures n.Some? ==> points + n.value == NextThreshold(l).value
  {
    match NextThreshold(l)
    case Some(t) => Some(t - points)
    case None => None
  }

  /** For a tier the points earn, the points to go are positive, earning them
      reaches exactly the next tier, and the bar is not yet full. */
  lemma ConsistentLevelCard(points: int)
    requires 0 <= points
    ensures var l := LevelFor(points);
      PointsToNext(l, points).Some? ==>
        && PointsToNext(l, points).value > 0
        && Rank(LevelFor(points + PointsToNext(l, points).value)) == Rank(l) + 1
        && 0.0 <= LevelBarValue(l, points) < 100.0
  {
    var l := LevelFor(points);
    if NextThreshold(l).Some? {
      var t := NextThreshold(l).value;
      assert points < t;
      assert LevelBarValue(l, points) * t as real == points as real * 100.0;
    }
  }

  /** A fresh Intermediate at 100 points already shows a bar at 40. */
  lemma IntermediateBarStartsAtForty()
    ensures LevelBarValue(Intermediate, 100) == 40.0
  {
  }

  // ---------------------------------------------------------------------------
  // Today's workout

  datatype DailyWorkout = DailyWorkout(title: string, exercises: seq<string>)

  const SundayRest := DailyWorkout("Rest Day", ["Light Walking", "Stretching", "Yoga", "Meditation"])

  /** `generateWorkout`: a split for muscle gain and one shared plan for every
      other goal on Monday to Saturday; Sunday falls to the default rest day. */
  function GenerateWorkout(day: Weekday, goal: Goal): (w: DailyWorkout)
    ensures |w.exercises| >= 3
  {
    var muscle := goal == MuscleGain;
    match day
    case Monday =>
      if muscle then DailyWorkout("Chest & Triceps", ["Bench Press", "Incline Dumbbell Press", "Chest Flyes", "Tricep Pushdowns", "Overhead Extensions"])
      else DailyWorkout("Upper Body + Cardio", ["Push-Ups", "Shoulder Press", "Lat Pulldowns", "20 min Treadmill", "Planks"])
    case Tuesday =>
      if muscle then DailyWorkout("Back & Biceps", ["Deadlifts", "Barbell Rows", "Pull-Ups", "Bicep Curls", "Hammer Curls"])
      else DailyWorkout("Lower Body", ["Squats", "Lunges", "Leg Press", "Calf Raises", "Leg Curls"])
    case Wednesday =>
      if muscle then DailyWorkout("Rest Day", ["Light Stretching", "Foam Rolling", "20 min Walk"])
      else DailyWorkout("Cardio Day", ["30 min Running", "Jump Rope", "Cycling", "Stair Climber"])
    case Thursday =>
      if muscle then DailyWorkout("Shoulders & Abs", ["Overhead Press", "Lateral Raises", "Face Pulls", "Hanging Leg Raises", "Russian Twists"])
      else DailyWorkout("Full Body Circuit", ["Burpees", "Mountain Climbers", "Jumping Jacks", "Plank Jacks", "High Knees"])
    case Friday =>
      if muscle then DailyWorkout("Legs", ["Squats", "Romanian Deadlifts", "Leg Press", "Leg Extensions", "Hamstring Curls"])
      else DailyWorkout("Upper Body", ["Push-Ups", "Dumbbell Rows", "Shoulder Press", "Bicep Curls", "Tricep Dips"])
    case Saturday =>
      if muscle then DailyWorkout("Arms & Abs", ["Close-Grip Bench", "Skull Crushers", "Barbell Curls", "Ab Crunches", "Plank"])
      else DailyWorkout("HIIT Training", ["Tabata Intervals", "Box Jumps", "Battle Ropes", "Kettlebell Swings", "Burpees"])
    case Sunday => SundayRest
  }

  /** Sunday is the same rest day for every goal. */
  lemma SundayIsRestForEveryGoal(goal: Goal)
    ensures GenerateWorkout(Sunday, goal) == SundayRest
  {
  }

  /** Every goal but muscle gain gets the same workout on every day. */
  lemma OtherGoalsShareAPlan(day: Weekday, g1: Goal, g2: Goal)
    requires g1 != MuscleGain && g2 != MuscleGain
    ensures GenerateWorkout(day, g1) == GenerateWorkout(day, g2)
  {
  }

  /** Muscle gain has a plan of its own on Monday to Saturday. */
  lemma MuscleGainHasItsOwnPlan(day: Weekday, goal: Goal)
    requires goal != MuscleGain
    ensures GenerateWorkout(day, MuscleGain) == GenerateWorkout(day, goal) <==> day == Sunday
  {
  }

  /** The days titled "Rest Day": Sunday, and Wednesday for muscle gain. */
  lemma RestDays(day: Weekday, goal: Goal)
    ensures GenerateWorkout(day, goal).title == "Rest Day" <==>
      day == Sunday || (day == Wednesday && goal == MuscleGain)
  {
  }

  // ---------------------------------------------------------------------------
  // Meal plan

  /** Which of the four fixed meal plans is shown (their text is not modelled). */
  datatype MealPlan = WeightLossMeals | MuscleGainMeals | MaintainMeals | DefaultMeals

  /** `getMealPlan`: one plan per listed goal, general fitness and any other
      goal falling to the default plan. */
  function MealPlanFor(goal: Goal): (m: MealPlan)
    ensures m == DefaultMeals <==> goal == GeneralFitness || goal.Unlisted?
    ensures m == WeightLossMeals <==> goal == WeightLoss
    ensures m == MuscleGainMeals <==> goal == MuscleGain
    ensures m == MaintainMeals <==> goal == Maintain
  {
    match goal
    case WeightLoss => WeightLossMeals
    case MuscleGain => MuscleGainMeals
    case Maintain => MaintainMeals
    case _ => DefaultMeals
  }
}
