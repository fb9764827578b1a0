/**
 * The profile page: the table of fitness levels, the progress bar towards the
 * next level, and the form that edits the profile.
 */
module ProfilePage {
  import opened Wrappers
  import opened UserContext
  import opened Numbers
  import Dashboard

  // ---------------------------------------------------------------------------
  // The level table

  datatype NextLevel = NextLevel(level: Level, points: int)

  /** One row of the table: a tier, the points it starts at, and the tier after
      it (the description and icon are not modelled). */
  datatype LevelDetail = LevelDetail(level: Level, points: int, next: Option<NextLevel>)

  const LevelDetails: seq<LevelDetail> := [
    LevelDetail(Beginner, 0, Some(NextLevel(Intermediate, 100))),
    LevelDetail(Intermediate, 100, Some(NextLevel(GymRat, 250))),
    LevelDetail(GymRat, 250, Some(NextLevel(GymBro, 500))),
    LevelDetail(GymBro, 500, Some(NextLevel(GymShark, 1000))),
    LevelDetail(GymShark, 1000, None)
  ]

  /** The table starts at zero, climbs strictly, links each row to the one
      after it, and ends with the only row that has no next tier. */
  lemma LevelTableShape()
    ensures |LevelDetails| == 5 && LevelDetails[0].points == 0
    ensures forall i, j :: 0 <= i < j < |LevelDetails| ==> LevelDetails[i].points < LevelDetails[j].points
    ensures forall i :: 0 <= i < |LevelDetails| - 1 ==>
      LevelDetails[i].next == Some(NextLevel(LevelDetails[i + 1].level, LevelDetails[i + 1].points))
    ensures forall i :: 0 <= i < |LevelDetails| ==> (LevelDetails[i].next.None? <==> i == |LevelDetails| - 1)
  {
  }

  /** Each row's span of points is exactly the span the session's level chain
      gives that tier (the chain also files negative totals under Beginner). */
  lemma LevelTableAgreesWithChain(i: int, p: int)
    requires 0 <= i < |LevelDetails|
    ensures LevelFor(p) == LevelDetails[i].level <==>
      (i == 0 || LevelDetails[i].points <= p) &&
      (LevelDetails[i].next.Some? ==> p < LevelDetails[i].next.value.points)
  {
  }

  /** The first row of `t` for `level`, if any. */
  function FindLevel(t: seq<LevelDetail>, level: Level): (r: Option<LevelDetail>)
    ensures r.Some? <==> exists i :: 0 <= i < |t| && t[i].level == level
    ensures r.Some? ==> exists i :: 0 <= i < |t| && t[i] == r.value && r.value.level == level &&
                                   (forall j :: 0 <= j < i ==> t[j].level != level)
  {
    if t == [] then None
    else if t[0].level == level then Some(t[0])
    else
      var r := FindLevel(t[1..], level);
      if r.Some? then
        var i :| 0 <= i < |t[1..]| && t[1..][i] == r.value && r.value.level == level &&
                 (forall j :: 0 <= j < i ==> t[1..][j].level != level);
        assert t[i + 1] == r.value;
        r
      else
        None
  }

  /** `currentLevelDetail`: the row for the profile's level, or the first row
      (Beginner) for a level the table does not list. */
  function CurrentLevelDetail(level: Level): (d: LevelDetail)
    ensures d in LevelDetails
    ensures Rank(level) >= 0 ==> d.level == level && d == LevelDetails[Rank(level)]
    ensures Rank(level) < 0 ==> d == LevelDetails[0]
  {
    match FindLevel(LevelDetails, level)
    case Some(d) => d
    case None => LevelDetails[0]
  }

  // ---------------------------------------------------------------------------
  // Progress towards the next level

  /** `calculateNextLevelProgress`: the share of the current tier's span the
      points have covered, in percent, rounded down; 100 at the top tier. */
  function NextLevelProgress(d: LevelDetail, points: int): (p: int)
    requires d.next.Some? ==> d.next.value.points != d.points
    ensures d.next.None? ==> p == 100
    ensures d.next.Some? ==>
      var span := (d.next.value.points - d.points) as real;
      var covered := (points - d.points) as real / span * 100.0;
      p as real <= covered < p as real + 1.0
  {
    match d.next
    case None => 100
    case Some(n) => ((points - d.points) as real / (n.points - d.points) as real * 100.0).Floor
  }

  /** Within the current tier's span the progress is below a full bar. */
  lemma NextLevelProgressBounds(d: LevelDetail, points: int)
    requires d.next.Some? && d.points <= points < d.next.value.points
    ensures 0 <= NextLevelProgress(d, points) < 100
  {
    var span := (d.next.value.points - d.points) as real;
    var done := (points - d.points) as real;
    assert 0.0 <= done < span;
    assert 0.0 <= done / span < 1.0 by {
      assert done / span * span == done;
    }
  }

  /** "N more points until <next tier>" for the profile's row. */
  function PointsUntilNextLevel(d: LevelDetail, points: int): (n: Option<int>)
    ensures n.Some? <==> d.next.Some?
    ensures n.Some? ==> points + n.value == d.next.value.points
  {
    match d.next
    case None => None
    case Some(next) => Some(next.points - points)
  }

  /** For a level the points earn, the row's bar lies in [0, 100), full only at
      the top tier, and the points to go are positive. */
  lemma ConsistentLevelRow(points: int)
    requires 0 <= points
    ensures var d := CurrentLevelDetail(LevelFor(points));
      && d.points <= points
      && (d.next.None? <==> points >= 1000)
      && (d.next.Some? ==> 0 <= NextLevelProgress(d, points) < 100)
      && (d.next.None? ==> NextLevelProgress(d, points) == 100)
      && (d.next.Some? ==> PointsUntilNextLevel(d, points).value > 0)
  {
    var d := CurrentLevelDetail(LevelFor(points));
    if d.next.Some? {
      NextLevelProgressBounds(d, points);
    }
  }

  /** The profile and the dashboard name the same points to go for every
      listed level. */
  lemma PointsToGoAgreeWithDashboard(level: Level, points: int)
    requires Rank(level) >= 0
    ensures PointsUntilNextLevel(CurrentLevelDetail(level), points) == Dashboard.PointsToNext(level, points)
  {
    RowThresholdIsDashboardThreshold(level);
  }

  /** For a level the table does not list, the dashboard shows no points to
      go while the profile counts towards Intermediate from the first row. */
  lemma UnlistedLevelCountsTowardsIntermediate(level: Level, points: int)
    requires Rank(level) < 0
    ensures Dashboard.PointsToNext(level, points).None?
    ensures PointsUntilNextLevel(CurrentLevelDetail(level), points) == Some(100 - points)
  {
  }

  /** A listed tier's row names the same next threshold as the dashboard. */
  lemma RowThresholdIsDashboardThreshold(level: Level)
    requires Rank(level) >= 0
    ensures CurrentLevelDetail(level).next.Some? <==> Dashboard.NextThreshold(level).Some?
    ensures CurrentLevelDetail(level).next.Some? ==>
      CurrentLevelDetail(level).next.value.points == Dashboard.NextThreshold(level).value
  {
  }

  /** The two bars measure differently: a fresh Intermediate at 100 points is
      at 0 here and at 40 on the dashboard. */
  lemma BarsDisagreeAtIntermediate()
    ensures NextLevelProgress(CurrentLevelDetail(Intermediate), 100) == 0
    ensures Dashboard.LevelBarValue(Intermediate, 100) == 40.0
  {
  }

  // ---------------------------------------------------------------------------
  // The profile form

  /** The form's fields. Each number box holds what `parseInt` makes of its
      text; `None` is a blank box. */
  datatype ProfileFormData = ProfileFormData(
    name: string,
    age: Option<int>,
    height: Option<int>,
    weight: Option<int>,
    medicalCondition: string,
    fitnessGoal: Goal,
    targetWeight: Option<int>)

  datatype ProfileFieldChange =
    | NameTyped(name: string)
    | AgeTyped(age: Option<int>)
    | HeightTyped(height: Option<int>)
    | WeightTyped(weight: Option<int>)
    | MedicalConditionTyped(medicalCondition: string)
    | TargetWeightTyped(targetWeight: Option<int>)

  /** The prefill effect: the profile's values, written out as text. */
  function FormFromProfile(u: UserProfile): (f: ProfileFormData)
    ensures f.name == u.name && f.medicalCondition == u.medicalCondition && f.fitnessGoal == u.fitnessGoal
    ensures f.age == Some(u.age)
    ensures f.height == Some(Trunc(u.height)) && f.weight == Some(Trunc(u.weight))
    ensures f.targetWeight == Some(Trunc(u.targetWeight))
  {
    ProfileFormData(u.name, Some(u.age), Some(Trunc(u.height)), Some(Trunc(u.weight)),
                    u.medicalCondition, u.fitnessGoal, Some(Trunc(u.targetWeight)))
  }

  predicate NumbersFilled(f: ProfileFormData) {
    f.age.Some? && f.height.Some? && f.weight.Some? && f.targetWeight.Some?
  }

  /** `handleSaveProfile`'s profile: the seven editable fields from the form,
      taken as they are (no range check), everything else from `u`. */
  function Saved(u: UserProfile, f: ProfileFormData): (v: UserProfile)
    requires NumbersFilled(f)
    ensures v.points == u.points && v.level == u.level
    ensures v.name == f.name && v.medicalCondition == f.medicalCondition && v.fitnessGoal == f.fitnessGoal
    ensures v.age == f.age.value && v.targetWeight == f.targetWeight.value as real
    ensures v.height == f.height.value as real && v.weight == f.weight.value as real
  {
    u.(name := f.name, age := f.age.value, height := f.height.value as real,
       weight := f.weight.value as real, medicalCondition := f.medicalCondition,
       fitnessGoal := f.fitnessGoal, targetWeight := f.targetWeight.value as real)
  }

  /** Saving the prefilled form unchanged gives the profile back exactly when
      its height and weights are whole numbers; otherwise their fractions are lost. */
  lemma SaveAfterPrefill(u: UserProfile)
    ensures Saved(u, FormFromProfile(u)) == u <==>
      IsWhole(u.height) && IsWhole(u.weight) && IsWhole(u.targetWeight)
  {
    TruncKeepsWholeNumbers(u.height);
    TruncKeepsWholeNumbers(u.weight);
    TruncKeepsWholeNumbers(u.targetWeight);
    var v := Saved(u, FormFromProfile(u));
    if v == u {
      assert v.height == u.height && v.weight == u.weight && v.targetWeight == u.targetWeight;
    }
  }

  /** Saving twice from the same form is the same as saving once. */
  lemma SaveIsIdempotent(u: UserProfile, f: ProfileFormData)
    requires NumbersFilled(f)
    ensures Saved(Saved(u, f), f) == Saved(u, f)
  {
  }

  class ProfileForm {
    var formData: ProfileFormData

    /** Every box blank and no goal chosen. */
    constructor ()
      ensures formData == ProfileFormData("", None, None, None, "", Unlisted(""), None)
    {
      formData := ProfileFormData("", None, None, None, "", Unlisted(""), None);
    }

    /** The prefill effect, run whenever the profile changes. */
    method Prefill(u: UserProfile)
      modifies this
      ensures formData == FormFromProfile(u)
    {
      formData := FormFromProfile(u);
    }

    /** `handleInputChange`: one box takes the typed value. */
    method HandleInputChange(c: ProfileFieldChange)
      modifies this
      ensures formData == match c
        case NameTyped(s) => old(formData).(name := s)
        case AgeTyped(n) => old(formData).(age := n)
        case HeightTyped(n) => old(formData).(height := n)
        case WeightTyped(n) => old(formData).(weight := n)
        case MedicalConditionTyped(s) => old(formData).(medicalCondition := s)
        case TargetWeightTyped(n) => old(formData).(targetWeight := n)
    {
      match c
      case NameTyped(s) => formData := formData.(name := s);
      case AgeTyped(n) => formData := formData.(age := n);
      case HeightTyped(n) => formData := formData.(height := n);
      case WeightTyped(n) => formData := formData.(weight := n);
      case MedicalConditionTyped(s) => formData := formData.(medicalCondition := s);
      case TargetWeightTyped(n) => formData := formData.(targetWeight := n);
    }

    /** The goal picker. */
    method HandleGoalChange(g: Goal)
      modifies this
      ensures formData == old(formData).(fitnessGoal := g)
    {
      formData := formData.(fitnessGoal := g);
    }

    /** `handleSaveProfile`: replace the editable fields of the signed-in profile
        and store it. The number boxes are required, so they are never blank
        on submit; the page only shows the form with a profile. */
    method HandleSaveProfile(session: UserSession)
      requires session.Valid() && session.user.Some?
      requires NumbersFilled(formData)
      modifies session
      ensures session.Valid()
      ensures session.user == Some(Saved(old(session.user).value, formData))
      ensures session.isLoggedIn == old(session.isLoggedIn) && session.progress == old(session.progress)
      ensures Unrelated(session.store) == Unrelated(old(session.store))
      ensures session.store == WriteUser(old(session.store), session.user)
    {
      var updatedUser := Saved(session.user.value, formData);
      session.SetUser(Some(updatedUser));
    }
  }
}
