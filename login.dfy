/**
 * The sign-in page: a two-step form (name first, then body measurements and
 * goal) that builds the profile handed to the session, and a demo account.
 */
module LoginPage {
  import opened Wrappers
  import opened UserContext
  import opened Numbers

  /** A number field's text: blank, or a number in decimal notation. A blank
      text is falsy; any typed number, zero included, is not. */
  datatype NumText = Blank | Typed(x: real)

  /** `parseInt` of the field: its integer part, and NaN for a blank box. */
  function ParseNum(t: NumText): (n: Option<int>)
    ensures n.None? <==> t.Blank?
    ensures t.Typed? ==> n == Some(Trunc(t.x))
  {
    match t
    case Blank => None
    case Typed(x) => Some(Trunc(x))
  }

  /** Everything the second step collects. */
  datatype Fields = Fields(
    name: string,
    age: NumText,
    height: NumText,
    weight: NumText,
    medicalCondition: string,
    fitnessGoal: Goal,
    targetWeight: NumText)

  /** The step-two check: age, height and weight must not be blank. */
  predicate RequiredFilled(f: Fields) {
    f.age.Typed? && f.height.Typed? && f.weight.Typed?
  }

  /** `userData`: the parsed fields, the weight standing in for a blank target,
      and a fresh account's zero points at Beginner. */
  function UserData(f: Fields): (d: PartialProfile)
    requires RequiredFilled(f)
    ensures d.name == Some(f.name) && d.medicalCondition == Some(f.medicalCondition)
    ensures d.fitnessGoal == Some(f.fitnessGoal)
    ensures d.age == Some(Trunc(f.age.x))
    ensures d.height == Some(Trunc(f.height.x) as real) && d.weight == Some(Trunc(f.weight.x) as real)
    ensures d.targetWeight == Some(Trunc(if f.targetWeight.Typed? then f.targetWeight.x else f.weight.x) as real)
    ensures d.points == Some(0) && d.level == Some(Beginner)
  {
    var target := if f.targetWeight.Typed? then ParseNum(f.targetWeight) else ParseNum(f.weight);
    PartialProfile(
      name := Some(f.name),
      age := Some(ParseNum(f.age).value),
      height := Some(ParseNum(f.height).value as real),
      weight := Some(ParseNum(f.weight).value as real),
      medicalCondition := Some(f.medicalCondition),
      fitnessGoal := Some(f.fitnessGoal),
      targetWeight := Some(target.value as real),
      points := Some(0),
      level := Some(Beginner))
  }

  /** A new account starts with no points at Beginner, where the level chain
      also puts zero points. */
  lemma NewAccountStartsAsBeginner(f: Fields)
    requires RequiredFilled(f)
    ensures ProfileFrom(UserData(f)).points == 0
    ensures ProfileFrom(UserData(f)).level == Beginner == LevelFor(0)
  {
  }

  /** With the target left blank, the profile's target is its weight, even
      when the session replaces a zero weight by its default. */
  lemma BlankTargetIsTheWeight(f: Fields)
    requires RequiredFilled(f) && f.targetWeight.Blank?
    ensures ProfileFrom(UserData(f)).targetWeight == ProfileFrom(UserData(f)).weight
  {
  }

  /** A typed age below one passes the form's check but parses to 0, which
      the session then replaces by its default of 30. */
  lemma AgeBelowOneBecomesThirty(f: Fields)
    requires RequiredFilled(f) && 0.0 <= f.age.x < 1.0
    ensures ProfileFrom(UserData(f)).age == 30
  {
  }

  /** The demo account's fixed profile. */
  const DemoUser := UserProfile("Demo User", 30, 175.0, 75.0, "None", WeightLoss, 70.0, 50, Beginner)

  /** Signing in as the demo takes its profile as is; its 50 points do sit in
      the Beginner tier. */
  lemma DemoProfileIsConsistent()
    ensures ProfileFrom(AsPartial(DemoUser)) == DemoUser
    ensures LevelFor(DemoUser.points) == DemoUser.level
  {
  }

  datatype FieldChange =
    | NameTyped(name: string)
    | AgeTyped(age: NumText)
    | HeightTyped(height: NumText)
    | WeightTyped(weight: NumText)
    | MedicalConditionTyped(medicalCondition: string)
    | GoalPicked(fitnessGoal: Goal)
    | TargetWeightTyped(targetWeight: NumText)

  /** What a submit did. */
  datatype Outcome = MovedToStepTwo | MissingFields | SignedIn

  class LoginForm {
    var fields: Fields
    var formStep: int

    /** Empty boxes, general fitness picked, on step one. */
    constructor ()
      ensures fields == Fields("", Blank, Blank, Blank, "", GeneralFitness, Blank)
      ensures formStep == 1
    {
      fields := Fields("", Blank, Blank, Blank, "", GeneralFitness, Blank);
      formStep := 1;
    }

    /** Typing into a box or picking a goal. */
    method Edit(c: FieldChange)
      modifies this
      ensures formStep == old(formStep)
      ensures fields == match c
        case NameTyped(s) => old(fields).(name := s)
        case AgeTyped(t) => old(fields).(age := t)
        case HeightTyped(t) => old(fields).(height := t)
        case WeightTyped(t) => old(fields).(weight := t)
        case MedicalConditionTyped(s) => old(fields).(medicalCondition := s)
        case GoalPicked(g) => old(fields).(fitnessGoal := g)
        case TargetWeightTyped(t) => old(fields).(targetWeight := t)
    {
      match c
      case NameTyped(s) => fields := fields.(name := s);
      case AgeTyped(t) => fields := fields.(age := t);
      case HeightTyped(t) => fields := fields.(height := t);
      case WeightTyped(t) => fields := fields.(weight := t);
      case MedicalConditionTyped(s) => fields := fields.(medicalCondition := s);
      case GoalPicked(g) => fields := fields.(fitnessGoal := g);
      case TargetWeightTyped(t) => fields := fields.(targetWeight := t);
    }

    /** `handleLogin`: on step one with a name, move to step two; otherwise
        refuse while a required number is blank, and sign in with `userData`
        once they are all there. The fields are kept in every case. */
    method HandleLogin(session: UserSession) returns (outcome: Outcome)
      requires session.Valid()
      modifies this, session
      ensures fields == old(fields) && session.Valid()
      ensures session.progress == old(session.progress)
      ensures Unrelated(session.store) == Unrelated(old(session.store))
      ensures old(formStep) == 1 && fields.name != "" ==>
        outcome == MovedToStepTwo && formStep == 2 && unchanged(session)
      ensures !(old(formStep) == 1 && fields.name != "") && !RequiredFilled(fields) ==>
        outcome == MissingFields && formStep == old(formStep) && unchanged(session)
      ensures !(old(formStep) == 1 && fields.name != "") && RequiredFilled(fields) ==>
        outcome == SignedIn && formStep == old(formStep) &&
        session.user == Some(ProfileFrom(UserData(fields))) && session.isLoggedIn &&
        session.store == WriteFlag(WriteUser(old(session.store), session.user), true)
    {
      if formStep == 1 && fields.name != "" {
        formStep := 2;
        return MovedToStepTwo;
      }
      if !RequiredFilled(fields) {
        return MissingFields;
      }
      session.Login(UserData(fields));
      outcome := SignedIn;
    }

    /** `handleDemoLogin`: sign in with the demo profile, whatever was typed. */
    method HandleDemoLogin(session: UserSession)
      requires session.Valid()
      modifies session
      ensures session.Valid()
      ensures session.user == Some(DemoUser) && session.isLoggedIn
      ensures session.progress == old(session.progress)
      ensures Unrelated(session.store) == Unrelated(old(session.store))
      ensures session.store == WriteFlag(WriteUser(old(session.store), session.user), true)
    {
      DemoProfileIsConsistent();
      session.Login(AsPartial(DemoUser));
    }

    /** The Back button: return to step one, keeping everything typed. */
    method Back()
      modifies this
      ensures formStep == 1 && fields == old(fields)
    {
      formStep := 1;
    }
  }
}
