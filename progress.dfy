/**
 * The progress page: the log form, the date-ordered chart series, the totals
 * and the achievements earned from the log.
 */
module ProgressPage {
  import opened Wrappers
  import opened UserContext
  import Dashboard

  // ---------------------------------------------------------------------------
  // The log form

  /** The form's values as the submit handler parses them: `weight` is the
      `parseFloat` of the weight box, `cardioMinutes` the `parseInt` of the
      cardio box (`None` when blank or not a number). */
  datatype ProgressFormData = ProgressFormData(
    weight: Option<real>,
    workoutCompleted: bool,
    cardioMinutes: Option<int>,
    strengthProgress: string)

  /** What a keystroke in one of the text boxes changes. */
  datatype FieldChange = WeightTyped(weight: Option<real>) | CardioTyped(minutes: Option<int>) | NotesTyped(notes: string)

  /** The cardio box's parsed number, falling back to 0 when falsy: a blank, unparseable or zero box logs 0 minutes;
      any other parsed number is kept as is. */
  function CardioMinutes(parsed: Option<int>): (m: int)
    ensures parsed.None? ==> m == 0
    ensures parsed.Some? ==> m == parsed.value
  {
    if parsed.Some? && parsed.value != 0 then parsed.value else 0
  }

  /** The entry the form submits for `date`: the parsed weight, the workout
      box, the cardio minutes with their fallback to 0, and the notes as typed. */
  function EntryFrom(date: int, f: ProgressFormData): (e: ProgressEntry)
    requires f.weight.Some?
    ensures e.date == date && e.weight == f.weight.value
    ensures e.workoutCompleted == f.workoutCompleted && e.strengthProgress == f.strengthProgress
    ensures e.cardioMinutes == 0 <==> f.cardioMinutes.None? || f.cardioMinutes.value == 0
  {
    ProgressEntry(date, f.weight.value, f.workoutCompleted, CardioMinutes(f.cardioMinutes), f.strengthProgress)
  }

  /** The form showing an existing entry (numbers round-trip through their
      text): submitting it unchanged logs that same entry again. */
  function FormFromEntry(e: ProgressEntry): (f: ProgressFormData)
    ensures f.weight.Some? && EntryFrom(e.date, f) == e
  {
    ProgressFormData(Some(e.weight), e.workoutCompleted, Some(e.cardioMinutes), e.strengthProgress)
  }

  /** The form for a day with no entry: the profile's weight, everything else
      blank. Submitted untouched, it logs that weight and nothing else. */
  function BlankForm(user: Option<UserProfile>): (f: ProgressFormData)
    ensures f.weight.Some? <==> user.Some?
    ensures user.Some? ==> EntryFrom(0, f) == ProgressEntry(0, user.value.weight, false, 0, "")
  {
    ProgressFormData(if user.Some? then Some(user.value.weight) else None, false, None, "")
  }

  class ProgressForm {
    /** The day picked in the calendar. */
    var selected: int
    var formData: ProgressFormData

    constructor (today: int)
      ensures selected == today
      ensures formData == ProgressFormData(None, false, None, "")
    {
      selected := today;
      formData := ProgressFormData(None, false, None, "");
    }

    /** Picking a day in the calendar. */
    method Select(day: int)
      modifies this
      ensures selected == day && formData == old(formData)
    {
      selected := day;
    }

    /** The prefill effect: load the first entry for the selected day, or the
        profile's weight and blank fields when there is none. */
    method Prefill(log: seq<ProgressEntry>, user: Option<UserProfile>)
      modifies this
      ensures selected == old(selected)
      ensures forall i :: FirstOnDate(log, selected, i) ==> formData == FormFromEntry(log[i])
      ensures NoEntryOn(log, selected) ==> formData == BlankForm(user)
    {
      var i := FindDateIndex(log, selected);
      if i >= 0 {
        formData := FormFromEntry(log[i]);
      } else {
        formData := BlankForm(user);
      }
    }

    /** `handleInputChange`: one text box takes the typed value. */
    method HandleInputChange(c: FieldChange)
      modifies this
      ensures selected == old(selected)
      ensures formData == match c
        case WeightTyped(w) => old(formData).(weight := w)
        case CardioTyped(m) => old(formData).(cardioMinutes := m)
        case NotesTyped(n) => old(formData).(strengthProgress := n)
    {
      match c
      case WeightTyped(w) => formData := formData.(weight := w);
      case CardioTyped(m) => formData := formData.(cardioMinutes := m);
      case NotesTyped(n) => formData := formData.(strengthProgress := n);
    }

    /** `handleCheckboxChange`: the workout box. */
    method HandleCheckboxChange(checked: bool)
      modifies this
      ensures selected == old(selected)
      ensures formData == old(formData).(workoutCompleted := checked)
    {
      formData := formData.(workoutCompleted := checked);
    }

    /** `handleSubmit`: log the form's entry for the selected day. The weight box
        is a required field, so the browser never submits it blank. */
    method HandleSubmit(session: UserSession)
      requires formData.weight.Some?
      requires session.Valid()
      modifies session
      ensures session.Valid()
      ensures session.progress == Upsert(old(session.progress), EntryFrom(selected, formData))
      ensures old(session.user).None? ==> session.user.None?
      ensures old(session.user).Some? ==> session.user == Some(Rewarded(old(session.user).value))
      ensures session.isLoggedIn == old(session.isLoggedIn)
      ensures Unrelated(session.store) == Unrelated(old(session.store))
      ensures session.InStep()
    {
      session.AddProgress(EntryFrom(selected, formData));
    }
  }

  // ---------------------------------------------------------------------------
  // Totals

  /** How many entries have the workout ticked. */
  function CompletedWorkouts(log: seq<ProgressEntry>): (n: nat)
    ensures n <= |log|
  {
    if log == [] then 0
    else (if log[0].workoutCompleted then 1 else 0) + CompletedWorkouts(log[1..])
  }

  /** The sum of the entries' cardio minutes. */
  function TotalCardioMinutes(log: seq<ProgressEntry>): (t: int)
    ensures (forall i :: 0 <= i < |log| ==> log[i].cardioMinutes >= 0) ==> t >= 0
  {
    if log == [] then 0 else log[0].cardioMinutes + TotalCardioMinutes(log[1..])
  }

  /** The count is 0 exactly when no entry is completed, and the log's length
      exactly when every entry is. */
  lemma {:induction false} CompletedExtremes(log: seq<ProgressEntry>)
    ensures CompletedWorkouts(log) == 0 <==> forall i :: 0 <= i < |log| ==> !log[i].workoutCompleted
    ensures CompletedWorkouts(log) == |log| <==> forall i :: 0 <= i < |log| ==> log[i].workoutCompleted
  {
    if log != [] {
      CompletedExtremes(log[1..]);
      assert forall i :: 1 <= i < |log| ==> log[i] == log[1..][i - 1];
    }
  }

  /** With no negative entries the total is at least each entry's minutes. */
  lemma {:induction false} CardioBoundsEachEntry(log: seq<ProgressEntry>)
    requires forall i :: 0 <= i < |log| ==> log[i].cardioMinutes >= 0
    ensures 0 <= TotalCardioMinutes(log)
    ensures forall i :: 0 <= i < |log| ==> log[i].cardioMinutes <= TotalCardioMinutes(log)
  {
    if log != [] {
      assert forall i :: 1 <= i < |log| ==> log[i] == log[1..][i - 1];
      CardioBoundsEachEntry(log[1..]);
    }
  }

  lemma {:induction false} CompletedAppend(a: seq<ProgressEntry>, b: seq<ProgressEntry>)
    ensures CompletedWorkouts(a + b) == CompletedWorkouts(a) + CompletedWorkouts(b)
  {
    if a != [] {
      assert (a + b)[0] == a[0] && (a + b)[1..] == a[1..] + b;
      CompletedAppend(a[1..], b);
    } else {
      assert a + b == b;
    }
  }

  lemma {:induction false} CardioAppend(a: seq<ProgressEntry>, b: seq<ProgressEntry>)
    ensures TotalCardioMinutes(a + b) == TotalCardioMinutes(a) + TotalCardioMinutes(b)
  {
    if a != [] {
      assert (a + b)[0] == a[0] && (a + b)[1..] == a[1..] + b;
      CardioAppend(a[1..], b);
    } else {
      assert a + b == b;
    }
  }

  /** A reordering of a non-empty log holds its first entry somewhere; removing
      it there leaves a reordering of the rest. */
  lemma MatchFirst(a: seq<ProgressEntry>, b: seq<ProgressEntry>) returns (i: int)
    requires multiset(a) == multiset(b) && a != []
    ensures 0 <= i < |b| && b[i] == a[0]
    ensures multiset(a[1..]) == multiset(b[..i] + b[i + 1..])
  {
    assert a[0] in multiset(a);
    assert a[0] in b;
    i :| 0 <= i < |b| && b[i] == a[0];
    assert b == b[..i] + [b[i]] + b[i + 1..];
    assert a == [a[0]] + a[1..];
    calc {
      multiset(a[1..]);
      == multiset(a) - multiset{a[0]};
      == multiset(b) - multiset{b[i]};
      == multiset(b[..i] + b[i + 1..]);
    }
  }

  /** The completed count is the same for any reordering of the log, so sorting the
      log in place leaves it unchanged. */
  lemma {:induction false} CompletedIsPermutationInvariant(a: seq<ProgressEntry>, b: seq<ProgressEntry>)
    requires multiset(a) == multiset(b)
    ensures CompletedWorkouts(a) == CompletedWorkouts(b)
    decreases |a|
  {
    if a == [] {
      assert |b| == |multiset(b)| == 0;
    } else {
      var i := MatchFirst(a, b);
      var x := a[0];
      CompletedIsPermutationInvariant(a[1..], b[..i] + b[i + 1..]);
      assert b == b[..i] + ([x] + b[i + 1..]);
      CompletedAppend(b[..i], [x] + b[i + 1..]);
      CompletedAppend([x], b[i + 1..]);
      CompletedAppend(b[..i], b[i + 1..]);
      assert a == [x] + a[1..];
      CompletedAppend([x], a[1..]);
    }
  }

  /** The cardio total is the same for any reordering of the log, so sorting the
      log in place leaves it unchanged. */
  lemma {:induction false} CardioIsPermutationInvariant(a: seq<ProgressEntry>, b: seq<ProgressEntry>)
    requires multiset(a) == multiset(b)
    ensures TotalCardioMinutes(a) == TotalCardioMinutes(b)
    decreases |a|
  {
    if a == [] {
      assert |b| == |multiset(b)| == 0;
    } else {
      var i := MatchFirst(a, b);
      var x := a[0];
      CardioIsPermutationInvariant(a[1..], b[..i] + b[i + 1..]);
      assert b == b[..i] + ([x] + b[i + 1..]);
      CardioAppend(b[..i], [x] + b[i + 1..]);
      CardioAppend([x], b[i + 1..]);
      CardioAppend(b[..i], b[i + 1..]);
      assert a == [x] + a[1..];
      CardioAppend([x], a[1..]);
    }
  }

  // ---------------------------------------------------------------------------
  // Strength notes: a note counts when its trimmed text is not empty

  /** The characters `String.prototype.trim` removes: white space and line
      terminators. */
  predicate IsWhitespace(c: char) {
    c == '\t' || c == '\n' || c == '\U{B}' || c == '\U{C}' || c == '\r' || c == ' ' ||
    c == '\U{A0}' || c == '\U{1680}' || ('\U{2000}' <= c <= '\U{200A}') ||
    c == '\U{2028}' || c == '\U{2029}' || c == '\U{202F}' || c == '\U{205F}' ||
    c == '\U{3000}' || c == '\U{FEFF}'
  }

  predicate AllWhitespace(s: string) {
    forall i :: 0 <= i < |s| ==> IsWhitespace(s[i])
  }

  function TrimStart(s: string): (t: string)
    ensures |t| <= |s| && t == s[|s| - |t|..]
    ensures t == "" <==> AllWhitespace(s)
    ensures t != "" ==> !IsWhitespace(t[0])
  {
    if s != "" && IsWhitespace(s[0]) then TrimStart(s[1..]) else s
  }

  /** Trimming the start removes nothing but white space. */
  lemma {:induction false} TrimStartDropsOnlyWhitespace(s: string)
    ensures AllWhitespace(s[..|s| - |TrimStart(s)|])
  {
    if s != "" && IsWhitespace(s[0]) {
      var t := TrimStart(s[1..]);
      TrimStartDropsOnlyWhitespace(s[1..]);
      forall i | 0 <= i < |s| - |t| ensures IsWhitespace(s[i]) {
        if i > 0 {
          assert s[i] == s[1..][..|s[1..]| - |t|][i - 1];
        }
      }
    }
  }

  function TrimEnd(s: string): (t: string)
    ensures |t| <= |s| && t == s[..|t|]
    ensures t == "" <==> AllWhitespace(s)
    ensures t != "" ==> !IsWhitespace(t[|t| - 1])
  {
    if s != "" && IsWhitespace(s[|s| - 1]) then TrimEnd(s[..|s| - 1]) else s
  }

  /** Trimming the end removes nothing but white space. */
  lemma {:induction false} TrimEndDropsOnlyWhitespace(s: string)
    ensures AllWhitespace(s[|TrimEnd(s)|..])
  {
    if s != "" && IsWhitespace(s[|s| - 1]) {
      var t := TrimEnd(s[..|s| - 1]);
      TrimEndDropsOnlyWhitespace(s[..|s| - 1]);
      forall i | |t| <= i < |s| ensures IsWhitespace(s[i]) {
        if i < |s| - 1 {
          assert s[i] == s[..|s| - 1][|t|..][i - |t|];
        }
      }
    }
  }

  /** The trimmed note: the text without leading and trailing white space; it is empty
      exactly when the text is all white space. */
  function Trim(s: string): (t: string)
    ensures t == "" <==> AllWhitespace(s)
    ensures t != "" ==> !IsWhitespace(t[0]) && !IsWhitespace(t[|t| - 1])
  {
    var u := TrimStart(s);
    assert u == "" ==> AllWhitespace(s);
    assert AllWhitespace(s) ==> u == "";
    TrimEnd(u)
  }

  predicate HasStrengthNote(e: ProgressEntry) {
    Trim(e.strengthProgress) != ""
  }

  /** The number of entries with a non-blank strength note. */
  function StrengthLogs(log: seq<ProgressEntry>): (n: nat)
    ensures n <= |log|
  {
    if log == [] then 0
    else (if HasStrengthNote(log[0]) then 1 else 0) + StrengthLogs(log[1..])
  }

  // ---------------------------------------------------------------------------
  // The chart series: the log sorted in place by date

  predicate SortedByDate(s: seq<ProgressEntry>) {
    forall i, j :: 0 <= i < j < |s| ==> s[i].date <= s[j].date
  }

  /** The chart's sort by the entries' timestamps: reorders the log in place into
      ascending date order. */
  method SortByDate(a: array<ProgressEntry>)
    modifies a
    ensures SortedByDate(a[..])
    ensures multiset(a[..]) == multiset(old(a[..]))
  {
    var i := 0;
    while i < a.Length
      invariant 0 <= i <= a.Length
      invariant SortedByDate(a[..i])
      invariant multiset(a[..]) == multiset(old(a[..]))
    {
      InsertLast(a, i);
      i := i + 1;
    }
  }

  /** One insertion step: sinks `a[i]` into the sorted prefix `a[..i]`. */
  method InsertLast(a: array<ProgressEntry>, i: int)
    requires 0 <= i < a.Length && SortedByDate(a[..i])
    modifies a
    ensures SortedByDate(a[..i + 1])
    ensures multiset(a[..]) == multiset(old(a[..]))
  {
    var j := i;
    while j > 0 && a[j - 1].date > a[j].date
      invariant 0 <= j <= i
      invariant forall p, q :: 0 <= p < q <= i && q != j ==> a[p].date <= a[q].date
      invariant multiset(a[..]) == multiset(old(a[..]))
    {
      Swap(a, j - 1, j);
      j := j - 1;
    }
  }

  /** Exchanges two cells; the array keeps its elements. */
  method Swap(a: array<ProgressEntry>, i: int, j: int)
    requires 0 <= i < j < a.Length
    modifies a
    ensures a[..] == old(a[..])[i := old(a[j])][j := old(a[i])]
    ensures multiset(a[..]) == multiset(old(a[..]))
  {
    a[i], a[j] := a[j], a[i];
  }

  /** With one entry per date, date order is strict. */
  lemma SortedUniqueIsStrict(s: seq<ProgressEntry>)
    requires SortedByDate(s) && UniqueDates(s)
    ensures forall i, j :: 0 <= i < j < |s| ==> s[i].date < s[j].date
  {
  }

  datatype ChartPoint = ChartPoint(date: int, weight: real)

  /** The chart's points: one point per entry, in log order (the date
      label's formatting is not modelled). */
  function ChartSeries(log: seq<ProgressEntry>): (c: seq<ChartPoint>)
    ensures |c| == |log|
    ensures forall i :: 0 <= i < |c| ==> c[i].date == log[i].date && c[i].weight == log[i].weight
  {
    seq(|log|, i requires 0 <= i < |log| => ChartPoint(log[i].date, log[i].weight))
  }

  // ---------------------------------------------------------------------------
  // Achievements

  datatype Achievement =
    | ConsistentAthlete
    | CardioChampion(minutes: int)
    | TrackingPro
    | WeightLossProgress(lostKg: real)
    | StrengthBuilder

  /** The position of each rule in the order they are checked. */
  function RuleIndex(a: Achievement): nat {
    match a
    case ConsistentAthlete => 0
    case CardioChampion(_) => 1
    case TrackingPro => 2
    case WeightLossProgress(_) => 3
    case StrengthBuilder => 4
  }

  /** The weight lost from the first to the last entry of the log. */
  function WeightLost(log: seq<ProgressEntry>): (w: real)
    ensures |log| < 2 ==> w == 0.0
    ensures |log| >= 2 ==> (w > 0.0 <==> log[|log| - 1].weight < log[0].weight)
  {
    if |log| >= 2 then log[0].weight - log[|log| - 1].weight else 0.0
  }

  predicate LostWeight(goal: Goal, log: seq<ProgressEntry>) {
    goal == WeightLoss && |log| >= 2 && log[|log| - 1].weight < log[0].weight
  }

  predicate BuiltStrength(goal: Goal, log: seq<ProgressEntry>) {
    goal == MuscleGain && |log| >= 2 && StrengthLogs(log) >= 3
  }

  predicate InRuleOrder(r: seq<Achievement>) {
    forall i, j :: 0 <= i < j < |r| ==> RuleIndex(r[i]) < RuleIndex(r[j])
  }

  /** Whether the log earns an achievement, rule by rule. */
  predicate Qualifies(a: Achievement, goal: Goal, log: seq<ProgressEntry>) {
    match a
    case ConsistentAthlete => CompletedWorkouts(log) >= 5
    case CardioChampion(_) => TotalCardioMinutes(log) >= 60
    case TrackingPro => |log| >= 7
    case WeightLossProgress(_) => LostWeight(goal, log)
    case StrengthBuilder => BuiltStrength(goal, log)
  }

  /** A candidate as a list of its own when it qualifies, and nothing otherwise. */
  function Keep(a: Achievement, goal: Goal, log: seq<ProgressEntry>): seq<Achievement> {
    if Qualifies(a, goal, log) then [a] else []
  }

  /** Reference definition: the five candidates, in rule order and carrying the
      cardio total and the weight lost, each kept when it qualifies. */
  function Earned(goal: Goal, log: seq<ProgressEntry>): (r: seq<Achievement>)
    ensures |r| <= 5
  {
    Keep(ConsistentAthlete, goal, log) + Keep(CardioChampion(TotalCardioMinutes(log)), goal, log) +
    Keep(TrackingPro, goal, log) + Keep(WeightLossProgress(WeightLost(log)), goal, log) +
    Keep(StrengthBuilder, goal, log)
  }

  /** `getAchievements`: the five rules checked one after the other, each
      pushing its achievement when it holds. */
  method GetAchievements(goal: Goal, log: seq<ProgressEntry>) returns (r: seq<Achievement>)
    ensures r == Earned(goal, log)
  {
    var completed := CompletedWorkouts(log);
    var cardio := TotalCardioMinutes(log);
    r := [];
    r := PushWhen(r, completed >= 5, ConsistentAthlete, goal, log);
    assert r == Keep(ConsistentAthlete, goal, log);
    r := PushWhen(r, cardio >= 60, CardioChampion(cardio), goal, log);
    r := PushWhen(r, |log| >= 7, TrackingPro, goal, log);
    r := PushWeightLoss(r, goal, log);
    r := PushStrength(r, goal, log);
  }

  /** One of the first three rules: push the achievement when its condition holds. */
  method PushWhen(r: seq<Achievement>, holds: bool, a: Achievement, goal: Goal, log: seq<ProgressEntry>)
      returns (s: seq<Achievement>)
    requires holds == Qualifies(a, goal, log)
    ensures s == r + Keep(a, goal, log)
  {
    s := r;
    if holds {
      s := s + [a];
    }
  }

  /** The weight-loss rule: on a weight-loss goal with two entries, push the
      difference between the first and the last weight when it went down. */
  method PushWeightLoss(r: seq<Achievement>, goal: Goal, log: seq<ProgressEntry>) returns (s: seq<Achievement>)
    ensures s == r + Keep(WeightLossProgress(WeightLost(log)), goal, log)
  {
    s := r;
    if goal == WeightLoss && |log| >= 2 {
      var initialWeight := log[0].weight;
      var currentWeight := log[|log| - 1].weight;
      if currentWeight < initialWeight {
        s := s + [WeightLossProgress(initialWeight - currentWeight)];
      }
    }
  }

  /** The strength rule: on a muscle-gain goal with two entries, push when at
      least three entries carry a strength note. */
  method PushStrength(r: seq<Achievement>, goal: Goal, log: seq<ProgressEntry>) returns (s: seq<Achievement>)
    ensures s == r + Keep(StrengthBuilder, goal, log)
  {
    s := r;
    if goal == MuscleGain && |log| >= 2 {
      var strengthLogs := StrengthLogs(log);
      if strengthLogs >= 3 {
        s := s + [StrengthBuilder];
      }
    }
  }

  /** An achievement reports the figures of the log: the cardio total and the
      weight lost. */
  predicate CarriesFigures(a: Achievement, log: seq<ProgressEntry>) {
    (a.CardioChampion? ==> a.minutes == TotalCardioMinutes(log)) &&
    (a.WeightLossProgress? ==> a.lostKg == WeightLost(log))
  }

  /** The rules one by one: an achievement carrying the log's figures is listed
      exactly when its rule holds, and nothing else is listed. */
  lemma AchievementRules(goal: Goal, log: seq<ProgressEntry>)
    ensures forall a :: a in Earned(goal, log) <==> Qualifies(a, goal, log) && CarriesFigures(a, log)
  {
    var k1 := Keep(ConsistentAthlete, goal, log);
    var k2 := Keep(CardioChampion(TotalCardioMinutes(log)), goal, log);
    var k3 := Keep(TrackingPro, goal, log);
    var k4 := Keep(WeightLossProgress(WeightLost(log)), goal, log);
    var k5 := Keep(StrengthBuilder, goal, log);
    InConcat(k1, k2, k3, k4, k5);
    forall a ensures a in Earned(goal, log) <==> Qualifies(a, goal, log) && CarriesFigures(a, log) {
      match a
      case ConsistentAthlete =>
      case CardioChampion(_) =>
      case TrackingPro =>
      case WeightLossProgress(_) =>
      case StrengthBuilder =>
    }
  }

  /** Membership in a concatenation of five lists. */
  lemma InConcat(k1: seq<Achievement>, k2: seq<Achievement>, k3: seq<Achievement>,
                 k4: seq<Achievement>, k5: seq<Achievement>)
    ensures forall a :: a in k1 + k2 + k3 + k4 + k5 <==> a in k1 || a in k2 || a in k3 || a in k4 || a in k5
  {
  }

  /** The achievements come in rule order, each at most once: at most five. */
  lemma AchievementsInRuleOrder(goal: Goal, log: seq<ProgressEntry>)
    ensures InRuleOrder(Earned(goal, log))
    ensures |Earned(goal, log)| <= 5
  {
    var k1 := Keep(ConsistentAthlete, goal, log);
    var k2 := Keep(CardioChampion(TotalCardioMinutes(log)), goal, log);
    var k3 := Keep(TrackingPro, goal, log);
    var k4 := Keep(WeightLossProgress(WeightLost(log)), goal, log);
    var k5 := Keep(StrengthBuilder, goal, log);
    AppendInRuleOrder([], k1, 0);
    AppendInRuleOrder([] + k1, k2, 1);
    AppendInRuleOrder([] + k1 + k2, k3, 2);
    AppendInRuleOrder([] + k1 + k2 + k3, k4, 3);
    AppendInRuleOrder([] + k1 + k2 + k3 + k4, k5, 4);
    assert [] + k1 == k1;
    RuleOrderBoundsLength(Earned(goal, log));
  }

  /** Appending at most one achievement of rule `rule` after achievements of
      earlier rules keeps the list in rule order. */
  lemma AppendInRuleOrder(r: seq<Achievement>, k: seq<Achievement>, rule: nat)
    requires InRuleOrder(r) && forall x :: x in r ==> RuleIndex(x) < rule
    requires |k| <= 1 && forall x :: x in k ==> RuleIndex(x) == rule
    ensures InRuleOrder(r + k) && forall x :: x in r + k ==> RuleIndex(x) <= rule
  {
    forall i, j | 0 <= i < j < |r + k| ensures RuleIndex((r + k)[i]) < RuleIndex((r + k)[j]) {
      if j >= |r| {
        assert (r + k)[j] == k[0] && (r + k)[i] == r[i];
        assert r[i] in r;
      }
    }
  }

  /** A list in strict rule order holds each rule at most once, so at most five. */
  lemma {:induction false} RuleOrderBoundsLength(r: seq<Achievement>)
    requires InRuleOrder(r)
    ensures |r| <= 5
  {
    if |r| > 0 {
      RuleIndexAtLeastPosition(r, |r| - 1);
    }
  }

  lemma {:induction false} RuleIndexAtLeastPosition(r: seq<Achievement>, k: int)
    requires InRuleOrder(r)
    requires 0 <= k < |r|
    ensures k <= RuleIndex(r[k])
  {
    if k > 0 {
      RuleIndexAtLeastPosition(r, k - 1);
    }
  }

  /** The strength rule's two-entry guard never decides anything: three
      strength notes need three entries. */
  lemma StrengthGuardIsRedundant(goal: Goal, log: seq<ProgressEntry>)
    ensures BuiltStrength(goal, log) <==> goal == MuscleGain && StrengthLogs(log) >= 3
  {
  }

  // ---------------------------------------------------------------------------
  // One render of the page

  /** One render of the page for the signed-in user. The chart series sorts the
      session's own log in place: the provider's state is reordered by date,
      while no write-back runs, so the store keeps the order the entries were
      logged in. The totals, the chart and the achievements are derived from
      the reordered log. Without a profile the page renders nothing. */
  method Render(session: UserSession)
      returns (rendered: bool, chart: seq<ChartPoint>, completed: int, cardio: int, achievements: seq<Achievement>)
    requires session.Valid()
    modifies session
    ensures session.Valid()
    ensures rendered <==> old(session.user).Some?
    ensures !rendered ==> unchanged(session)
    ensures session.user == old(session.user) && session.isLoggedIn == old(session.isLoggedIn)
    ensures session.store == old(session.store)
    ensures rendered ==> SortedByDate(session.progress) &&
                         multiset(session.progress) == multiset(old(session.progress))
    ensures rendered ==> |chart| == |session.progress|
    ensures rendered ==> forall i :: 0 <= i < |chart| ==>
      chart[i].date == session.progress[i].date && chart[i].weight == session.progress[i].weight
    ensures rendered ==> completed == CompletedWorkouts(old(session.progress))
    ensures rendered ==> cardio == TotalCardioMinutes(old(session.progress))
    ensures rendered ==> achievements == Earned(session.user.value.fitnessGoal, session.progress)
    ensures rendered ==> (CardioChampion(cardio) in achievements <==> cardio >= 60)
    ensures rendered ==> (ConsistentAthlete in achievements <==> completed >= 5)
    ensures rendered ==> |achievements| <= 5
  {
    if session.user.None? {
      return false, [], 0, 0, [];
    }
    rendered := true;
    var goal := session.user.value.fitnessGoal;
    var log := session.progress;
    var a := new ProgressEntry[|log|](i requires 0 <= i < |log| => log[i]);
    assert a[..] == log;
    SortByDate(a);
    var sorted := a[..];
    session.progress := sorted;
    chart := ChartSeries(sorted);
    CompletedIsPermutationInvariant(sorted, log);
    CardioIsPermutationInvariant(sorted, log);
    completed := CompletedWorkouts(sorted);
    cardio := TotalCardioMinutes(sorted);
    achievements := GetAchievements(goal, sorted);
    AchievementRules(goal, sorted);
    AchievementsInRuleOrder(goal, sorted);
  }

  /** The reordering shows on the dashboard, which reads the current weight
      from the log's last entry: a log whose later day was logged first shows
      80 kg before the progress page is visited and 78 kg after. */
  lemma VisitingProgressMovesCurrentWeight(sorted: seq<ProgressEntry>)
    requires var log := [ProgressEntry(10, 78.0, false, 0, ""), ProgressEntry(1, 80.0, false, 0, "")];
      SortedByDate(sorted) && multiset(sorted) == multiset(log)
    ensures Dashboard.CurrentWeight(75.0, [ProgressEntry(10, 78.0, false, 0, ""), ProgressEntry(1, 80.0, false, 0, "")]) == 80.0
    ensures Dashboard.CurrentWeight(75.0, sorted) == 78.0
  {
    var log: seq<ProgressEntry> := [ProgressEntry(10, 78.0, false, 0, ""), ProgressEntry(1, 80.0, false, 0, "")];
    assert |sorted| == 2 by {
      assert |multiset(sorted)| == |multiset(log)| == 2;
    }
    assert sorted[0] in multiset(sorted) && sorted[1] in multiset(sorted);
    assert sorted[0].date <= sorted[1].date;
  }
}
