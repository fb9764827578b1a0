/**
 * The session and progress store: the signed-in profile, the session flag and
 * the progress log, kept in step with the browser's local storage.
 */
module UserContext {
  import opened Wrappers

  // ---------------------------------------------------------------------------
  // Data model

  /** The goals the forms offer; `Unlisted` is any other string a stored or
      half-filled profile can carry at run time (the type is not checked then).
      Its name is never one of the four listed goals' strings: those strings
      are read as the listed cases. */
  datatype Goal = WeightLoss | MuscleGain | Maintain | GeneralFitness | Unlisted(name: string)

  /** The five tiers; `UnlistedLevel` is any other stored string, never one
      of the five tiers' own names, which are read as the listed cases. */
  datatype Level = Beginner | Intermediate | GymRat | GymBro | GymShark | UnlistedLevel(name: string)

  datatype UserProfile = UserProfile(
    name: string,
    age: int,
    height: real,         // centimetres
    weight: real,         // kilograms
    medicalCondition: string,
    fitnessGoal: Goal,
    targetWeight: real,   // kilograms
    points: int,
    level: Level)

  /** One logged day. `date` is the calendar day its `yyyy-MM-dd` key names, as a
      day number: equal keys are equal days and key order is day order. */
  datatype ProgressEntry = ProgressEntry(
    date: int,
    weight: real,
    workoutCompleted: bool,
    cardioMinutes: int,
    strengthProgress: string)

  // ---------------------------------------------------------------------------
  // Levels

  /** Position of a tier in the ladder; unlisted levels sit below it. */
  function Rank(l: Level): int {
    match l
    case Beginner => 0
    case Intermediate => 1
    case GymRat => 2
    case GymBro => 3
    case GymShark => 4
    case UnlistedLevel(_) => -1
  }

  /** The tier a points total earns; each threshold belongs to the higher tier. */
  function LevelFor(points: int): (l: Level)
    ensures l == Beginner <==> points < 100
    ensures l == Intermediate <==> 100 <= points < 250
    ensures l == GymRat <==> 250 <= points < 500
    ensures l == GymBro <==> 500 <= points < 1000
    ensures l == GymShark <==> 1000 <= points
  {
    if points >= 1000 then GymShark
    else if points >= 500 then GymBro
    else if points >= 250 then GymRat
    else if points >= 100 then Intermediate
    else Beginner
  }

  /** The reward for logging a day: ten more points and the tier they earn;
      every other field of the profile is kept. */
  function Rewarded(u: UserProfile): (r: UserProfile)
    ensures r.points == u.points + 10 && r.level == LevelFor(r.points)
    ensures r.(points := u.points, level := u.level) == u
  {
    var updatedPoints := u.points + 10;
    u.(points := updatedPoints, level := LevelFor(updatedPoints))
  }

  /** More points never earn a lower tier. */
  lemma LevelForMonotone(p: int, q: int)
    requires p <= q
    ensures 0 <= Rank(LevelFor(p)) <= Rank(LevelFor(q))
  {
  }

  // ---------------------------------------------------------------------------
  // The progress log

  predicate UniqueDates(log: seq<ProgressEntry>) {
    forall i, j :: 0 <= i < j < |log| ==> log[i].date != log[j].date
  }

  /** `i` is the first position of `log` whose entry is for `date`. */
  predicate FirstOnDate(log: seq<ProgressEntry>, date: int, i: int) {
    0 <= i < |log| && log[i].date == date &&
    forall j :: 0 <= j < i ==> log[j].date != date
  }

  predicate NoEntryOn(log: seq<ProgressEntry>, date: int) {
    forall j :: 0 <= j < |log| ==> log[j].date != date
  }

  /** `findIndex` on the date key: the first matching position, or -1. */
  method FindDateIndex(log: seq<ProgressEntry>, date: int) returns (i: int)
    ensures -1 <= i < |log|
    ensures 0 <= i ==> FirstOnDate(log, date, i)
    ensures i < 0 ==> NoEntryOn(log, date)
  {
    i := 0;
    while i < |log|
      invariant 0 <= i <= |log|
      invariant forall j :: 0 <= j < i ==> log[j].date != date
    {
      if log[i].date == date {
        return;
      }
      i := i + 1;
    }
    i := -1;
  }

  /** Reference definition of the upsert: walk the log, replace the first entry
      with the same date, or add the entry at the end when none has it. */
  function Upsert(log: seq<ProgressEntry>, e: ProgressEntry): (r: seq<ProgressEntry>)
    ensures |r| == if NoEntryOn(log, e.date) then |log| + 1 else |log|
    ensures forall x :: x in r ==> x == e || x in log
  {
    if log == [] then [e]
    else if log[0].date == e.date then [e] + log[1..]
    else [log[0]] + Upsert(log[1..], e)
  }

  /** An existing date: the first entry for it is replaced in place; the length
      and every other position are unchanged. */
  lemma {:induction false} UpsertReplacesFirstMatch(log: seq<ProgressEntry>, e: ProgressEntry, i: int)
    requires FirstOnDate(log, e.date, i)
    ensures Upsert(log, e) == log[i := e]
  {
    if i > 0 {
      UpsertReplacesFirstMatch(log[1..], e, i - 1);
      assert [log[0]] + log[1..][i - 1 := e] == log[i := e];
    }
  }

  /** A new date: the entry is appended and the log grows by exactly one. */
  lemma {:induction false} UpsertAppends(log: seq<ProgressEntry>, e: ProgressEntry)
    requires NoEntryOn(log, e.date)
    ensures Upsert(log, e) == log + [e]
  {
    if log != [] {
      UpsertAppends(log[1..], e);
      assert [log[0]] + (log[1..] + [e]) == log + [e];
    }
  }

  /** The updater passed to `setProgress`: find the date, then replace that
      entry in a copy of the log or append the new one. */
  method UpsertByIndex(log: seq<ProgressEntry>, e: ProgressEntry) returns (r: seq<ProgressEntry>)
    ensures r == Upsert(log, e)
  {
    var i := FindDateIndex(log, e.date);
    if i >= 0 {
      UpsertReplacesFirstMatch(log, e, i);
      r := log[i := e];
    } else {
      UpsertAppends(log, e);
      r := log + [e];
    }
  }

  /** Upserting keeps the date key unique. */
  lemma UpsertKeepsUniqueDates(log: seq<ProgressEntry>, e: ProgressEntry)
    requires UniqueDates(log)
    ensures UniqueDates(Upsert(log, e))
  {
    var r := Upsert(log, e);
    if NoEntryOn(log, e.date) {
      UpsertAppends(log, e);
    } else {
      var j :| 0 <= j < |log| && log[j].date == e.date;
      FirstMatchExists(log, e.date, j);
      var k :| FirstOnDate(log, e.date, k);
      UpsertReplacesFirstMatch(log, e, k);
      forall i, j | 0 <= i < j < |r| ensures r[i].date != r[j].date {
        assert r[i].date == log[i].date && r[j].date == log[j].date;
      }
    }
  }

  /** Some entry is for `date`: then there is a first one. */
  lemma {:induction false} FirstMatchExists(log: seq<ProgressEntry>, date: int, j: int)
    requires 0 <= j < |log| && log[j].date == date
    ensures exists m :: FirstOnDate(log, date, m)
    decreases j
  {
    if forall k :: 0 <= k < j ==> log[k].date != date {
      assert FirstOnDate(log, date, j);
    } else {
      var k :| 0 <= k < j && log[k].date == date;
      FirstMatchExists(log, date, k);
    }
  }

  /** After an upsert the log holds the new entry, whatever it held before. */
  lemma {:induction false} UpsertContainsEntry(log: seq<ProgressEntry>, e: ProgressEntry)
    ensures e in Upsert(log, e)
  {
    if log != [] && log[0].date != e.date {
      UpsertContainsEntry(log[1..], e);
    }
  }

  /** With unique dates, the new entry is the only entry for its date after an
      upsert: logging a day twice keeps the latest fields. */
  lemma {:induction false} UpsertStoresEntry(log: seq<ProgressEntry>, e: ProgressEntry)
    requires UniqueDates(log)
    ensures e in Upsert(log, e)
    ensures forall x :: x in Upsert(log, e) && x.date == e.date ==> x == e
  {
    if log != [] && log[0].date != e.date {
      assert UniqueDates(log[1..]) by {
        forall i, j | 0 <= i < j < |log[1..]| ensures log[1..][i].date != log[1..][j].date {
          assert log[1..][i] == log[i + 1] && log[1..][j] == log[j + 1];
        }
      }
      UpsertStoresEntry(log[1..], e);
    } else if log != [] {
      forall x | x in log[1..] ensures x.date != e.date {
        var k :| 0 <= k < |log[1..]| && log[1..][k] == x;
        assert log[k + 1] == x;
      }
    }
  }

  /** Two upserts for the same date leave what the second alone leaves. */
  lemma {:induction false} UpsertOverwrites(log: seq<ProgressEntry>, e1: ProgressEntry, e2: ProgressEntry)
    requires e1.date == e2.date
    ensures Upsert(Upsert(log, e1), e2) == Upsert(log, e2)
  {
    if log != [] && log[0].date != e1.date {
      UpsertOverwrites(log[1..], e1, e2);
    }
  }

  /** Entries are never dropped: every entry for another date is still there. */
  lemma {:induction false} UpsertKeepsOtherDates(log: seq<ProgressEntry>, e: ProgressEntry)
    ensures forall x :: x in log && x.date != e.date ==> x in Upsert(log, e)
    ensures |log| <= |Upsert(log, e)| <= |log| + 1
  {
    if log != [] && log[0].date != e.date {
      UpsertKeepsOtherDates(log[1..], e);
    }
  }

  // ---------------------------------------------------------------------------
  // Signing in: JavaScript `||` defaults

  /** A profile with every field optional: `None` is a missing field (or a NaN number). */
  datatype PartialProfile = PartialProfile(
    name: Option<string>,
    age: Option<int>,
    height: Option<real>,
    weight: Option<real>,
    medicalCondition: Option<string>,
    fitnessGoal: Option<Goal>,
    targetWeight: Option<real>,
    points: Option<int>,
    level: Option<Level>)

  // Truthiness of a supplied value: undefined, NaN, 0 and "" are falsy.
  predicate TextTruthy(s: Option<string>) { s.Some? && s.value != "" }
  predicate IntTruthy(x: Option<int>) { x.Some? && x.value != 0 }
  predicate RealTruthy(x: Option<real>) { x.Some? && x.value != 0.0 }
  predicate GoalTruthy(g: Option<Goal>) { g.Some? && g.value != Unlisted("") }
  predicate LevelTruthy(l: Option<Level>) { l.Some? && l.value != UnlistedLevel("") }

  /** No field of `u` is falsy except possibly `points` (0 is a real total). */
  predicate FieldsTruthy(u: UserProfile) {
    u.name != "" && u.age != 0 && u.height != 0.0 && u.weight != 0.0 &&
    u.medicalCondition != "" && u.fitnessGoal != Unlisted("") &&
    u.targetWeight != 0.0 && u.level != UnlistedLevel("")
  }

  /** The profile `login` builds: each falsy field takes its default. */
  function ProfileFrom(d: PartialProfile): (u: UserProfile)
    ensures FieldsTruthy(u)
    ensures u.name == (if TextTruthy(d.name) then d.name.value else "User")
    ensures u.age == (if IntTruthy(d.age) then d.age.value else 30)
    ensures u.height == (if RealTruthy(d.height) then d.height.value else 170.0)
    ensures u.weight == (if RealTruthy(d.weight) then d.weight.value else 70.0)
    ensures u.medicalCondition == (if TextTruthy(d.medicalCondition) then d.medicalCondition.value else "None")
    ensures u.fitnessGoal == (if GoalTruthy(d.fitnessGoal) then d.fitnessGoal.value else GeneralFitness)
    ensures u.targetWeight == (if RealTruthy(d.targetWeight) then d.targetWeight.value
                               else if RealTruthy(d.weight) then d.weight.value else 70.0)
    ensures u.points == (if IntTruthy(d.points) then d.points.value else 0)
    ensures u.level == (if LevelTruthy(d.level) then d.level.value else Beginner)
  {
    UserProfile(
      name := OrElse(d.name, TextTruthy(d.name), "User"),
      age := OrElse(d.age, IntTruthy(d.age), 30),
      height := OrElse(d.height, RealTruthy(d.height), 170.0),
      weight := OrElse(d.weight, RealTruthy(d.weight), 70.0),
      medicalCondition := OrElse(d.medicalCondition, TextTruthy(d.medicalCondition), "None"),
      fitnessGoal := OrElse(d.fitnessGoal, GoalTruthy(d.fitnessGoal), GeneralFitness),
      targetWeight := OrElse(d.targetWeight, RealTruthy(d.targetWeight),
                             OrElse(d.weight, RealTruthy(d.weight), 70.0)),
      points := OrElse(d.points, IntTruthy(d.points), 0),
      level := OrElse(d.level, LevelTruthy(d.level), Beginner))
  }

  /** JavaScript's `||`: the value when it is truthy, the fallback otherwise. */
  function OrElse<T>(x: Option<T>, truthy: bool, fallback: T): T
    requires truthy ==> x.Some?
  {
    if truthy then x.value else fallback
  }

  /** Every field of a complete profile, supplied. */
  function AsPartial(u: UserProfile): PartialProfile {
    PartialProfile(Some(u.name), Some(u.age), Some(u.height), Some(u.weight), Some(u.medicalCondition),
                   Some(u.fitnessGoal), Some(u.targetWeight), Some(u.points), Some(u.level))
  }

  const NoFields := PartialProfile(None, None, None, None, None, None, None, None, None)

  /** Signing in with no fields at all yields the default profile. */
  lemma LoginWithNoFields()
    ensures ProfileFrom(NoFields) ==
      UserProfile("User", 30, 170.0, 70.0, "None", GeneralFitness, 70.0, 0, Beginner)
  {
  }

  /** Signing in again with a profile `login` built gives the same profile back. */
  lemma LoginIsIdempotent(d: PartialProfile)
    ensures ProfileFrom(AsPartial(ProfileFrom(d))) == ProfileFrom(d)
  {
  }

  /** A supplied level is taken as is, not recomputed from the points. */
  lemma LoginKeepsSuppliedLevel()
    ensures var u := ProfileFrom(NoFields.(points := Some(300), level := Some(Beginner)));
            u.points == 300 && u.level == Beginner && LevelFor(u.points) != u.level
  {
  }

  // ---------------------------------------------------------------------------
  // Local storage

  /** A stored value. The JSON text of a profile or a log is represented by the
      value itself; the session flag is stored as plain text. */
  datatype Stored = Text(text: string) | ProfileJson(profile: UserProfile) | ProgressJson(log: seq<ProgressEntry>)

  type Store = map<string, Stored>

  const UserKey := "fitnessUser"
  const LoggedInKey := "fitnessLoggedIn"
  const ProgressKey := "fitnessProgress"

  /** What the store holds under keys this component does not own. */
  function Unrelated(s: Store): Store {
    s - {UserKey, LoggedInKey, ProgressKey}
  }

  /** The store holds, under the profile and log keys, only what this component
      writes there (JSON it can parse) or an empty text. */
  predicate WellFormedStore(s: Store) {
    (UserKey in s ==> s[UserKey].ProfileJson? || s[UserKey] == Text("")) &&
    (ProgressKey in s ==> s[ProgressKey].ProgressJson? || s[ProgressKey] == Text(""))
  }

  /** The profile read at start-up: none when the key is absent or empty. */
  function LoadedUser(s: Store): (u: Option<UserProfile>)
    ensures u.Some? <==> UserKey in s && s[UserKey].ProfileJson?
    ensures u.Some? ==> s[UserKey] == ProfileJson(u.value)
  {
    if UserKey in s && s[UserKey].ProfileJson? then Some(s[UserKey].profile) else None
  }

  /** The session flag read at start-up: set only by the exact text "true". */
  function LoadedLoggedIn(s: Store): (b: bool)
    ensures b <==> LoggedInKey in s && s[LoggedInKey] == Text("true")
  {
    LoggedInKey in s && s[LoggedInKey].Text? && s[LoggedInKey].text == "true"
  }

  /** The log read at start-up: empty when the key is absent or empty. */
  function LoadedProgress(s: Store): (log: seq<ProgressEntry>)
    ensures ProgressKey in s && s[ProgressKey].ProgressJson? ==> s[ProgressKey] == ProgressJson(log)
    ensures !(ProgressKey in s && s[ProgressKey].ProgressJson?) ==> log == []
  {
    if ProgressKey in s && s[ProgressKey].ProgressJson? then s[ProgressKey].log else []
  }

  function FlagText(b: bool): string {
    if b then "true" else "false"
  }

  /** The store agrees with the state: the profile is written (or its key
      removed when there is none), the flag and the log are written. */
  predicate Synced(s: Store, user: Option<UserProfile>, loggedIn: bool, log: seq<ProgressEntry>) {
    (user.Some? ==> UserKey in s && s[UserKey] == ProfileJson(user.value)) &&
    (user.None? ==> UserKey !in s) &&
    LoggedInKey in s && s[LoggedInKey] == Text(FlagText(loggedIn)) &&
    ProgressKey in s && s[ProgressKey] == ProgressJson(log)
  }

  /** The profile's write-back effect: the profile is written, or its key is
      removed when there is none. It runs only when the profile changes. */
  function WriteUser(s: Store, user: Option<UserProfile>): (r: Store)
    ensures user.Some? ==> UserKey in r && r[UserKey] == ProfileJson(user.value)
    ensures user.None? ==> UserKey !in r
    ensures forall k :: k in s && k != UserKey ==> k in r && r[k] == s[k]
    ensures forall k :: k in r && k != UserKey ==> k in s
    ensures Unrelated(r) == Unrelated(s)
  {
    if user.Some? then s[UserKey := ProfileJson(user.value)] else s - {UserKey}
  }

  /** The flag's write-back effect: the flag is written as text. */
  function WriteFlag(s: Store, loggedIn: bool): (r: Store)
    ensures LoggedInKey in r && r[LoggedInKey] == Text(FlagText(loggedIn))
    ensures forall k :: k in s && k != LoggedInKey ==> k in r && r[k] == s[k]
    ensures forall k :: k in r && k != LoggedInKey ==> k in s
    ensures Unrelated(r) == Unrelated(s)
  {
    s[LoggedInKey := Text(FlagText(loggedIn))]
  }

  /** The log's write-back effect: the log is written as a whole. */
  function WriteLog(s: Store, log: seq<ProgressEntry>): (r: Store)
    ensures ProgressKey in r && r[ProgressKey] == ProgressJson(log)
    ensures forall k :: k in s && k != ProgressKey ==> k in r && r[k] == s[k]
    ensures forall k :: k in r && k != ProgressKey ==> k in s
    ensures Unrelated(r) == Unrelated(s)
  {
    s[ProgressKey := ProgressJson(log)]
  }

  /** The store after all three write-back effects for this state have run. */
  function Persisted(s: Store, user: Option<UserProfile>, loggedIn: bool, log: seq<ProgressEntry>): (r: Store)
    ensures Synced(r, user, loggedIn, log)
    ensures Unrelated(r) == Unrelated(s)
  {
    WriteLog(WriteFlag(WriteUser(s, user), loggedIn), log)
  }

  /** The write-back after logging progress: the profile effect runs when there
      is a profile, then the log effect; a synced store stays synced. */
  lemma WriteBackKeepsSync(s: Store, user0: Option<UserProfile>, loggedIn: bool, log0: seq<ProgressEntry>,
                           user: Option<UserProfile>, log: seq<ProgressEntry>)
    requires Synced(s, user0, loggedIn, log0)
    requires user0.None? ==> user.None?
    ensures Synced(WriteLog(if user0.Some? then WriteUser(s, user) else s, log), user, loggedIn, log)
    ensures LoadedProgress(WriteLog(if user0.Some? then WriteUser(s, user) else s, log)) == log
  {
  }

  /** Round trip: reloading a synced store gives back exactly the state written. */
  lemma ReloadRoundTrip(s: Store, user: Option<UserProfile>, loggedIn: bool, log: seq<ProgressEntry>)
    requires Synced(s, user, loggedIn, log)
    ensures WellFormedStore(s)
    ensures LoadedUser(s) == user && LoadedLoggedIn(s) == loggedIn && LoadedProgress(s) == log
  {
  }

  // ---------------------------------------------------------------------------
  // The provider's state

  class UserSession {
    var user: Option<UserProfile>
    var isLoggedIn: bool
    var progress: seq<ProgressEntry>
    /** The browser's local storage. */
    var store: Store

    /** The store agrees with the state, except that the stored log may list
        the state's entries in another order: sorting the log in place changes
        the state without a write-back. */
    ghost predicate Valid()
      reads this
    {
      Synced(store, user, isLoggedIn, LoadedProgress(store)) &&
      multiset(LoadedProgress(store)) == multiset(progress)
    }

    /** The store holds exactly the state, the log in its order included. */
    ghost predicate InStep()
      reads this
    {
      Synced(store, user, isLoggedIn, progress)
    }

    /** Mounting the provider: read the three keys, then the effects write the
        state back (removing the profile key when there is no profile). */
    constructor (saved: Store)
      requires WellFormedStore(saved)
      ensures Valid() && InStep()
      ensures user == LoadedUser(saved)
      ensures isLoggedIn == LoadedLoggedIn(saved)
      ensures progress == LoadedProgress(saved)
      ensures Unrelated(store) == Unrelated(saved)
    {
      user := LoadedUser(saved);
      isLoggedIn := LoadedLoggedIn(saved);
      progress := LoadedProgress(saved);
      store := Persisted(saved, LoadedUser(saved), LoadedLoggedIn(saved), LoadedProgress(saved));
    }

    /** `setUser`, with its write-back effect. */
    method SetUser(u: Option<UserProfile>)
      requires Valid()
      modifies this
      ensures Valid()
      ensures user == u && isLoggedIn == old(isLoggedIn) && progress == old(progress)
      ensures store == WriteUser(old(store), u)
    {
      user := u;
      store := WriteUser(store, user);
    }

    /** `setIsLoggedIn`, with its write-back effect. */
    method SetIsLoggedIn(b: bool)
      requires Valid()
      modifies this
      ensures Valid()
      ensures isLoggedIn == b && user == old(user) && progress == old(progress)
      ensures store == WriteFlag(old(store), b)
    {
      isLoggedIn := b;
      store := WriteFlag(store, isLoggedIn);
    }

    /** Log a day: upsert the entry by date; with a profile, award 10 points and
        recompute the level. Nothing else about the profile changes. */
    method AddProgress(e: ProgressEntry)
      requires Valid()
      modifies this
      ensures Valid()
      ensures progress == Upsert(old(progress), e)
      ensures UniqueDates(old(progress)) ==> UniqueDates(progress)
      ensures old(user).None? ==> user.None?
      ensures old(user).Some? ==> user == Some(Rewarded(old(user).value))
      ensures isLoggedIn == old(isLoggedIn)
      ensures store == WriteLog(if old(user).Some? then WriteUser(old(store), user) else old(store), progress)
      ensures InStep()
    {
      var log := UpsertByIndex(progress, e);
      if UniqueDates(progress) {
        UpsertKeepsUniqueDates(progress, e);
      }
      var updated := if user.Some? then Some(Rewarded(user.value)) else None;
      WriteBackKeepsSync(store, user, isLoggedIn, LoadedProgress(store), updated, log);
      store := WriteLog(if user.Some? then WriteUser(store, updated) else store, log);
      user, progress := updated, log;
    }

    /** Sign in with the profile built from `d`; the log is untouched. */
    method Login(d: PartialProfile)
      requires Valid()
      modifies this
      ensures Valid()
      ensures user == Some(ProfileFrom(d)) && isLoggedIn
      ensures progress == old(progress)
      ensures store == WriteFlag(WriteUser(old(store), user), true)
    {
      user := Some(ProfileFrom(d));
      isLoggedIn := true;
      store := WriteFlag(WriteUser(store, user), isLoggedIn);
    }

    /** Sign out: only the flag is cleared; profile and log stay for next time. */
    method Logout()
      requires Valid()
      modifies this
      ensures Valid()
      ensures !isLoggedIn && user == old(user) && progress == old(progress)
      ensures store == WriteFlag(old(store), false)
    {
      isLoggedIn := false;
      store := WriteFlag(store, isLoggedIn);
    }
  }
}
