/**
 * UserPreferences.kt: the SharedPreferences key-value store holding the
 * test-completed flag, the last mood and the last score triple.
 */
module Preferences {
  import opened Wrappers

  /** A stored value, typed as SharedPreferences types it. Scores are stored as reals. */
  datatype Pref = BoolPref(b: bool) | StringPref(s: string) | FloatPref(f: real)

  type Store = map<string, Pref>

  const KeyTestCompleted := "test_completed"
  const KeyLastMood := "last_mood"
  const KeyRememberedWellBeing := "remembered_wellbeing"
  const KeyExperiencedWellBeing := "experienced_wellbeing"
  const KeyCombinedPHI := "combined_phi"

  /** Every key this class writes holds a value of the type it writes there. */
  ghost predicate TypedStore(store: Store) {
    && (KeyTestCompleted in store ==> store[KeyTestCompleted].BoolPref?)
    && (KeyLastMood in store ==> store[KeyLastMood].StringPref?)
    && (KeyRememberedWellBeing in store ==> store[KeyRememberedWellBeing].FloatPref?)
    && (KeyExperiencedWellBeing in store ==> store[KeyExperiencedWellBeing].FloatPref?)
    && (KeyCombinedPHI in store ==> store[KeyCombinedPHI].FloatPref?)
  }

  /** getBoolean(key, default): the stored value, or the default when the key is absent. */
  function GetBoolean(store: Store, key: string, default: bool): (b: bool)
    ensures key !in store ==> b == default
    ensures key in store && store[key].BoolPref? ==> b == store[key].b
  {
    if key in store && store[key].BoolPref? then store[key].b else default
  }

  /** getString(key, null). */
  function GetString(store: Store, key: string): (s: Option<string>)
    ensures s.Some? <==> key in store && store[key].StringPref?
    ensures s.Some? ==> s.value == store[key].s
  {
    if key in store && store[key].StringPref? then Some(store[key].s) else None
  }

  /** getFloat(key, default). */
  function GetFloat(store: Store, key: string, default: real): (f: real)
    ensures key !in store ==> f == default
    ensures key in store && store[key].FloatPref? ==> f == store[key].f
  {
    if key in store && store[key].FloatPref? then store[key].f else default
  }

  /** hasCompletedTest: the flag, false when never written. */
  function TestCompleted(store: Store): bool {
    GetBoolean(store, KeyTestCompleted, false)
  }

  /** getLastMood: the mood, null when never written. */
  function LastMood(store: Store): Option<string> {
    GetString(store, KeyLastMood)
  }

  /**
   * getLastPHIScores: the triple read with -1 for a missing score, reported
   * only when all three are non-negative.
   */
  function LastPHIScores(store: Store): Option<(real, real, real)> {
    var rememberedWellBeing := GetFloat(store, KeyRememberedWellBeing, -1.0);
    var experiencedWellBeing := GetFloat(store, KeyExperiencedWellBeing, -1.0);
    var combinedPHI := GetFloat(store, KeyCombinedPHI, -1.0);
    if rememberedWellBeing >= 0.0 && experiencedWellBeing >= 0.0 && combinedPHI >= 0.0 then
      Some((rememberedWellBeing, experiencedWellBeing, combinedPHI))
    else
      None
  }

  /** The store after savePHIScores' three puts. */
  function SaveScores(store: Store, rememberedWellBeing: real, experiencedWellBeing: real, combinedPHI: real): Store {
    store[KeyRememberedWellBeing := FloatPref(rememberedWellBeing)]
         [KeyExperiencedWellBeing := FloatPref(experiencedWellBeing)]
         [KeyCombinedPHI := FloatPref(combinedPHI)]
  }

  /** A fresh (or cleared) store: no flag, no mood, no scores. */
  lemma EmptyStoreDefaults()
    ensures !TestCompleted(map[])
    ensures LastMood(map[]) == None
    ensures LastPHIScores(map[]) == None
  {
  }

  /** The flag reads back as written; the mood and the scores are untouched. */
  lemma TestCompletedRoundTrip(store: Store, completed: bool)
    ensures TestCompleted(store[KeyTestCompleted := BoolPref(completed)]) == completed
    ensures LastMood(store[KeyTestCompleted := BoolPref(completed)]) == LastMood(store)
    ensures LastPHIScores(store[KeyTestCompleted := BoolPref(completed)]) == LastPHIScores(store)
  {
  }

  /** The mood reads back as written; the flag and the scores are untouched. */
  lemma LastMoodRoundTrip(store: Store, mood: string)
    ensures LastMood(store[KeyLastMood := StringPref(mood)]) == Some(mood)
    ensures TestCompleted(store[KeyLastMood := StringPref(mood)]) == TestCompleted(store)
    ensures LastPHIScores(store[KeyLastMood := StringPref(mood)]) == LastPHIScores(store)
  {
  }

  /** The triple is reported exactly when the three stored scores are present and non-negative. */
  lemma ScoresReportedIffAllNonNegative(store: Store)
    requires TypedStore(store)
    ensures LastPHIScores(store).Some?
            <==> && KeyRememberedWellBeing in store && store[KeyRememberedWellBeing].f >= 0.0
                 && KeyExperiencedWellBeing in store && store[KeyExperiencedWellBeing].f >= 0.0
                 && KeyCombinedPHI in store && store[KeyCombinedPHI].f >= 0.0
  {
  }

  /**
   * Saved scores read back when all three are non-negative, and not at all
   * otherwise; the flag and the mood are untouched.
   */
  lemma SaveScoresRoundTrip(store: Store, r: real, e: real, c: real)
    ensures LastPHIScores(SaveScores(store, r, e, c))
            == if r >= 0.0 && e >= 0.0 && c >= 0.0 then Some((r, e, c)) else None
    ensures TestCompleted(SaveScores(store, r, e, c)) == TestCompleted(store)
    ensures LastMood(SaveScores(store, r, e, c)) == LastMood(store)
  {
  }

  /** UserPreferences over the app's preference file. */
  class UserPreferences {
    var prefs: Store

    ghost predicate Valid()
      reads this
    {
      TypedStore(prefs)
    }

    /** Opens the file as last written. */
    constructor(persisted: Store)
      requires TypedStore(persisted)
      ensures Valid() && prefs == persisted
    {
      prefs := persisted;
    }

    function HasCompletedTest(): bool
      reads this
    {
      TestCompleted(prefs)
    }

    function GetLastMood(): Option<string>
      reads this
    {
      LastMood(prefs)
    }

    function GetLastPHIScores(): Option<(real, real, real)>
      reads this
    {
      LastPHIScores(prefs)
    }

    method SetTestCompleted(completed: bool)
      requires Valid()
      modifies this
      ensures Valid() && prefs == old(prefs)[KeyTestCompleted := BoolPref(completed)]
      ensures HasCompletedTest() == completed
      ensures GetLastMood() == old(GetLastMood()) && GetLastPHIScores() == old(GetLastPHIScores())
    {
      prefs := prefs[KeyTestCompleted := BoolPref(completed)];
      TestCompletedRoundTrip(old(prefs), completed);
    }

    method SetLastMood(mood: string)
      requires Valid()
      modifies this
      ensures Valid() && prefs == old(prefs)[KeyLastMood := StringPref(mood)]
      ensures GetLastMood() == Some(mood)
      ensures HasCompletedTest() == old(HasCompletedTest()) && GetLastPHIScores() == old(GetLastPHIScores())
    {
      prefs := prefs[KeyLastMood := StringPref(mood)];
      LastMoodRoundTrip(old(prefs), mood);
    }

    method SavePHIScores(rememberedWellBeing: real, experiencedWellBeing: real, combinedPHI: real)
      requires Valid()
      modifies this
      ensures Valid() && prefs == SaveScores(old(prefs), rememberedWellBeing, experiencedWellBeing, combinedPHI)
      ensures HasCompletedTest() == old(HasCompletedTest()) && GetLastMood() == old(GetLastMood())
    {
      prefs := prefs[KeyRememberedWellBeing := FloatPref(rememberedWellBeing)]
                    [KeyExperiencedWellBeing := FloatPref(experiencedWellBeing)]
                    [KeyCombinedPHI := FloatPref(combinedPHI)];
      SaveScoresRoundTrip(old(prefs), rememberedWellBeing, experiencedWellBeing, combinedPHI);
    }

    method ClearAll()
      modifies this
      ensures Valid() && prefs == map[]
      ensures !HasCompletedTest() && GetLastMood() == None && GetLastPHIScores() == None
    {
      prefs := map[];
      EmptyStoreDefaults();
    }
  }
}
