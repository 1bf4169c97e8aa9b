/** navigation.kt: the screen the app opens on, read from the preference store. */
module Navigation {
  import opened Wrappers
  import opened Preferences

  datatype Destination =
    | DashBoardScreen(mood: string, rememberedWellBeing: real, experiencedWellBeing: real, combinedPHI: real)
    | EmotionCameraScreen

  /** The dashboard when the test is done and the scores are saved, else the camera. */
  function StartDestination(store: Store): Destination {
    if TestCompleted(store) then
      match LastPHIScores(store)
      case Some(scores) =>
        var lastMood := match LastMood(store) case Some(m) => m case None => "Neutral";
        DashBoardScreen(lastMood, scores.0, scores.1, scores.2)
      case None => EmotionCameraScreen
    else
      EmotionCameraScreen
  }

  /**
   * The app opens on the dashboard exactly when the test is completed and a
   * full triple is saved; it then shows the saved mood, or "Neutral" without one.
   */
  lemma DashboardStartIff(store: Store)
    ensures StartDestination(store).DashBoardScreen?
            <==> TestCompleted(store) && LastPHIScores(store).Some?
    ensures StartDestination(store).DashBoardScreen? ==>
              var d := StartDestination(store);
              && Some((d.rememberedWellBeing, d.experiencedWellBeing, d.combinedPHI)) == LastPHIScores(store)
              && d.mood == (if LastMood(store).Some? then LastMood(store).value else "Neutral")
  {
  }

  /** A dashboard start never carries a negative score. */
  lemma DashboardScoresNonNegative(store: Store)
    requires StartDestination(store).DashBoardScreen?
    ensures StartDestination(store).rememberedWellBeing >= 0.0
    ensures StartDestination(store).experiencedWellBeing >= 0.0
    ensures StartDestination(store).combinedPHI >= 0.0
  {
  }

  /**
   * Completing the test and saving non-negative scores makes the next launch
   * open on the dashboard with those scores.
   */
  lemma SavedResultsOpenDashboard(store: Store, mood: string, r: real, e: real, c: real)
    requires r >= 0.0 && e >= 0.0 && c >= 0.0
    ensures StartDestination(SaveScores(store[KeyTestCompleted := BoolPref(true)][KeyLastMood := StringPref(mood)], r, e, c))
            == DashBoardScreen(mood, r, e, c)
  {
    var s1 := store[KeyTestCompleted := BoolPref(true)];
    TestCompletedRoundTrip(store, true);
    LastMoodRoundTrip(s1, mood);
    SaveScoresRoundTrip(s1[KeyLastMood := StringPref(mood)], r, e, c);
  }

  /** After clearAll the app opens on the camera. */
  lemma ClearedStoreOpensCamera()
    ensures StartDestination(map[]) == EmotionCameraScreen
  {
    EmptyStoreDefaults();
  }
}
