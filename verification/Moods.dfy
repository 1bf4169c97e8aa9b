/**
 * The mood words the dashboard recognises, grouped as the `when` branches of
 * DashBoardViewModel.kt and DashBoardScreen.kt group them.
 */
module Moods {
  import opened Text

  datatype MoodGroup = Joyful | Sad | Angry | Calm | Anxious | Surprised | Unlisted

  /** The group of a mood word, compared exactly (callers lower-case it first). */
  function GroupOf(mood: string): MoodGroup
  {
    if mood in {"happy", "joy", "excited"} then Joyful
    else if mood in {"sad", "depressed", "disappointed"} then Sad
    else if mood in {"angry", "frustrated", "annoyed"} then Angry
    else if mood in {"calm", "peaceful", "relaxed"} then Calm
    else if mood in {"anxious", "worried", "stressed"} then Anxious
    else if mood in {"surprised", "shocked"} then Surprised
    else Unlisted
  }

  /** The group of `mood` after Kotlin's `lowercase()`. */
  function GroupIgnoringCase(mood: string): MoodGroup {
    GroupOf(Lower(mood))
  }

  /** Matching ignores case: a word and its lower-case form fall in the same group. */
  lemma GroupIgnoresCase(mood: string)
    ensures GroupIgnoringCase(Lower(mood)) == GroupIgnoringCase(mood)
  {
    LowerIdempotent(mood);
  }

  /**
   * "Surprise", the emotion classifier's label, is not "surprised": it is
   * unlisted, like Disgust, Fear and Neutral.
   */
  lemma SurpriseLabelUnlisted()
    ensures GroupIgnoringCase("Surprise") == Unlisted
  {
    LowerSurprise();
    assert GroupOf("surprise") == Unlisted;
  }

  lemma LowerSurprise()
    ensures Lower("Surprise") == "surprise"
  {
  }

  /** "Happy", the classifier's label, falls in the joyful group. */
  lemma HappyLabelJoyful()
    ensures GroupIgnoringCase("Happy") == Joyful
  {
    assert Lower("Happy") == "happy";
  }
}
