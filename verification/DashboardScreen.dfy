/**
 * The helper functions of DashBoardScreen.kt: the colour, icon and description
 * that the dashboard shows for a PHI score and a detected mood, and the rule
 * that shows the "Talk to Chatbot" button.
 */
module DashboardScreen {
  import opened Text
  import opened Tiers
  import opened Moods
  import opened Dashboard

  /** Compose colours as ARGB values. */
  const Green: int := 0xFF4CAF50
  const Blue: int := 0xFF2196F3
  const Orange: int := 0xFFFF9800
  const Red: int := 0xFFE53935

  /** getMoodColor: green, blue, orange or red by the 8.0/6.0/4.0 buckets. */
  function MoodColor(phiScore: real): (argb: int) {
    match Bucket(phiScore, ScoreThresholds)
    case 0 => Green
    case 1 => Blue
    case 2 => Orange
    case _ => Red
  }

  /** The colours written out: the first of 8.0, 6.0, 4.0 the score reaches decides. */
  lemma MoodColors(phiScore: real)
    ensures MoodColor(phiScore)
            == if phiScore >= 8.0 then Green
               else if phiScore >= 6.0 then Blue
               else if phiScore >= 4.0 then Orange
               else Red
  {
    ScoreBucket(phiScore);
  }

  /** The "Talk to Chatbot" button is shown for scores below 6.0. */
  predicate ShowsChatbotButton(phiScore: real) {
    phiScore < 6.0
  }

  /** The button is shown exactly when the colour is orange or red. */
  lemma ChatbotButtonWithWarmColours(phiScore: real)
    ensures ShowsChatbotButton(phiScore) <==> MoodColor(phiScore) == Orange || MoodColor(phiScore) == Red
  {
    ScoreBucket(phiScore);
  }

  /** The button is shown exactly when the suggestion list opens with the chatbot. */
  lemma ChatbotButtonWithChatbotSuggestion(phiScore: real, mood: string)
    ensures ShowsChatbotButton(phiScore) <==> GenerateSuggestions(phiScore, mood)[0] == TalkToChatbot
  {
    SuggestionsOpenWithChatbot(phiScore, GroupIgnoringCase(mood));
  }

  /** The colour is green exactly when a mood suggestion enters the list. */
  lemma GreenWithMoodSuggestion(phiScore: real, group: MoodGroup)
    ensures MoodColor(phiScore) == Green <==> MoodSuggestions(group)[0] in SuggestionsFor(phiScore, group)
  {
    ScoreBucket(phiScore);
    if phiScore < 8.0 {
      SuggestionsBelowEight(phiScore, group);
      MoodHeadNotInBase(phiScore, group);
    } else {
      SuggestionsFromEight(phiScore, group);
    }
  }

  /** No mood list starts with one of the base suggestions for a score below 8.0. */
  lemma MoodHeadNotInBase(phiScore: real, group: MoodGroup)
    requires phiScore < 8.0
    ensures MoodSuggestions(group)[0] !in BaseSuggestions(phiScore)
  {
    ScoreBucket(phiScore);
  }

  datatype Icon =
    SentimentVerySatisfied | SentimentVeryDissatisfied | SentimentDissatisfied
    | SentimentSatisfied | SentimentNeutral | FavoriteBorder

  /** getMoodIcon, on the lower-cased mood; surprised and calm share an icon. */
  function MoodIcon(mood: string): Icon {
    match GroupIgnoringCase(mood)
    case Joyful => SentimentVerySatisfied
    case Sad => SentimentVeryDissatisfied
    case Angry => SentimentDissatisfied
    case Calm => SentimentSatisfied
    case Anxious => SentimentNeutral
    case Surprised => SentimentSatisfied
    case Unlisted => FavoriteBorder
  }

  /** The fallback icon is shown exactly for moods outside the listed groups. */
  lemma FallbackIconIffUnlisted(mood: string)
    ensures MoodIcon(mood) == FavoriteBorder <==> GroupIgnoringCase(mood) == Unlisted
  {
  }

  /** The classifier's "Surprise" label gets the fallback icon. */
  lemma SurpriseLabelFallbackIcon()
    ensures MoodIcon("Surprise") == FavoriteBorder
  {
    SurpriseLabelUnlisted();
  }

  /** The six base sentences of getMoodDescription, best first. */
  datatype WellBeingTier = Excellent | DoingWell | Managing | Imbalanced | Difficult | Low
  {
    function Text(): string {
      match this
      case Excellent => "You're in an excellent emotional state! You're feeling balanced, positive, and emotionally resilient."
      case DoingWell => "You're doing really well overall. You seem emotionally balanced and stable, with good coping mechanisms in place."
      case Managing => "Your emotional state shows you're managing reasonably well, though there might be some areas for improvement."
      case Imbalanced => "Your emotional state indicates some imbalance that's worth addressing. You might be experiencing some challenges with your well-being right now."
      case Difficult => "You're currently experiencing some difficulties with your emotional well-being. This is a temporary state, and there are ways to improve how you're feeling."
      case Low => "You're currently experiencing low well-being, and that's okay - you're not alone in feeling this way. It's important to be gentle with yourself right now."
    }
  }

  const DescriptionThresholds: seq<real> := [8.5, 7.0, 5.5, 4.0, 2.5]

  /** The base sentence: the first of 8.5, 7.0, 5.5, 4.0, 2.5 the score reaches. */
  function DescriptionTier(phiScore: real): WellBeingTier {
    [Excellent, DoingWell, Managing, Imbalanced, Difficult, Low][Bucket(phiScore, DescriptionThresholds)]
  }

  /** A higher score never gets a lower tier. */
  lemma DescriptionTierMonotone(lower: real, higher: real)
    requires lower <= higher
    ensures TierRank(DescriptionTier(higher)) <= TierRank(DescriptionTier(lower))
  {
  }

  /** The position of a tier in the list, best first. */
  function TierRank(tier: WellBeingTier): nat {
    match tier
    case Excellent => 0
    case DoingWell => 1
    case Managing => 2
    case Imbalanced => 3
    case Difficult => 4
    case Low => 5
  }

  /** The tier's sentence is the one the score reaches, and no better tier's. */
  lemma DescriptionTierThresholds(phiScore: real)
    ensures TierRank(DescriptionTier(phiScore)) < 5 ==>
              phiScore >= DescriptionThresholds[TierRank(DescriptionTier(phiScore))]
    ensures forall k :: 0 <= k < TierRank(DescriptionTier(phiScore)) ==> phiScore < DescriptionThresholds[k]
  {
  }

  /**
   * The text around the lower-cased mood in the mood sentence. Its groups are
   * the dashboard's except that there is no sentence for surprised moods, which
   * get the generic one.
   */
  function SentenceFrame(group: MoodGroup): (string, string) {
    match group
    case Joyful => (" Your detected mood of ", " aligns well with your current state.")
    case Sad => (" I notice you're feeling ", " right now. Remember that these feelings are temporary.")
    case Angry => (" Your ", " feelings are valid, and there are healthy ways to process them.")
    case Calm => (" Your ", " state is beneficial for your overall well-being.")
    case Anxious => (" I can see you're feeling ", ". Let's work on some techniques to help you feel more centered.")
    case _ => (" Your current mood of ", " is an important part of understanding your emotional state.")
  }

  /** The mood sentence: the lower-cased mood inside its group's frame. */
  function MoodSentence(mood: string): string {
    var m := Lower(mood);
    var frame := SentenceFrame(GroupOf(m));
    frame.0 + m + frame.1
  }

  /** getMoodDescription: the base sentence followed by the mood sentence. */
  function MoodDescription(phiScore: real, mood: string): string {
    DescriptionTier(phiScore).Text() + MoodSentence(mood)
  }

  /** The description always quotes the mood in lower case. */
  lemma DescriptionQuotesMood(phiScore: real, mood: string)
    ensures Contains(MoodDescription(phiScore, mood), Lower(mood))
  {
    FramedContains(DescriptionTier(phiScore).Text(), SentenceFrame(GroupOf(Lower(mood))), Lower(mood));
  }

  /** A string framed by two others, after a third, is contained in the whole. */
  lemma FramedContains(base: string, frame: (string, string), quoted: string)
    ensures Contains(base + (frame.0 + quoted + frame.1), quoted)
  {
    assert base + (frame.0 + quoted + frame.1) == (base + frame.0) + quoted + frame.1;
    ContainsMiddle(base + frame.0, quoted, frame.1);
  }
}
