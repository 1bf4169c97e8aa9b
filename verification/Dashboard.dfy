/**
 * DashBoardViewModel.kt: the suggestion list built from the combined PHI score
 * and the last detected mood, and the view model that keeps it up to date.
 */
module Dashboard {
  import opened Wrappers
  import opened Text
  import opened Model
  import opened Tiers
  import opened Moods
  import opened Lists

  /**
   * The suggestion texts, one constructor per text. The lists below are lists
   * of these values; Text() gives the sentence the dashboard shows.
   */
  datatype Suggestion =
    TalkToChatbot | ContinueRoutines | ShareGoodMood | TryNewHobby | GratitudeJournaling | JournalThoughts |
    WalkOrMeditate | ConnectWithFriends | UpliftingMusic | DeepBreathing | GentleActivity |
    MindfulnessMeditation | TalkToSomeoneTrusted | CreativeActivity | ProfessionalSupport |
    ReachOutToFriends | GroundingTechniques | SelfCompassion | ChannelPositiveEnergy | DocumentGoodFeeling |
    ShareHappiness | NewActivityFeelingGood | AllowFeelings | ReachOutSupportive | GentleMovement |
    PatientSelfCompassion | WatchSomethingUplifting | CountToTen | ReleaseTension | WriteDownFeelings |
    MuscleRelaxation | TakeTimeout | MaintainPeace | StayPresent | CalmCreativity | HelpOthers |
    FourSevenEightTechnique | GroundingExercises | LimitCaffeine | BreakTasksDown | TalkAboutWorries |
    ProcessWhatHappened | FeelCentered | TalkAboutExperience | WriteToUnderstand | UnderstandFeelings |
    SelfReflection | JournalCurrentState
  {
    /** The sentence the dashboard shows. */
    function Text(): string {
      match this
      case TalkToChatbot => "Talk to our mental health chatbot"
      case ContinueRoutines => "Continue your positive routines"
      case ShareGoodMood => "Share your good mood with others"
      case TryNewHobby => "Try a new hobby or activity"
      case GratitudeJournaling => "Practice gratitude journaling"
      case JournalThoughts => "Try journaling your thoughts"
      case WalkOrMeditate => "Take a short walk or meditate"
      case ConnectWithFriends => "Connect with friends or family"
      case UpliftingMusic => "Listen to uplifting music"
      case DeepBreathing => "Practice deep breathing exercises"
      case GentleActivity => "Try gentle physical activity"
      case MindfulnessMeditation => "Practice mindfulness meditation"
      case TalkToSomeoneTrusted => "Consider talking to someone you trust"
      case CreativeActivity => "Engage in a creative activity"
      case ProfessionalSupport => "Consider professional support"
      case ReachOutToFriends => "Reach out to trusted friends or family"
      case GroundingTechniques => "Try grounding techniques"
      case SelfCompassion => "Practice self-compassion"
      case ChannelPositiveEnergy => "Channel your positive energy into helping others"
      case DocumentGoodFeeling => "Document this good feeling in a journal"
      case ShareHappiness => "Share your happiness with loved ones"
      case NewActivityFeelingGood => "Try a new activity while you're feeling good"
      case AllowFeelings => "Allow yourself to feel these emotions"
      case ReachOutSupportive => "Reach out to a supportive friend or family member"
      case GentleMovement => "Try gentle movement like a short walk"
      case PatientSelfCompassion => "Practice self-compassion and be patient with yourself"
      case WatchSomethingUplifting => "Consider watching something uplifting"
      case CountToTen => "Take deep breaths and count to 10"
      case ReleaseTension => "Try physical exercise to release tension"
      case WriteDownFeelings => "Write down your feelings to process them"
      case MuscleRelaxation => "Practice progressive muscle relaxation"
      case TakeTimeout => "Take a timeout before responding to situations"
      case MaintainPeace => "Maintain this peaceful state through meditation"
      case StayPresent => "Practice mindfulness to stay present"
      case CalmCreativity => "Use this calm energy for creative activities"
      case HelpOthers => "Help others who might be struggling"
      case FourSevenEightTechnique => "Practice the 4-7-8 breathing technique"
      case GroundingExercises => "Try grounding exercises (5-4-3-2-1 technique)"
      case LimitCaffeine => "Limit caffeine and get adequate sleep"
      case BreakTasksDown => "Break large tasks into smaller, manageable steps"
      case TalkAboutWorries => "Consider talking to someone about your worries"
      case ProcessWhatHappened => "Take time to process what happened"
      case FeelCentered => "Practice grounding techniques to feel centered"
      case TalkAboutExperience => "Talk to someone about your experience"
      case WriteToUnderstand => "Write about your feelings to understand them better"
      case UnderstandFeelings => "Practice mindfulness to understand your feelings"
      case SelfReflection => "Take time for self-reflection"
      case JournalCurrentState => "Consider journaling about your current state"
    }
  }


  /** The base list for each score bucket (phi >= 8.0, >= 6.0, >= 4.0, else). */
  function BaseSuggestions(phiScore: real): (r: seq<Suggestion>)
    ensures NoDuplicates(r)
    ensures |r| == (if phiScore >= 8.0 then 4 else 5)
  {
    match Bucket(phiScore, ScoreThresholds)
    case 0 => [ContinueRoutines,
               ShareGoodMood,
               TryNewHobby,
               GratitudeJournaling]
    case 1 => [JournalThoughts,
               WalkOrMeditate,
               ConnectWithFriends,
               UpliftingMusic,
               DeepBreathing]
    case 2 => [TalkToChatbot,
               GentleActivity,
               MindfulnessMeditation,
               TalkToSomeoneTrusted,
               CreativeActivity]
    case _ => [TalkToChatbot,
               ProfessionalSupport,
               ReachOutToFriends,
               GroundingTechniques,
               SelfCompassion]
  }

  /** getMoodSpecificSuggestions, by the group of the lower-cased mood word. */
  function MoodSuggestions(group: MoodGroup): (r: seq<Suggestion>)
    ensures |r| >= 3
  {
    match group
    case Joyful => [ChannelPositiveEnergy,
                    DocumentGoodFeeling,
                    ShareHappiness,
                    NewActivityFeelingGood]
    case Sad => [AllowFeelings,
                 ReachOutSupportive,
                 GentleMovement,
                 PatientSelfCompassion,
                 WatchSomethingUplifting]
    case Angry => [CountToTen,
                   ReleaseTension,
                   WriteDownFeelings,
                   MuscleRelaxation,
                   TakeTimeout]
    case Calm => [MaintainPeace,
                  StayPresent,
                  CalmCreativity,
                  HelpOthers]
    case Anxious => [FourSevenEightTechnique,
                     GroundingExercises,
                     LimitCaffeine,
                     BreakTasksDown,
                     TalkAboutWorries]
    case Surprised => [ProcessWhatHappened,
                       FeelCentered,
                       TalkAboutExperience,
                       WriteToUnderstand]
    case Unlisted => [UnderstandFeelings,
                      SelfReflection,
                      JournalCurrentState]
  }

  /** Base then mood suggestions, de-duplicated, first five. */
  function SuggestionsFor(phiScore: real, group: MoodGroup): (r: seq<Suggestion>)
    ensures |r| <= 5
    ensures NoDuplicates(r)
  {
    Take(Distinct(BaseSuggestions(phiScore) + MoodSuggestions(group)), 5)
  }

  /** generateSuggestions: the mood is lower-cased before its list is looked up. */
  function GenerateSuggestions(phiScore: real, mood: string): seq<Suggestion> {
    SuggestionsFor(phiScore, GroupIgnoringCase(mood))
  }

  /** Below 8.0 the five distinct base items fill the list: the mood has no effect. */
  lemma SuggestionsBelowEight(phiScore: real, group: MoodGroup)
    requires phiScore < 8.0
    ensures SuggestionsFor(phiScore, group) == BaseSuggestions(phiScore)
  {
    ScoreBucket(phiScore);
    TakeDistinctPrefix(BaseSuggestions(phiScore), MoodSuggestions(group));
  }

  /** From 8.0 the four base items are followed by the first mood suggestion. */
  lemma SuggestionsFromEight(phiScore: real, group: MoodGroup)
    requires phiScore >= 8.0
    ensures SuggestionsFor(phiScore, group) == BaseSuggestions(phiScore) + [MoodSuggestions(group)[0]]
  {
    var base := BaseSuggestions(phiScore);
    var moods := MoodSuggestions(group);
    var head := base + [moods[0]];
    ScoreBucket(phiScore);
    assert moods[0] !in base;
    assert NoDuplicates(head);
    assert head + moods[1..] == base + moods;
    TakeDistinctPrefix(head, moods[1..]);
  }

  /** Suggestions depend on the mood only through its lower-case form. */
  lemma SuggestionsIgnoreCase(phiScore: real, mood: string)
    ensures GenerateSuggestions(phiScore, Lower(mood)) == GenerateSuggestions(phiScore, mood)
  {
    GroupIgnoresCase(mood);
  }

  /** The suggestions open with the chatbot exactly when the score is below 6.0. */
  lemma SuggestionsOpenWithChatbot(phiScore: real, group: MoodGroup)
    ensures SuggestionsFor(phiScore, group)[0] == TalkToChatbot <==> phiScore < 6.0
  {
    ScoreBucket(phiScore);
    if phiScore < 8.0 {
      SuggestionsBelowEight(phiScore, group);
    } else {
      SuggestionsFromEight(phiScore, group);
    }
  }

  /** DashboardViewModel: the UI state (user, score, suggestions) and the current mood. */
  class DashboardViewModel {
    var user: User
    var phiScore: PHIScore
    var suggestions: seq<Suggestion>
    var currentMood: string

    /** The suggestions shown are those of the current score and mood. */
    ghost predicate Valid()
      reads this
    {
      suggestions == GenerateSuggestions(phiScore.combinedPHI, currentMood)
    }

    constructor()
      ensures Valid()
      ensures user == User("John Doe", "john.doe@example.com", None)
      ensures phiScore == PHIScore(7.5, 6.8, 7.2)
      ensures currentMood == ""
      ensures suggestions == BaseSuggestions(7.2)
    {
      user := User("John Doe", "john.doe@example.com", None);
      phiScore := PHIScore(7.5, 6.8, 7.2);
      currentMood := "";
      suggestions := [];
      new;
      UpdateSuggestions();
      SuggestionsBelowEight(7.2, GroupIgnoringCase(""));
    }

    method UpdatePhiScore(score: PHIScore)
      modifies this
      ensures phiScore == score && user == old(user) && currentMood == old(currentMood)
      ensures Valid()
    {
      phiScore := score;
      UpdateSuggestions();
    }

    method UpdateUser(newUser: User)
      requires Valid()
      modifies this
      ensures user == newUser
      ensures phiScore == old(phiScore) && suggestions == old(suggestions) && currentMood == old(currentMood)
      ensures Valid()
    {
      user := newUser;
    }

    method UpdateMood(mood: string)
      modifies this
      ensures currentMood == mood && phiScore == old(phiScore) && user == old(user)
      ensures Valid()
    {
      currentMood := mood;
      UpdateSuggestions();
    }

    method UpdateSuggestions()
      modifies this
      ensures phiScore == old(phiScore) && user == old(user) && currentMood == old(currentMood)
      ensures Valid()
    {
      suggestions := GenerateSuggestions(phiScore.combinedPHI, currentMood);
    }
  }
}
