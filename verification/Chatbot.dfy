/**
 * ChatbotViewModel.kt: the conversation state, the welcome message and the
 * keyword matcher that answers when the Gemini model gives no text.
 */
module Chatbot {
  import opened Wrappers
  import opened Text
  import opened Model
  import opened Tiers
  import opened Moods

  /** A chat line: its text and whether the user wrote it. */
  datatype ChatMessage = ChatMessage(text: string, isUser: bool)

  /** buildWelcomeMessage's score level: the first bucket of 8.0, 6.0, 4.0 reached. */
  function ScoreLevel(combinedPHI: real): string {
    ["excellent", "good", "moderate", "challenging"][Bucket(combinedPHI, ScoreThresholds)]
  }

  /** The levels written out. */
  lemma ScoreLevels(combinedPHI: real)
    ensures ScoreLevel(combinedPHI)
            == if combinedPHI >= 8.0 then "excellent"
               else if combinedPHI >= 6.0 then "good"
               else if combinedPHI >= 4.0 then "moderate"
               else "challenging"
  {
    ScoreBucket(combinedPHI);
  }

  /**
   * The welcome's emoji strings as the source file spells them: each is the
   * Windows-1252 reading of the UTF-8 bytes of the intended emoji, four
   * characters that the chat shows as they are.
   */
  function EmojiAsWritten(group: MoodGroup): string {
    match group
    case Joyful => "\U{F0}\U{178}\U{2DC}\U{160}"
    case Sad => "\U{F0}\U{178}\U{2DC}\U{201D}"
    case Angry => "\U{F0}\U{178}\U{2DC}\U{A4}"
    case Calm => "\U{F0}\U{178}\U{2DC}\U{152}"
    case Anxious => "\U{F0}\U{178}\U{2DC}\U{B0}"
    case Surprised => "\U{F0}\U{178}\U{2DC}\U{B2}"
    case Unlisted => "\U{F0}\U{178}\U{A4}\U{201D}"
  }

  /** As written, no mood gets a single pictograph: every string is four Latin characters. */
  lemma EmojiAsWrittenIsNotAPictograph(group: MoodGroup)
    ensures |EmojiAsWritten(group)| == 4
    ensures forall i :: 0 <= i < 4 ==> EmojiAsWritten(group)[i] < '\U{1F000}'
  {
  }

  /** The intended emoji per mood group: 😊 😔 😤 😌 😰 😲, and 🤔 otherwise. */
  function Emoji(group: MoodGroup): string {
    match group
    case Joyful => "\U{1F60A}"
    case Sad => "\U{1F614}"
    case Angry => "\U{1F624}"
    case Calm => "\U{1F60C}"
    case Anxious => "\U{1F630}"
    case Surprised => "\U{1F632}"
    case Unlisted => "\U{1F914}"
  }

  /** Each mood group gets one pictograph of its own. */
  lemma EmojiIsOnePictograph(group: MoodGroup, other: MoodGroup)
    ensures |Emoji(group)| == 1 && Emoji(group)[0] >= '\U{1F000}'
    ensures group != other ==> Emoji(group) != Emoji(other)
  {
    if group != other {
      assert Emoji(group)[0] != Emoji(other)[0];
    }
  }

  /** The emoji that opens the welcome, by the group of the lower-cased mood. */
  function MoodEmoji(mood: string): string {
    Emoji(GroupIgnoringCase(mood))
  }

  /** The fixed passages of the welcome message, between the parts that vary. */
  datatype WelcomePart = Greeting | FeelingIntro | ScoreIntro | LevelIntro | Closing
  {
    function Text(): string {
      match this
      case Greeting => " Hello! I'm ClariMind, your AI mental health companion.\n\nI can see you're feeling "
      case FeelingIntro => " today, and your overall happiness score is "
      case ScoreIntro => "/10, which indicates a "
      case LevelIntro => " emotional state.\n\n"
      case Closing => "I'm here to support you, offer guidance, and help you navigate your emotional well-being. You can ask me anything - whether you want to understand your mood better, get suggestions for activities, learn coping strategies, or just need someone to talk to.\n\nWhat would you like to explore today?"
    }
  }

  /** The welcome laid out around its varying parts. */
  function WelcomeLayout(emoji: string, loweredMood: string, formattedScore: string, level: string): string {
    emoji + Greeting.Text() + loweredMood + FeelingIntro.Text() + formattedScore
    + ScoreIntro.Text() + level + LevelIntro.Text() + Closing.Text()
  }

  /**
   * buildWelcomeMessage after `trimIndent()`. `formattedScore` is the combined
   * score as `String.format("%.1f", ...)` renders it.
   */
  function WelcomeMessage(mood: string, combinedPHI: real, formattedScore: string): string {
    WelcomeLayout(MoodEmoji(mood), Lower(mood), formattedScore, ScoreLevel(combinedPHI))
  }

  /** A nine-part concatenation contains its third and its seventh part. */
  lemma NinePartsQuote(p1: string, p2: string, p3: string, p4: string, p5: string,
                       p6: string, p7: string, p8: string, p9: string)
    ensures Contains(p1 + p2 + p3 + p4 + p5 + p6 + p7 + p8 + p9, p3)
    ensures Contains(p1 + p2 + p3 + p4 + p5 + p6 + p7 + p8 + p9, p7)
  {
    var whole := p1 + p2 + p3 + p4 + p5 + p6 + p7 + p8 + p9;
    assert whole == p1 + p2 + p3 + (p4 + p5 + p6 + p7 + p8 + p9);
    ContainsMiddle(p1 + p2, p3, p4 + p5 + p6 + p7 + p8 + p9);
    assert whole == p1 + p2 + p3 + p4 + p5 + p6 + p7 + (p8 + p9);
    ContainsMiddle(p1 + p2 + p3 + p4 + p5 + p6, p7, p8 + p9);
  }

  /** The layout quotes the mood and the level it is given. */
  lemma LayoutQuotes(emoji: string, loweredMood: string, formattedScore: string, level: string)
    ensures Contains(WelcomeLayout(emoji, loweredMood, formattedScore, level), loweredMood)
    ensures Contains(WelcomeLayout(emoji, loweredMood, formattedScore, level), level)
  {
    NinePartsQuote(emoji, Greeting.Text(), loweredMood, FeelingIntro.Text(), formattedScore,
                   ScoreIntro.Text(), level, LevelIntro.Text(), Closing.Text());
  }

  /** The welcome quotes the lower-cased mood and names the score level. */
  lemma WelcomeQuotesMoodAndLevel(mood: string, combinedPHI: real, formattedScore: string)
    ensures Contains(WelcomeMessage(mood, combinedPHI, formattedScore), Lower(mood))
    ensures Contains(WelcomeMessage(mood, combinedPHI, formattedScore), ScoreLevel(combinedPHI))
  {
    LayoutQuotes(MoodEmoji(mood), Lower(mood), formattedScore, ScoreLevel(combinedPHI));
  }

  /** The canned answers, in the matcher's order, and the default. */
  datatype MockReply = SupportReply | DownReply | AnxietyReply | PositiveReply | ActivityReply | ScoreReply | DefaultReply
  {
    function Text(): string {
      match this
      case SupportReply => "I'm here to support you! Based on your current state, I'd recommend starting with some gentle self-care activities. Would you like to explore breathing exercises, mindfulness techniques, or perhaps some mood-lifting activities?"
      case DownReply => "I understand you're feeling down right now, and that's completely valid. Remember that these feelings are temporary. Let's work together to find some small steps that might help. Would you like to try a simple breathing exercise or talk about what might be contributing to these feelings?"
      case AnxietyReply => "Anxiety can be really challenging to manage. Let's focus on some grounding techniques that might help. Try taking 5 deep breaths - inhale for 4 counts, hold for 4, exhale for 6. How does that feel? We can also explore what's causing your anxiety if you'd like to talk about it."
      case PositiveReply => "That's wonderful to hear! It's great that you're feeling positive. To help maintain this good energy, consider activities that reinforce these positive feelings - maybe some light exercise, connecting with friends, or doing something creative. What brings you joy?"
      case ActivityReply => "Great question! Based on your current state, here are some activities that might help: gentle walking, journaling your thoughts, listening to calming music, or trying a new hobby. What interests you most? I can provide more specific suggestions based on what you enjoy."
      case ScoreReply => "Your happiness score gives us insight into your overall well-being. Remember, this is just a snapshot of how you're feeling right now. The goal isn't to always have a perfect score, but to understand your patterns and find ways to support your mental health journey."
      case DefaultReply => "Thank you for sharing that with me. I'm here to listen and support you. Is there anything specific about your emotional well-being that you'd like to explore or discuss further?"
    }
  }

  /** The keyword groups of generateMockResponse, tested in this order. */
  const KeywordGroups: seq<seq<string>> := [
    ["help", "support"],
    ["sad", "depressed", "down"],
    ["anxious", "worried", "stress"],
    ["happy", "good", "great"],
    ["activity", "do", "suggestion"],
    ["score", "happiness", "phi"]
  ]

  const Replies: seq<MockReply> :=
    [SupportReply, DownReply, AnxietyReply, PositiveReply, ActivityReply, ScoreReply, DefaultReply]

  /** Some keyword of the group occurs in the message. */
  predicate MentionsAny(message: string, keywords: seq<string>) {
    exists k :: 0 <= k < |keywords| && Contains(message, keywords[k])
  }

  /** The index of the first group the message mentions, or |groups| when it mentions none. */
  function FirstMatch(message: string, groups: seq<seq<string>>): (i: nat)
    ensures i <= |groups|
    ensures i < |groups| ==> MentionsAny(message, groups[i])
    ensures forall j :: 0 <= j < i ==> !MentionsAny(message, groups[j])
  {
    if groups == [] then 0
    else if AnyContained(message, groups[0]) then 0
    else 1 + FirstMatch(message, groups[1..])
  }

  /** Whether some keyword occurs, by a scan of the keywords (Kotlin's `||` chain). */
  function AnyContained(message: string, keywords: seq<string>): (b: bool)
    ensures b <==> MentionsAny(message, keywords)
  {
    if keywords == [] then false
    else if Contains(message, keywords[0]) then true
    else
      var rest := AnyContained(message, keywords[1..]);
      assert MentionsAny(message, keywords[1..]) ==> MentionsAny(message, keywords) by {
        if MentionsAny(message, keywords[1..]) {
          var k :| 0 <= k < |keywords[1..]| && Contains(message, keywords[1..][k]);
          assert Contains(message, keywords[k + 1]);
        }
      }
      rest
  }

  /** generateMockResponse: the reply of the first group mentioned, else the default. */
  function MockResponse(message: string): MockReply {
    Replies[FirstMatch(message, KeywordGroups)]
  }

  /** A message that mentions "help" or "support" always gets the support reply. */
  lemma HelpComesFirst(message: string)
    requires Contains(message, "help") || Contains(message, "support")
    ensures MockResponse(message) == SupportReply
  {
    assert KeywordGroups[0] == ["help", "support"];
    if Contains(message, "help") {
      assert Contains(message, KeywordGroups[0][0]);
    } else {
      assert Contains(message, KeywordGroups[0][1]);
    }
  }

  /** The reply is group i's exactly when group i is mentioned and no earlier group is. */
  lemma ReplyOfFirstMentionedGroup(message: string, i: nat)
    requires i < |KeywordGroups|
    ensures MockResponse(message) == Replies[i]
            <==> MentionsAny(message, KeywordGroups[i]) && forall j :: 0 <= j < i ==> !MentionsAny(message, KeywordGroups[j])
  {
    var m := FirstMatch(message, KeywordGroups);
    if m != i {
      assert Replies[m] != Replies[i];
    }
  }

  /** The default reply comes exactly when no keyword of any group occurs. */
  lemma DefaultWhenNothingMentioned(message: string)
    ensures MockResponse(message) == DefaultReply
            <==> forall j :: 0 <= j < |KeywordGroups| ==> !MentionsAny(message, KeywordGroups[j])
  {
    var m := FirstMatch(message, KeywordGroups);
    if m < |KeywordGroups| {
      assert Replies[m] != DefaultReply;
    }
  }

  /**
   * generateGeminiResponse: the model's text when it gave one, otherwise the
   * canned reply to the lower-cased message.
   */
  function Reply(modelText: Option<string>, userMessage: string): string {
    match modelText
    case Some(text) => text
    case None => MockResponse(Lower(userMessage)).Text()
  }

  /** The canned reply ignores case: "HELP" is answered like "help". */
  lemma ReplyIgnoresCase(userMessage: string)
    ensures Reply(None, Lower(userMessage)) == Reply(None, userMessage)
  {
    LowerIdempotent(userMessage);
  }

  /** ChatbotViewModel: the messages shown, the loading flag and the error. */
  class ChatbotViewModel {
    var messages: seq<ChatMessage>
    var isLoading: bool
    var error: Option<string>

    constructor()
      ensures messages == [] && !isLoading && error == None
    {
      messages := [];
      isLoading := false;
      error := None;
    }

    /** initializeChat: the conversation becomes the single welcome message. */
    method InitializeChat(mood: string, phiScore: PHIScore, formattedScore: string)
      modifies this
      ensures messages == [ChatMessage(WelcomeMessage(mood, phiScore.combinedPHI, formattedScore), false)]
      ensures isLoading == old(isLoading) && error == old(error)
    {
      var welcomeMessage := ChatMessage(WelcomeMessage(mood, phiScore.combinedPHI, formattedScore), false);
      messages := [welcomeMessage];
    }

    /** sendMessage: a blank message is ignored; otherwise it is appended and a reply awaited. */
    method SendMessage(message: string)
      modifies this
      ensures AllWhitespace(message) ==> messages == old(messages) && isLoading == old(isLoading) && error == old(error)
      ensures !AllWhitespace(message) ==>
                messages == old(messages) + [ChatMessage(message, true)] && isLoading && error == None
    {
      TrimEmptyIff(message);
      if Trim(message) == [] {
        return;
      }
      var userMessage := ChatMessage(message, true);
      messages := messages + [userMessage];
      isLoading := true;
      error := None;
    }

    /** The coroutine's success path: the reply is appended and loading ends. */
    method DeliverResponse(response: string)
      modifies this
      ensures messages == old(messages) + [ChatMessage(response, false)]
      ensures !isLoading && error == old(error)
    {
      var botMessage := ChatMessage(response, false);
      messages := messages + [botMessage];
      isLoading := false;
    }

    /** The coroutine's failure path: no message, loading ends, the error is shown. */
    method FailResponse(exceptionMessage: string)
      modifies this
      ensures messages == old(messages) && !isLoading
      ensures error == Some("Failed to get response: " + exceptionMessage)
    {
      isLoading := false;
      error := Some("Failed to get response: " + exceptionMessage);
    }

    method ClearError()
      modifies this
      ensures error == None && messages == old(messages) && isLoading == old(isLoading)
    {
      error := None;
    }
  }
}
