/**
 * The well-being questionnaire (QuestionViewModel.kt): a view model whose
 * state holds the Section A ratings and Section B yes/no answers keyed by
 * question id, the current section, and the score once computed.
 */
module Questionnaire {
  import opened Wrappers
  import opened Sums
  import opened Model

  datatype SectionAQuestion = SectionAQuestion(id: int, question: string, category: string)
  datatype SectionBQuestion = SectionBQuestion(id: int, question: string, isPositive: bool)

  const SectionAQuestions: seq<SectionAQuestion> := [
    SectionAQuestion(1, "I am very satisfied with my life", "General well-being"),
    SectionAQuestion(2, "I have the energy to accomplish my daily tasks", "General well-being"),
    SectionAQuestion(3, "I think my life is useful and worthwhile", "Eudaimonic well-being"),
    SectionAQuestion(4, "I am satisfied with myself", "Eudaimonic well-being"),
    SectionAQuestion(5, "My life is full of learning experiences and challenges that make me grow", "Eudaimonic well-being"),
    SectionAQuestion(6, "I feel very connected to the people around me", "Eudaimonic well-being"),
    SectionAQuestion(7, "I feel able to solve the majority of my daily problems", "Eudaimonic well-being"),
    SectionAQuestion(8, "I think that I can be myself on the important things", "Eudaimonic well-being"),
    SectionAQuestion(9, "I enjoy a lot of little things every day", "Hedonic well-being"),
    SectionAQuestion(10, "I have a lot of bad moments in my daily life", "Hedonic well-being"),
    SectionAQuestion(11, "I think that I live in a society that lets me fully realize my potential", "Social well-being")
  ]

  const SectionBQuestions: seq<SectionBQuestion> := [
    SectionBQuestion(1, "Something I did made me proud", true),
    SectionBQuestion(2, "I did something fun with someone", true),
    SectionBQuestion(3, "I did something I really enjoy doing", true),
    SectionBQuestion(4, "I learned something interesting", true),
    SectionBQuestion(5, "I gave myself a treat", true),
    SectionBQuestion(6, "At times, I felt overwhelmed", false),
    SectionBQuestion(7, "I was bored for a lot of the time", false),
    SectionBQuestion(8, "I was worried about personal matters", false),
    SectionBQuestion(9, "Things happened that made me really angry", false),
    SectionBQuestion(10, "I felt disrespected by someone", false)
  ]

  /** The ids the two tables use: 1..11 and 1..10. */
  const SectionAIds: set<int> := {1, 2, 3, 4, 5, 6, 7, 8, 9, 10, 11}
  const SectionBIds: set<int> := {1, 2, 3, 4, 5, 6, 7, 8, 9, 10}

  /** Item 10 ("I have a lot of bad moments") is reverse-scored. */
  const ReverseScoredId: int := 10
  /** Section A always divides by 11, however many ratings were given. */
  const SectionADivisor: real := 11.0

  /** The contribution of one Section A rating. */
  function ItemScore(questionId: int, answer: int): int {
    if questionId == ReverseScoredId then 10 - answer else answer
  }

  /** `sectionBQuestions.find { it.id == questionId }`: the first question with that id. */
  function FindSectionB(questionId: int, from: nat := 0): (r: Option<SectionBQuestion>)
    requires from <= |SectionBQuestions|
    ensures r.Some? ==> r.value in SectionBQuestions[from..] && r.value.id == questionId
    ensures r.None? ==> forall i :: from <= i < |SectionBQuestions| ==> SectionBQuestions[i].id != questionId
    decreases |SectionBQuestions| - from
  {
    if from == |SectionBQuestions| then None
    else if SectionBQuestions[from].id == questionId then Some(SectionBQuestions[from])
    else FindSectionB(questionId, from + 1)
  }

  /** The table's ids are 1..10 in order; items 1..5 are positive, 6..10 negative. */
  lemma SectionBTable()
    ensures |SectionBQuestions| == 10
    ensures forall i :: 0 <= i < 10 ==> SectionBQuestions[i].id == i + 1
    ensures forall i :: 0 <= i < 10 ==> SectionBQuestions[i].isPositive == (i < 5)
  {
  }

  /** The lookup finds question `id` exactly for the table ids 1..10. */
  lemma {:induction false} FindSectionBById(questionId: int, from: nat)
    requires from <= |SectionBQuestions|
    ensures FindSectionB(questionId, from)
            == if from < questionId <= 10 then Some(SectionBQuestions[questionId - 1]) else None
    decreases |SectionBQuestions| - from
  {
    SectionBTable();
    if from < |SectionBQuestions| {
      FindSectionBById(questionId, from + 1);
    }
  }

  /** The answer agrees with the question's polarity: yes to a positive item, no to a negative one. */
  function Agrees(questionId: int, answer: bool): bool {
    match FindSectionB(questionId)
    case None => false
    case Some(q) => (q.isPositive && answer) || (!q.isPositive && !answer)
  }

  /** Section A terms, one per answered id (0 for ids not answered). */
  ghost function SectionATerms(answers: map<int, int>): int -> int {
    id => if id in answers then ItemScore(id, answers[id]) else 0
  }

  /** Section B terms: 1 for an answered id whose answer agrees with its polarity. */
  ghost function SectionBTerms(answers: map<int, bool>): int -> int {
    id => if id in answers && Agrees(id, answers[id]) then 1 else 0
  }

  /** Σ over the answered ids of the (reverse-scored where due) ratings, divided by 11. */
  ghost function SectionAScore(answers: map<int, int>): real {
    SetSum(answers.Keys, SectionATerms(answers)) as real / SectionADivisor
  }

  /** The number of answered ids whose answer agrees with the question's polarity. */
  ghost function SectionBScore(answers: map<int, bool>): real {
    SetSum(answers.Keys, SectionBTerms(answers)) as real
  }

  /** The gates of the questionnaire screen: every question of the section has an answer. */
  predicate CanProceed(sectionAAnswers: map<int, int>) {
    |sectionAAnswers| == |SectionAQuestions|
  }

  predicate CanComplete(sectionBAnswers: map<int, bool>) {
    |sectionBAnswers| == |SectionBQuestions|
  }

  class QuestionnaireViewModel {
    var sectionAAnswers: map<int, int>
    var sectionBAnswers: map<int, bool>
    /** 0 = Section A, 1 = Section B. */
    var currentSection: int
    var isCompleted: bool
    var phiScore: Option<PHIScore>

    /** The default QuestionnaireState. */
    predicate IsInitial()
      reads this
    {
      && sectionAAnswers == map[] && sectionBAnswers == map[]
      && currentSection == 0 && !isCompleted && phiScore == None
    }

    constructor()
      ensures IsInitial()
    {
      sectionAAnswers := map[];
      sectionBAnswers := map[];
      currentSection := 0;
      isCompleted := false;
      phiScore := None;
    }

    /** Records (or overwrites) the rating for one Section A question. */
    method UpdateSectionAAnswer(questionId: int, answer: int)
      modifies this
      ensures sectionAAnswers == old(sectionAAnswers)[questionId := answer]
      ensures sectionBAnswers == old(sectionBAnswers) && currentSection == old(currentSection)
      ensures isCompleted == old(isCompleted) && phiScore == old(phiScore)
    {
      sectionAAnswers := sectionAAnswers[questionId := answer];
    }

    /** Records (or overwrites) the yes/no answer for one Section B question. */
    method UpdateSectionBAnswer(questionId: int, answer: bool)
      modifies this
      ensures sectionBAnswers == old(sectionBAnswers)[questionId := answer]
      ensures sectionAAnswers == old(sectionAAnswers) && currentSection == old(currentSection)
      ensures isCompleted == old(isCompleted) && phiScore == old(phiScore)
    {
      sectionBAnswers := sectionBAnswers[questionId := answer];
    }

    method GoToNextSection()
      modifies this
      ensures currentSection == 1
      ensures sectionAAnswers == old(sectionAAnswers) && sectionBAnswers == old(sectionBAnswers)
      ensures isCompleted == old(isCompleted) && phiScore == old(phiScore)
    {
      currentSection := 1;
    }

    method GoToPreviousSection()
      modifies this
      ensures currentSection == 0
      ensures sectionAAnswers == old(sectionAAnswers) && sectionBAnswers == old(sectionBAnswers)
      ensures isCompleted == old(isCompleted) && phiScore == old(phiScore)
    {
      currentSection := 0;
    }

    /** The `forEach` over the Section A answers, accumulating `total`. */
    method CalculateSectionAScore() returns (score: real)
      ensures score == SectionAScore(sectionAAnswers)
    {
      var answers := sectionAAnswers;
      var total := 0.0;
      var remaining := answers.Keys;
      while remaining != {}
        invariant remaining <= answers.Keys
        invariant total + SetSum(remaining, SectionATerms(answers)) as real
                  == SetSum(answers.Keys, SectionATerms(answers)) as real
        decreases remaining
      {
        var questionId :| questionId in remaining;
        SetSumRemove(remaining, SectionATerms(answers), questionId);
        var itemScore := ItemScore(questionId, answers[questionId]);
        total := total + itemScore as real;
        remaining := remaining - {questionId};
      }
      score := total / SectionADivisor;
    }

    /** The `forEach` over the Section B answers, accumulating `score`. */
    method CalculateSectionBScore() returns (score: real)
      ensures score == SectionBScore(sectionBAnswers)
    {
      var answers := sectionBAnswers;
      score := 0.0;
      var remaining := answers.Keys;
      while remaining != {}
        invariant remaining <= answers.Keys
        invariant score + SetSum(remaining, SectionBTerms(answers)) as real
                  == SetSum(answers.Keys, SectionBTerms(answers)) as real
        decreases remaining
      {
        var questionId :| questionId in remaining;
        SetSumRemove(remaining, SectionBTerms(answers), questionId);
        var question := FindSectionB(questionId);
        if question.Some? {
          var answer := answers[questionId];
          if question.value.isPositive && answer {
            score := score + 1.0;
          } else if !question.value.isPositive && !answer {
            score := score + 1.0;
          }
        }
        remaining := remaining - {questionId};
      }
    }

    /**
     * Scores both sections, stores PHIScore(A, B, (A + B) / 2) and marks the
     * questionnaire completed; the score is also handed to the caller.
     */
    method CalculateResults() returns (result: PHIScore)
      modifies this
      ensures result.rememberedWellBeing == SectionAScore(old(sectionAAnswers))
      ensures result.experiencedWellBeing == SectionBScore(old(sectionBAnswers))
      ensures result.combinedPHI == (result.rememberedWellBeing + result.experiencedWellBeing) / 2.0
      ensures phiScore == Some(result) && isCompleted
      ensures sectionAAnswers == old(sectionAAnswers) && sectionBAnswers == old(sectionBAnswers)
      ensures currentSection == old(currentSection)
    {
      var sectionAScore := CalculateSectionAScore();
      var sectionBScore := CalculateSectionBScore();
      var combinedScore := (sectionAScore + sectionBScore) / 2.0;
      result := PHIScore(sectionAScore, sectionBScore, combinedScore);
      phiScore := Some(result);
      isCompleted := true;
    }

    method ResetQuestionnaire()
      modifies this
      ensures IsInitial()
    {
      sectionAAnswers := map[];
      sectionBAnswers := map[];
      currentSection := 0;
      isCompleted := false;
      phiScore := None;
    }
  }

  // ---------------------------------------------------------------------------
  // Properties of the scoring rules

  /** Ratings as the screen produces them: ids from the table, slider values 0..10. */
  ghost predicate WellFormedSectionA(answers: map<int, int>) {
    forall id :: id in answers ==> 1 <= id <= 11 && 0 <= answers[id] <= 10
  }

  lemma SectionAIdsCount()
    ensures |SectionAIds| == 11
  {
  }

  lemma SectionBIdsCount()
    ensures |SectionBIds| == 10
  {
  }

  lemma AtMostElevenIds(ids: set<int>)
    requires forall id :: id in ids ==> 1 <= id <= 11
    ensures |ids| <= 11
  {
    forall id | id in ids
      ensures id in SectionAIds
    {
      assert id == 1 || id == 2 || id == 3 || id == 4 || id == 5 || id == 6
          || id == 7 || id == 8 || id == 9 || id == 10 || id == 11;
    }
    SubsetCardinality(ids, SectionAIds);
    SectionAIdsCount();
  }

  /** With table ids and ratings in 0..10, Section A lies in [0, 10]. */
  lemma SectionAInRange(answers: map<int, int>)
    requires WellFormedSectionA(answers)
    ensures 0.0 <= SectionAScore(answers) <= 10.0
  {
    var f := SectionATerms(answers);
    forall id | id in answers.Keys
      ensures 0 <= f(id) <= 10
    {
      assert 0 <= answers[id] <= 10;
    }
    SetSumBounds(answers.Keys, f, 0, 10);
    AtMostElevenIds(answers.Keys);
  }

  /** Only the table's ids can agree. */
  lemma AgreesOnlyTableIds(questionId: int, answer: bool)
    requires Agrees(questionId, answer)
    ensures questionId in SectionBIds
  {
    FindSectionBById(questionId, 0);
    assert questionId == 1 || questionId == 2 || questionId == 3 || questionId == 4 || questionId == 5
        || questionId == 6 || questionId == 7 || questionId == 8 || questionId == 9 || questionId == 10;
  }

  /** Section B lies in [0, 10] for any answers: ids outside the table never score. */
  lemma SectionBInRange(answers: map<int, bool>)
    ensures 0.0 <= SectionBScore(answers) <= 10.0
  {
    var f := SectionBTerms(answers);
    forall id | id in answers.Keys
      ensures 0 <= f(id) <= 1 && (f(id) == 1 ==> id in SectionBIds)
    {
      if f(id) == 1 {
        AgreesOnlyTableIds(id, answers[id]);
      }
    }
    SetSumIndicator(answers.Keys, f, SectionBIds);
    SectionBIdsCount();
  }

  /** The combined index of a screen-produced questionnaire lies in [0, 10] too. */
  lemma CombinedInRange(a: map<int, int>, b: map<int, bool>)
    requires WellFormedSectionA(a)
    ensures 0.0 <= (SectionAScore(a) + SectionBScore(b)) / 2.0 <= 10.0
  {
    SectionAInRange(a);
    SectionBInRange(b);
  }

  /** Eleven ratings of 5 (item 10 reverse-scored to 10 - 5 = 5) give exactly 5.0. */
  lemma AllFivesScoreFive()
    ensures SectionAScore(map id | id in SectionAIds :: 5) == 5.0
  {
    var answers := map id | id in SectionAIds :: 5;
    assert answers.Keys == SectionAIds;
    SetSumConstant(answers.Keys, SectionATerms(answers), 5);
    SectionAIdsCount();
  }

  /** The answers that agree with every question's polarity. */
  function IdealSectionB(): map<int, bool> {
    map id | id in SectionBIds :: id <= 5
  }

  /** "Yes" to items 1..5 and "no" to items 6..10 agrees with each item's polarity. */
  lemma IdealAnswerAgrees(questionId: int)
    requires questionId in SectionBIds
    ensures Agrees(questionId, questionId <= 5)
  {
    FindSectionBById(questionId, 0);
    SectionBTable();
  }

  /** Yes to all five positive items and no to all five negative ones scores 10. */
  lemma IdealSectionBScoresTen()
    ensures SectionBScore(IdealSectionB()) == 10.0
  {
    var answers := IdealSectionB();
    assert answers.Keys == SectionBIds;
    forall id | id in answers.Keys
      ensures SectionBTerms(answers)(id) == 1
    {
      IdealAnswerAgrees(id);
    }
    SetSumConstant(answers.Keys, SectionBTerms(answers), 1);
    SectionBIdsCount();
  }

  /**
   * Changing one rating moves the Section A total by the difference of the
   * item's contributions; for the reverse-scored item 10, raising the rating by
   * one LOWERS the total by one, unlike every other item.
   */
  lemma {:induction false} SectionATotalUpdate(answers: map<int, int>, id: int, a: int)
    ensures SetSum(answers[id := a].Keys, SectionATerms(answers[id := a]))
            == SetSum(answers.Keys, SectionATerms(answers))
               - (if id in answers then ItemScore(id, answers[id]) else 0)
               + ItemScore(id, a)
  {
    var updated := answers[id := a];
    var f := SectionATerms(answers);
    var g := SectionATerms(updated);
    var rest := answers.Keys - {id};
    assert updated.Keys == rest + {id};
    SetSumAdd(rest, g, id);
    SetSumCongruent(rest, g, f);
    if id in answers {
      SetSumRemove(answers.Keys, f, id);
    } else {
      assert rest == answers.Keys;
    }
  }

  /** Item 10 counts as 10 - v: one more point on it is one point less in Section A. */
  lemma ReverseScoredItemLowersScore(answers: map<int, int>, v: int)
    ensures SectionAScore(answers[ReverseScoredId := v + 1])
            == SectionAScore(answers[ReverseScoredId := v]) - 1.0 / 11.0
  {
    var lo := answers[ReverseScoredId := v];
    SectionATotalUpdate(answers, ReverseScoredId, v);
    SectionATotalUpdate(answers, ReverseScoredId, v + 1);
  }

  /** Any other item counts as itself: one more point is one point more in Section A. */
  lemma PlainItemRaisesScore(answers: map<int, int>, id: int, v: int)
    requires id != ReverseScoredId
    ensures SectionAScore(answers[id := v + 1]) == SectionAScore(answers[id := v]) + 1.0 / 11.0
  {
    SectionATotalUpdate(answers, id, v);
    SectionATotalUpdate(answers, id, v + 1);
  }
}
