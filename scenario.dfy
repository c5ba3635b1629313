/**
 * A complete session over three questions, driven only through the session's
 * operations: the first question answered right, the second with one slot
 * wrong, the third left unanswered, then the test finished and reviewed.
 */
module QuizScenario {
  import opened QuestionView
  import opened TestSession

  function MakeQuestion(id: string, number: int, correctAnswer: Pair): (q: Question)
    ensures q.correctAnswer == correctAnswer && q.options == LabelOptions
  {
    Question(id, number, "", None, LabelOptions, ("A", "B"), correctAnswer)
  }

  const Questions: seq<Question> := [
    MakeQuestion("q1", 1, Pair(1, 2)),
    MakeQuestion("q2", 2, Pair(2, 3)),
    MakeQuestion("q3", 3, Pair(3, 1))
  ]

  /**
   * Answers the first question right and the second with its second slot
   * wrong, with one timer tick on each.
   */
  method AnswerFirstTwo(s: Session) returns (secondStatus: Status)
    requires s.Valid() && s.Initial() && s.questions == Questions
    modifies s
    ensures s.Valid() && s.currentQuestion == 1 && !s.showResults && !s.showAnswers && s.timeSpent == 2
    ensures s.answers == map[0 := UserAnswer(Pair(1, 2), true), 1 := UserAnswer(Pair(2, 1), false)]
    ensures secondStatus == Current
  {
    assert |Questions| == 3;
    assert Questions[0].correctAnswer == Pair(1, 2) && Questions[1].correctAnswer == Pair(2, 3);
    s.Tick();
    s.HandleAnswer(HandleFirstChange(s.CurrentAnswer(), 1));
    s.HandleAnswer(HandleSecondChange(s.CurrentAnswer(), 2));
    assert s.answers == map[0 := UserAnswer(Pair(1, 2), true)];
    s.NextQuestion();
    s.Tick();
    s.HandleAnswer(ChangeSlot(s.CurrentAnswer(), First, 2));
    assert s.answers == map[0 := UserAnswer(Pair(1, 2), true), 1 := UserAnswer(Pair(2, 0), false)];
    s.HandleAnswer(ChangeSlot(s.CurrentAnswer(), Second, 1));
    // The question on screen reports Current even though its record is wrong.
    secondStatus := s.GetQuestionStatus(1);
  }

  /**
   * Leaves the third question unanswered and finishes the test; the timer ticks
   * three more times before the end and three times after it, around two
   * toggles of the review.
   */
  method SkipAndFinish(s: Session)
    requires s.Valid() && s.questions == Questions && s.currentQuestion == 1 && !s.showResults
    modifies s
    ensures s.Valid() && s.answers == old(s.answers)
    ensures s.showResults && s.showAnswers == old(s.showAnswers) && s.timeSpent == old(s.timeSpent) + 3
  {
    assert |Questions| == 3;
    s.NextQuestion();
    s.Tick();
    s.Tick();
    s.Tick();
    s.GoToQuestion(0);
    s.GoToQuestion(2);
    s.NextQuestion();
    // After the results appear the timer no longer advances, review or not.
    s.Tick();
    s.ToggleShowAnswers();
    s.Tick();
    s.ToggleShowAnswers();
    s.Tick();
  }

  /**
   * The walk-through's results: one right out of three gives 33 percent, the
   * time reads 0:05, and the review flags exactly the wrong slot: the unanswered
   * third question shows no correct-answer block, the second flags only its
   * second slot and shows the block, the first shows no block.
   */
  method ThreeQuestionSession() returns (res: TestResults, time: string, thirdVerdict: Status, thirdBlock: bool,
                                         secondFirstWrong: bool, secondSecondWrong: bool, secondBlock: bool,
                                         firstVerdict: Status, firstBlock: bool)
    ensures res == TestResults(1, 3, 33)
    ensures time == "0:05"
    ensures thirdVerdict == Unanswered && !thirdBlock
    ensures !secondFirstWrong && secondSecondWrong && secondBlock
    ensures firstVerdict == Correct && !firstBlock
  {
    var s := new Session(Questions);
    var _ := AnswerFirstTwo(s);
    SkipAndFinish(s);
    time := FormatTime(s.timeSpent);
    assert Decimal(0) == "0" && Decimal(5) == "5";
    assert CorrectKeys(s.answers) == {0};
    res := s.CalculateResults();
    assert (200 * 1 + 3) / (2 * 3) == 33;
    thirdVerdict, thirdBlock := s.ReviewVerdict(2), s.ShowCorrectBlock(2);
    secondFirstWrong, secondSecondWrong := s.ReviewSlotWrong(1, First), s.ReviewSlotWrong(1, Second);
    secondBlock := s.ShowCorrectBlock(1);
    firstVerdict, firstBlock := s.ReviewVerdict(0), s.ShowCorrectBlock(0);
  }

  /** Opening and closing the review leaves the whole session as it was. */
  method ToggleTwice(s: Session)
    requires s.Valid()
    modifies s
    ensures s.Valid()
    ensures s.currentQuestion == old(s.currentQuestion) && s.answers == old(s.answers)
    ensures s.showResults == old(s.showResults) && s.timeSpent == old(s.timeSpent)
    ensures s.showAnswers == old(s.showAnswers)
  {
    s.ToggleShowAnswers();
    s.ToggleShowAnswers();
  }
}
