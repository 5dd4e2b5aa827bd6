/**
 Two concrete runs of the action: a quiz with two questions that are both accepted,
 and the same submission where the second question is rejected.
 */
module QuizScenarios {
  import opened QuizTypes
  import opened QuizAction
  import QuizProperties

  const Midterm: Form :=
    Form(Some("tok"), Some("101"), Some("Midterm"),
         Some("[{\"question_name\":\"Q1\"},{\"question_name\":\"Q2\"}]"))

  const Q1: Question := QuestionValue("{\"question_name\":\"Q1\"}")
  const Q2: Question := QuestionValue("{\"question_name\":\"Q2\"}")

  function DecodeMidterm(text: string): Decoded {
    Arr([Q1, Q2])
  }

  /** Both add-question requests answered ok: success for quiz 55 with two questions. */
  lemma TwoQuestionsAccepted()
    ensures var o := CreateQuiz(Midterm, Oracle(DecodeMidterm, CreateOk(55), n => AddOk));
            && o.result == QuizActionResult(true, CreatedMessage(2), Some(55), None)
            && o.trace == [CreateQuizCall("101", "tok", QuizBody(QuizSettings("Midterm", "Midterm", false, 10))),
                           AddQuestionCall("101", "tok", 55, QuestionBody(Q1)),
                           AddQuestionCall("101", "tok", 55, QuestionBody(Q2))]
  {
  }

  /** The second add-question request answered 422: the failure names question 2
      (the 0-based index 1), keeps quiz id 55 and carries the remote body. */
  lemma SecondQuestionRejected()
    ensures var reject := (n: nat) => if n == 1 then AddFail(422, "invalid answer format") else AddOk;
            var o := CreateQuiz(Midterm, Oracle(DecodeMidterm, CreateOk(55), reject));
            && o.result == QuizActionResult(false, AdditionFailedMessage(2, 422, "invalid answer format"),
                                            Some(55), Some(QuestionAdditionFailed))
            && |o.trace| == 3
  {
    var reject := (n: nat) => if n == 1 then AddFail(422, "invalid answer format") else AddOk;
    var oracle := Oracle(DecodeMidterm, CreateOk(55), reject);
    assert Proceeds(reject, [Q1, Q2], 0);
    QuizProperties.PartialFailureReported(Midterm, oracle, 1);
  }
}
