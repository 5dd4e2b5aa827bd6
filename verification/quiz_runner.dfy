/**
 The action written the way the source runs it: early returns, then a loop over the
 decoded questions that keeps its own `questionsAdded` counter and returns from inside
 the loop on the first failure. It is proved to agree with `QuizAction.CreateQuiz`.
 */
module QuizRunner {
  import opened QuizTypes
  import opened QuizAction

  /** The `for … of` loop over the decoded questions, with the `questionsAdded`
      counter the source keeps beside its position in the array. */
  method AddQuestions(courseId: string, token: string, quizId: int, items: seq<Question>,
                      add: nat -> AddReply) returns (run: LoopRun)
    ensures run == AddFrom(courseId, token, quizId, items, add, 0)
  {
    ghost var full := AddFrom(courseId, token, quizId, items, add, 0);
    var questionsAdded: nat := 0;
    var i := 0;
    var calls: seq<Call> := [];
    while i < |items|
      invariant 0 <= i <= |items|
      invariant questionsAdded == i
      invariant var rest := AddFrom(courseId, token, quizId, items, add, i);
                full.added == rest.added && full.stop == rest.stop
                && full.calls == calls + rest.calls
    {
      var question := items[i];
      calls := calls + [AddCall(courseId, token, quizId, question)];
      match add(i) {
        case AddThrow(e) =>
          return LoopRun(questionsAdded, Raised(e), calls);
        case AddFail(status, body) =>
          return LoopRun(questionsAdded, Rejected(status, body), calls);
        case AddOk =>
      }
      questionsAdded := questionsAdded + 1;
      if question == NullQuestion {
        return LoopRun(questionsAdded, Raised(ErrorObject(NullReadMessage)), calls);
      }
      i := i + 1;
    }
    return LoopRun(questionsAdded, Finished, calls);
  }

  method RunCreateQuiz(form: Form, oracle: Oracle) returns (o: Outcome)
    ensures o == CreateQuiz(form, oracle)
  {
    if !(Present(form.apiToken) && Present(form.courseId)
         && Present(form.quizTitle) && Present(form.questions)) {
      return Outcome(Failed(MissingFieldsMessage, MissingFields), []);
    }
    var token, courseId, title := form.apiToken.value, form.courseId.value, form.quizTitle.value;

    var parsed := oracle.parse(form.questions.value);
    if parsed.ParseError? {
      return Outcome(Failed(InvalidJsonMessage, JsonParseError), []);
    }
    if !parsed.Arr? || |parsed.items| == 0 {
      return Outcome(Failed(InvalidFormatMessage, InvalidQuestionsFormat), []);
    }
    var items := parsed.items;

    var create := CreateQuizCall(courseId, token, QuizBody(Settings(title)));
    var quizId: int;
    match oracle.create {
      case CreateThrow(e) =>
        return Outcome(Unexpected(e), [create]);
      case CreateFail(status, body) =>
        return Outcome(Failed(CreationFailedMessage(status, body), QuizCreationFailed), [create]);
      case CreateOk(id) =>
        quizId := id;
    }

    var run := AddQuestions(courseId, token, quizId, items, oracle.add);
    var result: QuizActionResult;
    match run.stop {
      case Finished =>
        result := QuizActionResult(true, CreatedMessage(run.added), Some(quizId), None);
      case Rejected(status, body) =>
        result := QuizActionResult(false, AdditionFailedMessage(run.added + 1, status, body),
                                   Some(quizId), Some(QuestionAdditionFailed));
      case Raised(e) =>
        result := Unexpected(e);
    }
    return Outcome(result, [create] + run.calls);
  }
}
