/**
 The `createQuiz` server action as a pure function of the submitted form and of an
 oracle standing for the JSON decoder and the remote quiz service. It returns the
 action's result together with the trace of remote calls it issued.
 */
module QuizAction {
  import opened QuizTypes

  /** The presence check that opens the action: all four entries truthy. */
  predicate AllPresent(form: Form) {
    Present(form.apiToken) && Present(form.courseId)
      && Present(form.quizTitle) && Present(form.questions)
  }

  /** The quiz settings sent for a given title. */
  function Settings(title: string): QuizSettings {
    QuizSettings(title, title, false, AllowedAttempts)
  }

  function Failed(message: Message, code: ErrorCode): QuizActionResult {
    QuizActionResult(false, message, None, Some(code))
  }

  /** The result of the outer `catch`. */
  function Unexpected(thrown: Thrown): QuizActionResult {
    var detail := match thrown
      case ErrorObject(m) => m
      case NonErrorValue => UnknownError;
    Failed(UnexpectedMessage(detail), UnexpectedError)
  }

  /** The add-question request for one question of a created quiz. */
  function AddCall(courseId: string, token: string, quizId: int, q: Question): Call {
    AddQuestionCall(courseId, token, quizId, QuestionBody(q))
  }

  /** True when the loop moves past question j: the request succeeded and logging
      the question's name does not throw. */
  predicate Proceeds(add: nat -> AddReply, qs: seq<Question>, j: nat)
    requires j < |qs|
  {
    add(j) == AddOk && qs[j] != NullQuestion
  }

  /** How the question loop ended. */
  datatype Stop =
    | Finished                          // every question was added
    | Rejected(status: int, body: string) // a response was not ok
    | Raised(thrown: Thrown)              // an exception escaped the loop body

  /** The loop's end state: the `questionsAdded` counter, how it ended, and the
      add-question requests it issued. */
  datatype LoopRun = LoopRun(added: nat, stop: Stop, calls: seq<Call>)

  /** The question loop from position i on, for a quiz already created with id quizId. */
  function AddFrom(courseId: string, token: string, quizId: int, qs: seq<Question>,
                   add: nat -> AddReply, i: nat): (run: LoopRun)
    requires i <= |qs|
    ensures i <= run.added <= |qs|
    ensures |run.calls| <= |qs| - i
    ensures forall j :: 0 <= j < |run.calls| ==>
              run.calls[j] == AddCall(courseId, token, quizId, qs[i + j])
    ensures forall j :: i <= j < i + |run.calls| - 1 ==> Proceeds(add, qs, j)
    ensures run.stop.Finished? ==> run.added == |qs| && |run.calls| == |qs| - i
    ensures run.stop.Finished? ==> forall j :: i <= j < |qs| ==> Proceeds(add, qs, j)
    ensures !run.stop.Finished? ==> |run.calls| >= 1
    ensures run.stop.Rejected? ==>
              run.added == i + |run.calls| - 1
              && add(run.added) == AddFail(run.stop.status, run.stop.body)
    ensures run.stop.Raised? ==>
              var last := i + |run.calls| - 1;
              || (run.added == last && add(last) == AddThrow(run.stop.thrown))
              || (run.added == last + 1 && add(last) == AddOk && qs[last] == NullQuestion
                  && run.stop.thrown == ErrorObject(NullReadMessage))
    decreases |qs| - i
  {
    if i == |qs| then
      LoopRun(i, Finished, [])
    else
      var call := AddCall(courseId, token, quizId, qs[i]);
      match add(i)
      case AddThrow(e) => LoopRun(i, Raised(e), [call])
      case AddFail(status, body) => LoopRun(i, Rejected(status, body), [call])
      case AddOk =>
        if qs[i] == NullQuestion then
          LoopRun(i + 1, Raised(ErrorObject(NullReadMessage)), [call])
        else
          var rest := AddFrom(courseId, token, quizId, qs, add, i + 1);
          LoopRun(rest.added, rest.stop, [call] + rest.calls)
  }

  /** True for the three codes of the checks made before any remote call. */
  predicate IsValidationError(code: Option<ErrorCode>) {
    code == Some(MissingFields) || code == Some(JsonParseError)
      || code == Some(InvalidQuestionsFormat)
  }

  /** The whole action. */
  function CreateQuiz(form: Form, oracle: Oracle): (o: Outcome)
    ensures o.result.success <==> o.result.error == None
    ensures o.result.quizId.Some? ==>
              o.result.success || o.result.error == Some(QuestionAdditionFailed)
    ensures o.result.error == Some(QuestionAdditionFailed) ==> o.result.quizId.Some?
    ensures o.trace == [] <==> IsValidationError(o.result.error)
    ensures o.trace != [] ==>
              && AllPresent(form)
              && o.trace[0] == CreateQuizCall(form.courseId.value, form.apiToken.value,
                                              QuizBody(Settings(form.quizTitle.value)))
    ensures |o.trace| > 1 ==>
              && oracle.create.CreateOk?
              && oracle.parse(form.questions.value).Arr?
              && |o.trace| - 1 <= |oracle.parse(form.questions.value).items|
              && forall j :: 1 <= j < |o.trace| ==>
                   o.trace[j] == AddCall(form.courseId.value, form.apiToken.value, oracle.create.id,
                                         oracle.parse(form.questions.value).items[j - 1])
  {
    if !AllPresent(form) then
      Outcome(Failed(MissingFieldsMessage, MissingFields), [])
    else
      var token, courseId, title := form.apiToken.value, form.courseId.value, form.quizTitle.value;
      match oracle.parse(form.questions.value)
      case ParseError => Outcome(Failed(InvalidJsonMessage, JsonParseError), [])
      case NotArray => Outcome(Failed(InvalidFormatMessage, InvalidQuestionsFormat), [])
      case Arr(items) =>
        if |items| == 0 then
          Outcome(Failed(InvalidFormatMessage, InvalidQuestionsFormat), [])
        else
          var create := CreateQuizCall(courseId, token, QuizBody(Settings(title)));
          match oracle.create
          case CreateThrow(e) => Outcome(Unexpected(e), [create])
          case CreateFail(status, body) =>
            Outcome(Failed(CreationFailedMessage(status, body), QuizCreationFailed), [create])
          case CreateOk(id) =>
            var run := AddFrom(courseId, token, id, items, oracle.add, 0);
            var result := match run.stop
              case Finished =>
                QuizActionResult(true, CreatedMessage(run.added), Some(id), None)
              case Rejected(status, body) =>
                QuizActionResult(false, AdditionFailedMessage(run.added + 1, status, body),
                                 Some(id), Some(QuestionAdditionFailed))
              case Raised(e) => Unexpected(e);
            Outcome(result, [create] + run.calls)
  }
}
