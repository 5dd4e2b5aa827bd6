/**
 The values that flow through the quiz-creation server action: the submitted form,
 the decoded question list, the replies of the remote quiz service, the calls issued
 to it, and the `QuizActionResult` handed back to the form.
 */
module QuizTypes {

  datatype Option<+T> = None | Some(value: T)

  /** A form entry as `FormData.get` returns it: absent, or a text value. */
  type Field = Option<string>

  /** JavaScript truthiness of a form entry: present and not the empty string. */
  predicate Present(f: Field) {
    f.Some? && f.value != ""
  }

  /** The four entries the quiz form submits. */
  datatype Form = Form(
    apiToken: Field,
    courseId: Field,
    quizTitle: Field,
    questions: Field)

  /** One element of the decoded questions array. Its content is forwarded verbatim,
      so only the distinction that changes control flow is kept: reading a property
      of a JSON `null` throws, reading one of any other value does not. */
  datatype Question = NullQuestion | QuestionValue(json: string)

  /** What decoding the questions text yields. */
  datatype Decoded =
    | ParseError               // the text is not JSON
    | NotArray                 // valid JSON, but not an array
    | Arr(items: seq<Question>)

  /** A value caught by a `catch`: an `Error` instance (with its message) or anything else. */
  datatype Thrown = ErrorObject(message: string) | NonErrorValue

  /** The remote service's answer to the quiz-creation request. `CreateFail` is a
      response whose `ok` is false; `CreateThrow` is any exception raised while issuing
      the request or reading its body. */
  datatype CreateReply =
    | CreateOk(id: int)
    | CreateFail(status: int, body: string)
    | CreateThrow(thrown: Thrown)

  /** The remote service's answer to one add-question request. */
  datatype AddReply =
    | AddOk
    | AddFail(status: int, body: string)
    | AddThrow(thrown: Thrown)

  /** Everything outside the action: the JSON decoder, the reply to the creation
      request, and the reply to the n-th (0-based) add-question request. */
  datatype Oracle = Oracle(
    parse: string -> Decoded,
    create: CreateReply,
    add: nat -> AddReply)

  /** The `quiz` object of the creation request body. */
  datatype QuizSettings = QuizSettings(
    title: string,
    description: string,
    published: bool,
    allowedAttempts: int)

  /** Request bodies, one constructor field per JSON key: `{quiz: …}` and `{question: …}`. */
  datatype QuizBody = QuizBody(quiz: QuizSettings)
  datatype QuestionBody = QuestionBody(question: Question)

  /** A request issued to the remote service, with the path parameters and the
      credential it carries. */
  datatype Call =
    | CreateQuizCall(courseId: string, token: string, body: QuizBody)
    | AddQuestionCall(courseId: string, token: string, quizId: int, payload: QuestionBody)

  /** The `error` codes of `QuizActionResult`. */
  datatype ErrorCode =
    | MissingFields
    | InvalidQuestionsFormat
    | JsonParseError
    | QuizCreationFailed
    | QuestionAdditionFailed
    | UnexpectedError
  {
    /** The code as the action writes it into the result. */
    function Name(): string {
      match this
      case MissingFields => "MISSING_FIELDS"
      case InvalidQuestionsFormat => "INVALID_QUESTIONS_FORMAT"
      case JsonParseError => "JSON_PARSE_ERROR"
      case QuizCreationFailed => "QUIZ_CREATION_FAILED"
      case QuestionAdditionFailed => "QUESTION_ADDITION_FAILED"
      case UnexpectedError => "UNEXPECTED_ERROR"
    }
  }

  /** Different codes are written as different strings, so a caller can tell every
      failure path apart by the `error` field alone. */
  lemma ErrorNamesDistinct(a: ErrorCode, b: ErrorCode)
    ensures a != b ==> a.Name() != b.Name()
  {
  }

  /** The human-readable `message`, reduced to the values it embeds. */
  datatype Message =
    | MissingFieldsMessage
    | InvalidFormatMessage
    | InvalidJsonMessage
    | CreationFailedMessage(status: int, body: string)
    | AdditionFailedMessage(questionNumber: nat, status: int, body: string)
    | CreatedMessage(questionCount: nat)
    | UnexpectedMessage(detail: string)

  datatype QuizActionResult = QuizActionResult(
    success: bool,
    message: Message,
    quizId: Option<int>,
    error: Option<ErrorCode>)

  /** A run of the action: its result and the remote calls it issued, in order. */
  datatype Outcome = Outcome(result: QuizActionResult, trace: seq<Call>)

  /** Every quiz is created with this many allowed attempts. */
  const AllowedAttempts: int := 10

  /** The detail of a caught value that is not an `Error`. */
  const UnknownError: string := "Unknown error"

  /** The `TypeError` message for reading `question_name` of `null` (V8 wording). */
  const NullReadMessage: string := "Cannot read properties of null (reading 'question_name')"
}
