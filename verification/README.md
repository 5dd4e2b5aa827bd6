# Quiz creation against a Canvas-style LMS, modelled in Dafny

The repository's one piece of logic is the `createQuiz` server action. It receives a form with
an API token, a course id, a quiz title and a JSON list of questions. It then creates a quiz
through the LMS REST API and adds the questions to it one at a time. It returns a
`QuizActionResult`: `success`, a `message`, an optional `quizId` and an optional `error` code.

This project models that action as a deterministic function
`QuizAction.CreateQuiz(form, oracle)`. It returns the result together with the trace of remote
requests issued, in order. Nothing outside the action is modelled; it is supplied by an
oracle with three parts:

- `parse: string -> Decoded` stands for `JSON.parse`. It yields `ParseError`, `NotArray` or
  `Arr(items)`. It is applied to the submitted questions text, so the presence check and the
  decoding always see the same text.
- `create: CreateReply` is the reply to the quiz-creation request: `CreateOk(id)`,
  `CreateFail(status, body)` (a response whose `ok` is false) or `CreateThrow(thrown)`.
- `add: nat -> AddReply` is the reply to the n-th add-question request (0-based): `AddOk`,
  `AddFail(status, body)` or `AddThrow(thrown)`. It is a total function, so a run never runs
  out of replies.

The modules follow the action's structure:

- `QuizTypes` (`quiz_types.dfy`) holds the form, the decoded questions, the oracle, the request
  records and the result. Form entries are `Option<string>`, and `Present` is JavaScript
  truthiness of an entry. Messages are kept as a datatype that records the values the text embeds:
  status, response body, question number and question count.
- `QuizAction` (`quiz_action.dfy`) holds `CreateQuiz` and the question loop `AddFrom`.
- `QuizRunner` (`quiz_runner.dfy`) holds `RunCreateQuiz` and its loop `AddQuestions`. They are
  written the way the source runs: early returns, a loop with its own `questionsAdded` counter,
  and returns from inside the loop. They are proved equal to `CreateQuiz` and `AddFrom` on
  every input.
- `QuizProperties` (`quiz_properties.dfy`) holds the caller-facing promises. Most are stated in
  both directions.
- `QuizScenarios` (`quiz_scenarios.dfy`) holds two concrete runs: a two-question quiz that
  succeeds, and the same quiz with the second question rejected with status 422.

A question is `NullQuestion` or `QuestionValue(json)`. After each successful add-question
request, the source logs `question.question_name`. For a JSON `null` element that read throws a
`TypeError`. The outer `catch` turns it into `UNEXPECTED_ERROR`, even though the quiz exists
and the question was added. The model keeps this behaviour; see `NullQuestionUnexpected`.

Some behaviour of the action that a caller might not expect:

- Exceptions are reported as a bare `UNEXPECTED_ERROR`. The result carries neither the stage
  nor the quiz id, even when the quiz was already created.
- A failed question is reported only through the message. The message names the 1-based
  question number `questionsAdded + 1`; there is no 0-based index field.
- The action does not check that a successful creation response contains an `id`.
- Validation failures use three codes: `MISSING_FIELDS`, `JSON_PARSE_ERROR` and
  `INVALID_QUESTIONS_FORMAT`.

## Model

| member | source | states |
|---|---|---|
| QuizAction.CreateQuiz | src/actions/quiz.ts:10-126 | `success` holds exactly when there is no error code. A quiz id is reported only on success or on `QUESTION_ADDITION_FAILED`, and always on the latter. The trace is empty exactly when the error is one of the three validation codes. A non-empty trace starts with the creation request for the submitted course, token and settings. Every later entry is an add-question request for the created id and the matching input question, and there are at most as many as there are questions. |
| QuizAction.AddFrom | src/actions/quiz.ts:84-111 | The loop issues one request per question, in input order, each for the created quiz. Every request before the last one succeeded, and its question was not `null`. It finishes only when every question proceeded, with the counter equal to the number of questions. A rejection stops it with the counter equal to the failing position. An exception stops it either from the request or from logging a `null` question that was just added. |
| QuizRunner.AddQuestions | src/actions/quiz.ts:84-111 | The imperative question loop keeps its `questionsAdded` counter beside its array position and returns from inside the loop. It returns the same counter, stop reason and requests as `AddFrom`. |
| QuizRunner.RunCreateQuiz | src/actions/quiz.ts:10-126 | The imperative action, with its early returns, its separate `questionsAdded` counter and its returns from inside the loop, returns the same result and trace as `CreateQuiz` on every input. |
| QuizProperties.LoopHaltsAt | src/actions/quiz.ts:86-107 | If questions before position k proceed and question k does not, the loop issues exactly k + 1 requests. It does not finish, and a rejection leaves the counter at k. |
| QuizProperties.LoopFinishes | src/actions/quiz.ts:86-111 | If every remaining question proceeds, the loop finishes. |
| QuizProperties.MissingFieldsFirst | src/actions/quiz.ts:13-24 | The error is `MISSING_FIELDS` exactly when one of the four entries is absent or empty. The result then has `success` false, no quiz id and an empty trace. |
| QuizProperties.MissingFieldsIgnoresOracle | src/actions/quiz.ts:18-24 | With a missing entry the outcome does not depend on the decoder or the remote service. The presence check comes before every other check. |
| QuizProperties.ParseErrorBeforeRemote | src/actions/quiz.ts:28-47 | The error is `JSON_PARSE_ERROR` exactly when all entries are present and the questions text does not decode. No request is issued. |
| QuizProperties.InvalidFormatBeforeRemote | src/actions/quiz.ts:33-39 | The error is `INVALID_QUESTIONS_FORMAT` exactly when all entries are present and the text decodes to a non-array or to an empty array. No request is issued. |
| QuizProperties.CreationRequestFirst | src/actions/quiz.ts:50-69 | After validation, the first request creates the quiz for the submitted course and token. It sends `description` equal to the title, `published` false and `allowed_attempts` 10. Every later request adds a question. |
| QuizProperties.CreationFailureStops | src/actions/quiz.ts:71-78 | The error is `QUIZ_CREATION_FAILED` exactly when validation passes and the creation response is not ok. The result then has no quiz id and carries the status and body. The trace has exactly one request. |
| QuizProperties.AddRequestsFollowInput | src/actions/quiz.ts:80-97 | Each add-question request targets the created quiz id, in input order, and wraps exactly one input question under `question`. There are at most as many requests as questions. |
| QuizProperties.PartialFailureReported | src/actions/quiz.ts:85-107 | Suppose questions 0..k-1 proceed and response k is not ok. Then exactly k + 1 add-question requests are issued, and the error is `QUESTION_ADDITION_FAILED` with the created quiz id. The message names question k + 1 with the status and body. |
| QuizProperties.AdditionFailureExplained | src/actions/quiz.ts:85-107 | Conversely, every `QUESTION_ADDITION_FAILED` result comes from such a run, with k read off the trace length. |
| QuizProperties.AllQuestionsAdded | src/actions/quiz.ts:109-117 | If every question proceeds, the result is a success with the created quiz id and no error code. The count equals the number of questions, and there is one request per question. |
| QuizProperties.SuccessExplained | src/actions/quiz.ts:84-117 | Conversely, success means validation passed, creation succeeded and every question proceeded. The message then counts them all. |
| QuizTypes.ErrorNamesDistinct | src/actions/quiz.ts:18-124 | The six error codes are written as six different strings (`MISSING_FIELDS`, `INVALID_QUESTIONS_FORMAT`, `JSON_PARSE_ERROR`, `QUIZ_CREATION_FAILED`, `QUESTION_ADDITION_FAILED`, `UNEXPECTED_ERROR`), so the `error` field alone tells the failure paths apart. |
| QuizProperties.CreationThrowUnexpected | src/actions/quiz.ts:59-124 | An exception in the creation step gives `UNEXPECTED_ERROR` with no quiz id, after one request. The message carries the exception's own message, or "Unknown error" for a value that is not an `Error`. |
| QuizProperties.AdditionThrowUnexpected | src/actions/quiz.ts:84-124 | An exception from add-question request k gives `UNEXPECTED_ERROR` after k + 1 requests. The message carries the exception's detail as in the creation step. The created quiz id is not reported. |
| QuizProperties.NullQuestionUnexpected | src/actions/quiz.ts:109-124 | A `null` question k is added, and then logging its name throws. The run ends with `UNEXPECTED_ERROR`, the `TypeError` message and no quiz id, after k + 1 requests. |
| QuizProperties.UnexpectedExplained | src/actions/quiz.ts:28-124 | Conversely, `UNEXPECTED_ERROR` after validation comes from a thrown creation request, or from a thrown add-question request or a `null` question where the loop stopped. |
| QuizScenarios.TwoQuestionsAccepted | src/actions/quiz.ts:10-126 | Token "tok", course "101", title "Midterm", two questions, quiz id 55 and every request ok. The result is a success for quiz 55 with two questions, and the exact three-request trace. |
| QuizScenarios.SecondQuestionRejected | src/actions/quiz.ts:10-126 | The same run with the second question rejected (422, "invalid answer format"). The result is `QUESTION_ADDITION_FAILED` for quiz 55, naming question 2 with that status and body, after three requests. |

## Left out

- HTTP: `fetch`, the request headers, the bearer-token formatting and the fixed base URL.
  A request is modelled as its record in the trace (course id, token, quiz id, body), and its
  response as an oracle reply.
- JSON: `JSON.parse`, `JSON.stringify`, `response.json()` and `response.text()`. Decoding is the
  oracle's `parse`. An exception while reading a response body is folded into the `Throw`
  reply of that request.
- A successful creation response without an `id` is not modelled. The action does not check for
  one; `CreateOk` always carries an id.
- Form entries that are files rather than text are not modelled; every entry is `Option<string>`.
- `console.log` and `console.error` are not modelled. The one exception is the `question_name`
  read of a `null` question, because it changes the result.
- The exact message wording is not modelled. Messages keep only the status, body, question
  number, question count and exception detail they embed.
- `NullReadMessage` is the V8 wording of the `TypeError`. Other JavaScript engines word it
  differently.
- `src/app/api/create-quiz/route.ts` is not part of this model. It interleaves two drafts of the
  same workflow and is not valid TypeScript.
- `src/components/CreateQuizForm.tsx` and `src/app/page.tsx` are not part of this model. They
  hold only UI state and rendering.
- Non-idempotence across submissions (each submission creates a new quiz) concerns the remote
  service's state and is not modelled. Within one run, `CreateQuiz` issues at most one creation
  request.
