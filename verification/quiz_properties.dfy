/**
 What `createQuiz` promises its caller, stated over `QuizAction.CreateQuiz`: which
 checks come before any remote call, what the creation request carries, how many
 add-question requests are issued and for which quiz, and how each kind of failure
 is reported.
 */
module QuizProperties {
  import opened QuizTypes
  import opened QuizAction

  /** The form passes all three checks made before any remote call. */
  predicate Validates(form: Form, oracle: Oracle) {
    && AllPresent(form)
    && oracle.parse(form.questions.value).Arr?
    && |oracle.parse(form.questions.value).items| > 0
  }

  /** The decoded questions of a form that validates. */
  function Items(form: Form, oracle: Oracle): seq<Question>
    requires Validates(form, oracle)
  {
    oracle.parse(form.questions.value).items
  }

  /** The question loop stops at position k: every earlier question proceeded and
      question k did not. Then exactly k + 1 add-question requests were issued. */
  lemma {:induction false} LoopHaltsAt(courseId: string, token: string, quizId: int,
                                       qs: seq<Question>, add: nat -> AddReply, i: nat, k: nat)
    requires i <= k < |qs|
    requires forall j :: i <= j < k ==> Proceeds(add, qs, j)
    requires !Proceeds(add, qs, k)
    ensures var run := AddFrom(courseId, token, quizId, qs, add, i);
            && |run.calls| == k - i + 1
            && !run.stop.Finished?
            && (run.stop.Rejected? ==> run.added == k)
    decreases k - i
  {
    if i < k {
      assert Proceeds(add, qs, i);
      LoopHaltsAt(courseId, token, quizId, qs, add, i + 1, k);
    }
  }

  /** Every question from position i on proceeds: the loop runs to the end. */
  lemma {:induction false} LoopFinishes(courseId: string, token: string, quizId: int,
                                        qs: seq<Question>, add: nat -> AddReply, i: nat)
    requires i <= |qs|
    requires forall j :: i <= j < |qs| ==> Proceeds(add, qs, j)
    ensures AddFrom(courseId, token, quizId, qs, add, i).stop.Finished?
    decreases |qs| - i
  {
    if i < |qs| {
      assert Proceeds(add, qs, i);
      LoopFinishes(courseId, token, quizId, qs, add, i + 1);
    }
  }

  /** The presence check decides MISSING_FIELDS on its own, and no remote call
      follows it. */
  lemma MissingFieldsFirst(form: Form, oracle: Oracle)
    ensures CreateQuiz(form, oracle).result.error == Some(MissingFields) <==> !AllPresent(form)
    ensures !AllPresent(form) ==>
              var o := CreateQuiz(form, oracle);
              !o.result.success && o.result.quizId == None && o.trace == []
  {
  }

  /** When a field is missing, neither the questions text nor the remote service
      has any influence on the outcome. */
  lemma MissingFieldsIgnoresOracle(form: Form, a: Oracle, b: Oracle)
    requires !AllPresent(form)
    ensures CreateQuiz(form, a) == CreateQuiz(form, b)
  {
  }

  /** JSON_PARSE_ERROR exactly when the fields are present and the questions text does
      not decode; no remote call is issued. */
  lemma ParseErrorBeforeRemote(form: Form, oracle: Oracle)
    ensures CreateQuiz(form, oracle).result.error == Some(JsonParseError) <==>
              AllPresent(form) && oracle.parse(form.questions.value) == ParseError
    ensures CreateQuiz(form, oracle).result.error == Some(JsonParseError) ==>
              CreateQuiz(form, oracle).trace == []
  {
  }

  /** INVALID_QUESTIONS_FORMAT exactly when the fields are present and the questions
      decode to something other than a non-empty array; no remote call is issued. */
  lemma InvalidFormatBeforeRemote(form: Form, oracle: Oracle)
    ensures CreateQuiz(form, oracle).result.error == Some(InvalidQuestionsFormat) <==>
              && AllPresent(form)
              && (|| oracle.parse(form.questions.value) == NotArray
                  || oracle.parse(form.questions.value) == Arr([]))
    ensures CreateQuiz(form, oracle).result.error == Some(InvalidQuestionsFormat) ==>
              CreateQuiz(form, oracle).trace == []
  {
  }

  /** A validated form always leads to the creation request first, for the submitted
      course and token, with the title repeated as description, unpublished and
      with ten allowed attempts; it is the only creation request of the run. */
  lemma CreationRequestFirst(form: Form, oracle: Oracle)
    requires Validates(form, oracle)
    ensures var o := CreateQuiz(form, oracle);
            && |o.trace| >= 1
            && o.trace[0].CreateQuizCall?
            && o.trace[0].courseId == form.courseId.value
            && o.trace[0].token == form.apiToken.value
            && o.trace[0].body.quiz.title == form.quizTitle.value
            && o.trace[0].body.quiz.description == form.quizTitle.value
            && !o.trace[0].body.quiz.published
            && o.trace[0].body.quiz.allowedAttempts == 10
            && forall j :: 1 <= j < |o.trace| ==> o.trace[j].AddQuestionCall?
  {
  }

  /** QUIZ_CREATION_FAILED exactly when the creation response is not ok; the result
      then has no quiz id, reports the status and body, and no question is attempted. */
  lemma CreationFailureStops(form: Form, oracle: Oracle)
    ensures CreateQuiz(form, oracle).result.error == Some(QuizCreationFailed) <==>
              Validates(form, oracle) && oracle.create.CreateFail?
    ensures CreateQuiz(form, oracle).result.error == Some(QuizCreationFailed) ==>
              var o := CreateQuiz(form, oracle);
              && o.result.quizId == None
              && o.result.message == CreationFailedMessage(oracle.create.status, oracle.create.body)
              && |o.trace| == 1
  {
  }

  /** Every add-question request goes to the created quiz, in input order, each
      wrapping one input question under the `question` key. */
  lemma AddRequestsFollowInput(form: Form, oracle: Oracle)
    requires Validates(form, oracle) && oracle.create.CreateOk?
    ensures var o := CreateQuiz(form, oracle);
            && |o.trace| - 1 <= |Items(form, oracle)|
            && forall j :: 1 <= j < |o.trace| ==>
                 && o.trace[j].AddQuestionCall?
                 && o.trace[j].courseId == form.courseId.value
                 && o.trace[j].token == form.apiToken.value
                 && o.trace[j].quizId == oracle.create.id
                 && o.trace[j].payload.question == Items(form, oracle)[j - 1]
  {
  }

  /** Questions 0..k-1 are added and the response for question k is not ok: exactly
      k + 1 add-question requests, QUESTION_ADDITION_FAILED with the created quiz id,
      and the message names question k + 1 with the remote status and body. */
  lemma PartialFailureReported(form: Form, oracle: Oracle, k: nat)
    requires Validates(form, oracle) && oracle.create.CreateOk?
    requires k < |Items(form, oracle)|
    requires forall j :: 0 <= j < k ==> Proceeds(oracle.add, Items(form, oracle), j)
    requires oracle.add(k).AddFail?
    ensures var o := CreateQuiz(form, oracle);
            && |o.trace| == k + 2
            && !o.result.success
            && o.result.error == Some(QuestionAdditionFailed)
            && o.result.quizId == Some(oracle.create.id)
            && o.result.message == AdditionFailedMessage(k + 1, oracle.add(k).status, oracle.add(k).body)
  {
    var items := Items(form, oracle);
    LoopHaltsAt(form.courseId.value, form.apiToken.value, oracle.create.id, items, oracle.add, 0, k);
  }

  /** Conversely, a QUESTION_ADDITION_FAILED result always comes from such a run:
      with k + 1 add-question requests, all before the last proceeded and the last
      response was not ok. */
  lemma AdditionFailureExplained(form: Form, oracle: Oracle)
    requires CreateQuiz(form, oracle).result.error == Some(QuestionAdditionFailed)
    ensures Validates(form, oracle) && oracle.create.CreateOk?
    ensures var o := CreateQuiz(form, oracle);
            var k := |o.trace| - 2;
            && 0 <= k < |Items(form, oracle)|
            && (forall j :: 0 <= j < k ==> Proceeds(oracle.add, Items(form, oracle), j))
            && oracle.add(k).AddFail?
            && o.result.quizId == Some(oracle.create.id)
            && o.result.message == AdditionFailedMessage(k + 1, oracle.add(k).status, oracle.add(k).body)
  {
  }

  /** Every question added: success with the created quiz id, no error code, a
      count equal to the number of questions, and one request per question. */
  lemma AllQuestionsAdded(form: Form, oracle: Oracle)
    requires Validates(form, oracle) && oracle.create.CreateOk?
    requires forall j :: 0 <= j < |Items(form, oracle)| ==> Proceeds(oracle.add, Items(form, oracle), j)
    ensures var o := CreateQuiz(form, oracle);
            && o.result.success
            && o.result.error == None
            && o.result.quizId == Some(oracle.create.id)
            && o.result.message == CreatedMessage(|Items(form, oracle)|)
            && |o.trace| == |Items(form, oracle)| + 1
  {
    LoopFinishes(form.courseId.value, form.apiToken.value, oracle.create.id, Items(form, oracle), oracle.add, 0);
  }

  /** Conversely, success means every question proceeded and all were counted. */
  lemma SuccessExplained(form: Form, oracle: Oracle)
    requires CreateQuiz(form, oracle).result.success
    ensures Validates(form, oracle) && oracle.create.CreateOk?
    ensures forall j :: 0 <= j < |Items(form, oracle)| ==> Proceeds(oracle.add, Items(form, oracle), j)
    ensures CreateQuiz(form, oracle).result.message == CreatedMessage(|Items(form, oracle)|)
    ensures CreateQuiz(form, oracle).result.quizId == Some(oracle.create.id)
  {
  }

  /** An exception while creating the quiz is reported as UNEXPECTED_ERROR, without
      a quiz id, after the one creation request; the message carries the exception's
      own message, or "Unknown error" for a value that is not an `Error`. */
  lemma CreationThrowUnexpected(form: Form, oracle: Oracle)
    requires Validates(form, oracle) && oracle.create.CreateThrow?
    ensures var o := CreateQuiz(form, oracle);
            && o.result.error == Some(UnexpectedError)
            && o.result.quizId == None
            && |o.trace| == 1
    ensures var o := CreateQuiz(form, oracle);
            && (oracle.create.thrown.ErrorObject? ==>
                  o.result.message == UnexpectedMessage(oracle.create.thrown.message))
            && (oracle.create.thrown.NonErrorValue? ==>
                  o.result.message == UnexpectedMessage(UnknownError))
  {
  }

  /** An exception from add-question request k, after k questions were added, is
      reported as UNEXPECTED_ERROR after k + 1 requests, with the exception's detail as
      for the creation step, and the created quiz's id is not reported although the
      quiz exists. */
  lemma AdditionThrowUnexpected(form: Form, oracle: Oracle, k: nat)
    requires Validates(form, oracle) && oracle.create.CreateOk?
    requires k < |Items(form, oracle)|
    requires forall j :: 0 <= j < k ==> Proceeds(oracle.add, Items(form, oracle), j)
    requires oracle.add(k).AddThrow?
    ensures var o := CreateQuiz(form, oracle);
            && o.result.error == Some(UnexpectedError)
            && o.result.quizId == None
            && |o.trace| == k + 2
    ensures var o := CreateQuiz(form, oracle);
            && (oracle.add(k).thrown.ErrorObject? ==>
                  o.result.message == UnexpectedMessage(oracle.add(k).thrown.message))
            && (oracle.add(k).thrown.NonErrorValue? ==>
                  o.result.message == UnexpectedMessage(UnknownError))
  {
    var items := Items(form, oracle);
    LoopHaltsAt(form.courseId.value, form.apiToken.value, oracle.create.id, items, oracle.add, 0, k);
  }

  /** A `null` question k is sent and accepted, and logging its name then throws:
      the run ends with UNEXPECTED_ERROR after k + 1 add-question requests, and the
      result mentions neither the quiz id nor the questions already added. */
  lemma NullQuestionUnexpected(form: Form, oracle: Oracle, k: nat)
    requires Validates(form, oracle) && oracle.create.CreateOk?
    requires k < |Items(form, oracle)|
    requires forall j :: 0 <= j < k ==> Proceeds(oracle.add, Items(form, oracle), j)
    requires oracle.add(k) == AddOk && Items(form, oracle)[k] == NullQuestion
    ensures var o := CreateQuiz(form, oracle);
            && o.result.error == Some(UnexpectedError)
            && o.result.message == UnexpectedMessage(NullReadMessage)
            && o.result.quizId == None
            && |o.trace| == k + 2
  {
    var items := Items(form, oracle);
    LoopHaltsAt(form.courseId.value, form.apiToken.value, oracle.create.id, items, oracle.add, 0, k);
  }

  /** Conversely, UNEXPECTED_ERROR comes from a thrown creation request, a thrown
      add-question request, or a `null` question reached by the loop. */
  lemma UnexpectedExplained(form: Form, oracle: Oracle)
    requires CreateQuiz(form, oracle).result.error == Some(UnexpectedError)
    ensures Validates(form, oracle)
    ensures || oracle.create.CreateThrow?
            || (&& oracle.create.CreateOk?
                && var k := |CreateQuiz(form, oracle).trace| - 2;
                && 0 <= k < |Items(form, oracle)|
                && (forall j :: 0 <= j < k ==> Proceeds(oracle.add, Items(form, oracle), j))
                && (oracle.add(k).AddThrow? || Items(form, oracle)[k] == NullQuestion))
  {
  }
}
