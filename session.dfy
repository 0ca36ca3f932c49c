/** The test page: the participant's answers, navigation between questions and submission. */
module Session {
  import opened Api

  datatype Question = Question(
    id: string,
    scenario: string,
    prompt: string,
    optionA: string,
    optionB: string,
    optionC: string,
    optionD: string,
    optionE: string,
    correctAnswer: string,
    imageUrl: Option<string>,
    subtopicId: string,
    competence: string)

  /** One answer slot: the chosen option letter and confidence; "" means unset. */
  datatype Answer = Answer(answer: string, confidence: string)

  const Blank := Answer("", "")

  predicate IsComplete(a: Answer) { a.answer != "" && a.confidence != "" }

  /** A slot is partial when exactly one of its two fields is set. */
  function IsPartial(a: Answer): (partial: bool)
    ensures partial <==> ((a.answer == "") != (a.confidence == ""))
    ensures a == Blank ==> !partial
    ensures IsComplete(a) ==> !partial
  {
    (a.answer != "" && a.confidence == "") || (a.answer == "" && a.confidence != "")
  }

  /** The slots still missing an answer or a confidence, in order. */
  function Unanswered(answers: seq<Answer>): (r: seq<Answer>)
    ensures |r| <= |answers|
    ensures forall a :: a in r ==> a in answers && !IsComplete(a)
    ensures |r| == 0 <==> forall i :: 0 <= i < |answers| ==> IsComplete(answers[i])
  {
    if answers == [] then []
    else (if IsComplete(answers[0]) then [] else [answers[0]]) + Unanswered(answers[1..])
  }

  /** The session answer carried by an entry of the submission payload. */
  function AnswerOf(e: SubmittedAnswer): Answer { Answer(e.answer, e.confidence) }

  /** The answers zipped with their questions, index by index, for the submit-test route. */
  function Payload(answers: seq<Answer>, questions: seq<Question>): (r: seq<SubmittedAnswer>)
    requires |answers| <= |questions|
    ensures |r| == |answers|
    ensures forall i :: 0 <= i < |r| ==>
      && AnswerOf(r[i]) == answers[i]
      && r[i].questionId == questions[i].id
      && r[i].correctAnswer == questions[i].correctAnswer
      && r[i].subtopicId == questions[i].subtopicId
      && r[i].competence == questions[i].competence
  {
    seq(|answers|, i requires 0 <= i < |answers| =>
      SubmittedAnswer(questions[i].id, answers[i].answer, answers[i].confidence,
                      questions[i].correctAnswer, questions[i].subtopicId, questions[i].competence))
  }

  const Gray := "bg-gray-300"

  /** The colour of a slot's marker: one per confidence level, gray otherwise. */
  function ConfidenceColor(confidence: string): (color: string)
    ensures color == Gray <==> ParseLevel(confidence).None?
    ensures ParseLevel(confidence) == Some(VeryConfident) ==> color == "bg-green-500"
    ensures ParseLevel(confidence) == Some(Unsure) ==> color == "bg-yellow-500"
    ensures ParseLevel(confidence) == Some(DontKnow) ==> color == "bg-red-500"
  {
    match confidence
    case "very-confident" => "bg-green-500"
    case "unsure" => "bg-yellow-500"
    case "dont-know" => "bg-red-500"
    case _ => Gray
  }

  /** Distinct levels get distinct markers. */
  lemma ColorsDistinguishLevels(l1: Level, l2: Level)
    requires ConfidenceColor(LevelName(l1)) == ConfidenceColor(LevelName(l2))
    ensures l1 == l2
  {
    ParseLevelName(l1);
    ParseLevelName(l2);
  }

  /** A freshly loaded, non-empty session has no partial slot and needs confirmation to submit. */
  lemma {:induction false} FreshSessionState(answers: seq<Answer>)
    requires |answers| > 0
    requires forall i :: 0 <= i < |answers| ==> answers[i] == Blank
    ensures forall i :: 0 <= i < |answers| ==> !IsPartial(answers[i])
    ensures |Unanswered(answers)| > 0
  {
    assert !IsComplete(answers[0]);
  }

  /** The state of the test page component. */
  class Controller {
    var questions: seq<Question>
    var answers: seq<Answer>
    var current: nat
    var showSubmitModal: bool
    var showWarningModal: bool
    var isSubmitting: bool

    /** Answers are index-aligned with questions and the current index points at a question once loaded. */
    ghost predicate Valid()
      reads this
    {
      && |answers| == |questions|
      && (if |questions| == 0 then current == 0 else current < |questions|)
    }

    /** The page shows "Loading..." (and no controls) while there are no questions. */
    predicate Loaded()
      reads this
    {
      |questions| > 0
    }

    constructor ()
      ensures Valid() && !Loaded()
      ensures questions == [] && answers == [] && current == 0
      ensures !showSubmitModal && !showWarningModal && !isSubmitting
    {
      questions, answers, current := [], [], 0;
      showSubmitModal, showWarningModal, isSubmitting := false, false, false;
    }

    /** The question fetch: on success one blank slot per question; on failure nothing changes. */
    method Load(fetched: Option<seq<Question>>)
      requires Valid() && !Loaded()
      modifies this`questions, this`answers
      ensures Valid()
      ensures fetched.None? ==> questions == old(questions) && answers == old(answers)
      ensures fetched.Some? ==> questions == fetched.value
      ensures fetched.Some? ==> |answers| == |questions| && forall i :: 0 <= i < |answers| ==> answers[i] == Blank
    {
      if fetched.Some? {
        questions := fetched.value;
        answers := seq(|fetched.value|, _ => Blank);
      }
    }

    /** Sets the option of the current slot; its confidence and every other slot are kept. */
    method SetAnswer(value: string)
      requires Valid() && Loaded()
      modifies this`answers
      ensures Valid()
      ensures |answers| == |old(answers)|
      ensures answers[current] == Answer(value, old(answers[current].confidence))
      ensures forall i :: 0 <= i < |answers| && i != current ==> answers[i] == old(answers[i])
    {
      answers := answers[current := answers[current].(answer := value)];
    }

    /** Sets the confidence of the current slot; its option and every other slot are kept. */
    method SetConfidence(value: string)
      requires Valid() && Loaded()
      modifies this`answers
      ensures Valid()
      ensures |answers| == |old(answers)|
      ensures answers[current] == Answer(old(answers[current].answer), value)
      ensures forall i :: 0 <= i < |answers| && i != current ==> answers[i] == old(answers[i])
    {
      answers := answers[current := answers[current].(confidence := value)];
    }

    /** Whether slot i is partial. */
    function IsPartiallyAnswered(i: nat): (partial: bool)
      requires i < |answers|
      reads this
      ensures partial <==> ((answers[i].answer == "") != (answers[i].confidence == ""))
    {
      IsPartial(answers[i])
    }

    /** Moves to target unless the current slot is partial, in which case the warning is raised. */
    method TryNavigate(target: nat)
      requires Valid() && Loaded() && target < |questions|
      modifies this`current, this`showWarningModal
      ensures Valid()
      ensures IsPartial(answers[old(current)]) ==> current == old(current) && showWarningModal
      ensures !IsPartial(answers[old(current)]) ==>
        current == target && showWarningModal == old(showWarningModal)
    {
      if IsPartiallyAnswered(current) {
        showWarningModal := true;
      } else {
        current := target;
      }
    }

    /** Next: a no-op on the last question. */
    method NextQuestion()
      requires Valid() && Loaded()
      modifies this`current, this`showWarningModal
      ensures Valid()
      ensures old(current) == |questions| - 1 ==>
        current == old(current) && showWarningModal == old(showWarningModal)
      ensures old(current) < |questions| - 1 && IsPartial(answers[old(current)]) ==>
        current == old(current) && showWarningModal
      ensures old(current) < |questions| - 1 && !IsPartial(answers[old(current)]) ==>
        current == old(current) + 1 && showWarningModal == old(showWarningModal)
    {
      if current < |questions| - 1 {
        TryNavigate(current + 1);
      }
    }

    /** Previous: a no-op on the first question. */
    method PreviousQuestion()
      requires Valid() && Loaded()
      modifies this`current, this`showWarningModal
      ensures Valid()
      ensures old(current) == 0 ==>
        current == 0 && showWarningModal == old(showWarningModal)
      ensures old(current) > 0 && IsPartial(answers[old(current)]) ==>
        current == old(current) && showWarningModal
      ensures old(current) > 0 && !IsPartial(answers[old(current)]) ==>
        current == old(current) - 1 && showWarningModal == old(showWarningModal)
    {
      if current > 0 {
        TryNavigate(current - 1);
      }
    }

    /** Jump to a question picked from the selector or the grid of numbered buttons. */
    method GoToQuestion(index: nat)
      requires Valid() && Loaded() && index < |questions|
      modifies this`current, this`showWarningModal
      ensures Valid()
      ensures IsPartial(answers[old(current)]) ==> current == old(current) && showWarningModal
      ensures !IsPartial(answers[old(current)]) ==>
        current == index && showWarningModal == old(showWarningModal)
    {
      TryNavigate(index);
    }

    /** The warning dialog's OK button. */
    method DismissWarning()
      modifies this`showWarningModal
      ensures !showWarningModal
    {
      showWarningModal := false;
    }

    /**
     * Posts the session: the payload is built from the whole answer list; the page goes on to the
     * results exactly when the route answers ok, and either way the dialog closes.
     */
    method SubmitTest(userId: string, testCode: string, endTime: string, responseOk: bool)
      returns (sent: SubmitRequest, toResults: bool)
      requires Valid()
      modifies this`isSubmitting, this`showSubmitModal
      ensures Valid()
      ensures sent == SubmitRequest(userId, testCode, Payload(answers, questions), endTime)
      ensures toResults == responseOk
      ensures !isSubmitting && !showSubmitModal
    {
      isSubmitting := true;
      sent := SubmitRequest(userId, testCode, Payload(answers, questions), endTime);
      toResults := responseOk;
      isSubmitting := false;
      showSubmitModal := false;
    }

    /** The Submit button: asks for confirmation when some slot is incomplete, else submits at once. */
    method HandleSubmitTest(userId: string, testCode: string, endTime: string, responseOk: bool)
      returns (sent: Option<SubmitRequest>, toResults: bool)
      requires Valid()
      modifies this`isSubmitting, this`showSubmitModal
      ensures Valid()
      ensures (exists i :: 0 <= i < |answers| && !IsComplete(answers[i])) ==>
        sent == None && !toResults && showSubmitModal && isSubmitting == old(isSubmitting)
      ensures (forall i :: 0 <= i < |answers| ==> IsComplete(answers[i])) ==>
        && sent == Some(SubmitRequest(userId, testCode, Payload(answers, questions), endTime))
        && toResults == responseOk && !showSubmitModal && !isSubmitting
    {
      if |Unanswered(answers)| > 0 {
        showSubmitModal := true;
        sent, toResults := None, false;
      } else {
        var request;
        request, toResults := SubmitTest(userId, testCode, endTime, responseOk);
        sent := Some(request);
      }
    }

    /** The confirmation dialog's No button. */
    method CancelSubmit()
      modifies this`showSubmitModal
      ensures !showSubmitModal
    {
      showSubmitModal := false;
    }
  }
}
