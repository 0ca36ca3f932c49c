/** Properties that span the test page and the routes it calls. */
module Flow {
  import opened Api
  import opened Session
  import opened SubmitTest
  import opened Results

  /** The page marks a slot gray exactly when the route's tally would skip its confidence. */
  lemma ColorMatchesTally(confidence: string, counts: ConfidenceCounts)
    ensures ConfidenceColor(confidence) == Gray <==> Bump(counts, confidence) == counts
  {
    if ParseLevel(confidence).Some? {
      var l := ParseLevel(confidence).value;
      assert Bucket(Bump(counts, confidence), l) == Bucket(counts, l) + 1;
    }
  }

  /** A submitted session scores 100% exactly when every slot holds its question's correct option. */
  lemma {:induction false} SessionFullyCorrect(answers: seq<Answer>, questions: seq<Question>)
    requires |answers| == |questions| > 0
    ensures ScoreOf(|CorrectAnswers(Payload(answers, questions))|, |answers|) == Finite(100.0) <==>
      forall i :: 0 <= i < |answers| ==> answers[i].answer == questions[i].correctAnswer
  {
    var p := Payload(answers, questions);
    AllCorrectIff(p);
    assert forall i :: 0 <= i < |answers| ==> (IsCorrect(p[i]) <==> answers[i].answer == questions[i].correctAnswer);
  }

  /** The number of slots of a session that carry level l. */
  function SlotsWithLevel(answers: seq<Answer>, l: Level): nat
  {
    if answers == [] then 0
    else (if ParseLevel(answers[0].confidence) == Some(l) then 1 else 0) + SlotsWithLevel(answers[1..], l)
  }

  /** Each stored bucket counts the session's slots whose marker shows that level. */
  lemma {:induction false} SessionTally(answers: seq<Answer>, questions: seq<Question>, l: Level)
    requires |answers| <= |questions|
    ensures Bucket(Tally(Payload(answers, questions)), l) == SlotsWithLevel(answers, l)
  {
    TallyCountsLevels(Payload(answers, questions), l);
    PayloadCountLevel(answers, questions, l);
  }

  lemma {:induction false} PayloadCountLevel(answers: seq<Answer>, questions: seq<Question>, l: Level)
    requires |answers| <= |questions|
    ensures CountLevel(Payload(answers, questions), l) == SlotsWithLevel(answers, l)
  {
    if answers != [] {
      var p := Payload(answers, questions);
      assert p[1..] == Payload(answers[1..], questions[1..]);
      PayloadCountLevel(answers[1..], questions[1..], l);
    }
  }

  /**
   * Two questions; the first answered "A" with very-confident, the second left blank and submitted
   * without confirmation: two questions counted, one very-confident, and the fetched result is this one.
   */
  lemma TwoQuestionScenario(q1: Question, q2: Question, userId: string, testCode: string, endTime: string)
    requires userId != "" && testCode != "" && q2.correctAnswer != ""
    ensures var data := SubmitRequest(userId, testCode, Payload([Answer("A", "very-confident"), Blank], [q1, q2]), endTime);
      && ResultOf(data).totalQuestions == 2
      && ResultOf(data).confidenceCounts == ConfidenceCounts(1, 0, 0)
      && ResultOf(data).correctAnswers == (if q1.correctAnswer == "A" then 1 else 0)
      && GetResult(Some(testCode), Some(userId), Some([ResultOf(data)])) == Ok(ResultOf(data))
  {
    var answers := [Answer("A", "very-confident"), Blank];
    var data := SubmitRequest(userId, testCode, Payload(answers, [q1, q2]), endTime);
    var p := data.answers;
    assert p[0].confidence == "very-confident" && p[1].confidence == "";
    assert p[..1][..0] == [] && p[..1] == [p[0]] && p[..2] == p;
    assert Tally(p[..1]) == ConfidenceCounts(1, 0, 0);
    assert !IsCorrect(p[1]) && p[1..] == [p[1]] && p[1..][1..] == [];
    assert CorrectAnswers(p[1..]) == [];
    FetchAfterSubmit([], data);
  }

  /** Results store lookups never see a blank fetch: a result submitted under a pair is found again. */
  lemma {:induction false} SubmitThenFetch(store: seq<TestResult>, answers: seq<Answer>, questions: seq<Question>,
                                           userId: string, testCode: string, endTime: string)
    requires |answers| <= |questions| && userId != "" && testCode != ""
    requires FindResult(store, userId, testCode).None?
    ensures var data := SubmitRequest(userId, testCode, Payload(answers, questions), endTime);
      GetResult(Some(testCode), Some(userId), Some(store + [ResultOf(data)])) == Ok(ResultOf(data))
  {
    FetchAfterSubmit(store, SubmitRequest(userId, testCode, Payload(answers, questions), endTime));
  }
}
