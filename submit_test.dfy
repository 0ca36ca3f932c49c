/** The submit-test route: stamping, scoring and tallying a submission and appending it to the stores. */
module SubmitTest {
  import opened Api

  /** A record of the answers store: a submitted answer stamped with its user. */
  datatype StoredAnswer = StoredAnswer(
    userId: string,
    questionId: string,
    answer: string,
    confidence: string,
    correctAnswer: string,
    subtopicId: string,
    competence: string)

  function Unstamp(s: StoredAnswer): SubmittedAnswer
  {
    SubmittedAnswer(s.questionId, s.answer, s.confidence, s.correctAnswer, s.subtopicId, s.competence)
  }

  /** Stamps every answer with the user, keeping length and order. */
  function ProcessAnswers(userId: string, answers: seq<SubmittedAnswer>): (r: seq<StoredAnswer>)
    ensures |r| == |answers|
    ensures forall i :: 0 <= i < |r| ==> r[i].userId == userId && Unstamp(r[i]) == answers[i]
  {
    seq(|answers|, i requires 0 <= i < |answers| =>
      StoredAnswer(userId, answers[i].questionId, answers[i].answer, answers[i].confidence,
                   answers[i].correctAnswer, answers[i].subtopicId, answers[i].competence))
  }

  // ---------------------------------------------------------------------------
  // Correct count and score

  predicate IsCorrect(a: SubmittedAnswer) { a.answer == a.correctAnswer }

  /** The answers whose option equals the correct one, in order. */
  function CorrectAnswers(answers: seq<SubmittedAnswer>): (r: seq<SubmittedAnswer>)
    ensures |r| <= |answers|
    ensures forall a :: a in r ==> a in answers && IsCorrect(a)
  {
    if answers == [] then []
    else (if IsCorrect(answers[0]) then [answers[0]] else []) + CorrectAnswers(answers[1..])
  }

  /** The filter keeps every correct answer, as often as it is submitted, and nothing else. */
  lemma {:induction false} CorrectAnswersExact(answers: seq<SubmittedAnswer>)
    ensures forall a ::
      multiset(CorrectAnswers(answers))[a] == (if IsCorrect(a) then multiset(answers)[a] else 0)
  {
    if answers != [] {
      CorrectAnswersExact(answers[1..]);
      assert answers == [answers[0]] + answers[1..];
    }
  }

  /** Every answer is correct exactly when all of them are counted. */
  lemma {:induction false} AllCorrectIff(answers: seq<SubmittedAnswer>)
    ensures |CorrectAnswers(answers)| == |answers| <==>
      forall i :: 0 <= i < |answers| ==> IsCorrect(answers[i])
  {
    if answers != [] {
      AllCorrectIff(answers[1..]);
      assert forall i :: 1 <= i < |answers| ==> answers[i] == answers[1..][i - 1];
    }
  }

  /** No answer is correct exactly when none is counted. */
  lemma {:induction false} NoneCorrectIff(answers: seq<SubmittedAnswer>)
    ensures |CorrectAnswers(answers)| == 0 <==>
      forall i :: 0 <= i < |answers| ==> !IsCorrect(answers[i])
  {
    if answers != [] {
      NoneCorrectIff(answers[1..]);
      assert forall i :: 1 <= i < |answers| ==> answers[i] == answers[1..][i - 1];
    }
  }

  /** A JavaScript number as the score can come out: 0/0 is NaN. */
  datatype Score = NaN | Finite(percent: real)

  /** correct / total * 100 */
  function ScoreOf(correct: nat, total: nat): (s: Score)
    requires correct <= total
    ensures s.NaN? <==> total == 0
    ensures s.Finite? ==> 0.0 <= s.percent <= 100.0
    ensures s == Finite(100.0) <==> total > 0 && correct == total
    ensures s == Finite(0.0) <==> total > 0 && correct == 0
  {
    if total == 0 then NaN
    else
      var ratio := correct as real / total as real;
      assert ratio <= 1.0;
      assert ratio == 1.0 <==> correct == total;
      Finite(ratio * 100.0)
  }

  // ---------------------------------------------------------------------------
  // Confidence tally

  datatype ConfidenceCounts = ConfidenceCounts(veryConfident: nat, unsure: nat, dontKnow: nat)

  const NoCounts := ConfidenceCounts(0, 0, 0)

  function Total(c: ConfidenceCounts): nat { c.veryConfident + c.unsure + c.dontKnow }

  /** The count of one level's bucket. */
  function Bucket(c: ConfidenceCounts, l: Level): nat
  {
    match l
    case VeryConfident => c.veryConfident
    case Unsure => c.unsure
    case DontKnow => c.dontKnow
  }

  /** One step of the tally loop: a recognised level bumps its own bucket, anything else none. */
  function Bump(c: ConfidenceCounts, confidence: string): (r: ConfidenceCounts)
    ensures ParseLevel(confidence).None? ==> r == c
    ensures ParseLevel(confidence).Some? ==>
      (forall l :: Bucket(r, l) == Bucket(c, l) + (if ParseLevel(confidence) == Some(l) then 1 else 0))
  {
    match ParseLevel(confidence)
    case Some(VeryConfident) => c.(veryConfident := c.veryConfident + 1)
    case Some(Unsure) => c.(unsure := c.unsure + 1)
    case Some(DontKnow) => c.(dontKnow := c.dontKnow + 1)
    case None => c
  }

  /** The tally of a list of answers, taken front to back. */
  function Tally(answers: seq<SubmittedAnswer>): ConfidenceCounts
  {
    if answers == [] then NoCounts
    else Bump(Tally(answers[..|answers| - 1]), answers[|answers| - 1].confidence)
  }

  /** The number of answers carrying level l. */
  function CountLevel(answers: seq<SubmittedAnswer>, l: Level): nat
  {
    if answers == [] then 0
    else (if ParseLevel(answers[0].confidence) == Some(l) then 1 else 0) + CountLevel(answers[1..], l)
  }

  /** The number of answers carrying any recognised level. */
  function CountRecognised(answers: seq<SubmittedAnswer>): (n: nat)
    ensures n <= |answers|
  {
    if answers == [] then 0
    else (if ParseLevel(answers[0].confidence).Some? then 1 else 0) + CountRecognised(answers[1..])
  }

  lemma {:induction false} CountLevelAppend(a: seq<SubmittedAnswer>, b: seq<SubmittedAnswer>, l: Level)
    ensures CountLevel(a + b, l) == CountLevel(a, l) + CountLevel(b, l)
  {
    if a != [] {
      assert (a + b)[1..] == a[1..] + b;
      CountLevelAppend(a[1..], b, l);
    } else {
      assert a + b == b;
    }
  }

  /** Tally of a list extended by one answer: one more step of the loop. */
  lemma {:induction false} TallySnoc(answers: seq<SubmittedAnswer>, x: SubmittedAnswer)
    ensures Tally(answers + [x]) == Bump(Tally(answers), x.confidence)
  {
    assert (answers + [x])[..|answers|] == answers;
  }

  /** Each bucket of the tally holds exactly the number of answers with that level. */
  lemma {:induction false} TallyCountsLevels(answers: seq<SubmittedAnswer>, l: Level)
    ensures Bucket(Tally(answers), l) == CountLevel(answers, l)
  {
    if answers != [] {
      var n := |answers| - 1;
      var init, last := answers[..n], answers[n];
      assert answers == init + [last];
      TallyCountsLevels(init, l);
      TallySnoc(init, last);
      CountLevelAppend(init, [last], l);
      assert CountLevel([last], l) == if ParseLevel(last.confidence) == Some(l) then 1 else 0;
    }
  }

  /** An answer is recognised exactly when it carries one of the three levels. */
  lemma {:induction false} CountRecognisedByLevel(answers: seq<SubmittedAnswer>)
    ensures CountRecognised(answers) ==
      CountLevel(answers, VeryConfident) + CountLevel(answers, Unsure) + CountLevel(answers, DontKnow)
  {
    if answers != [] {
      CountRecognisedByLevel(answers[1..]);
    }
  }

  /** The buckets add up to the number of answers with a recognised level, at most the answer count. */
  lemma {:induction false} TallyTotal(answers: seq<SubmittedAnswer>)
    ensures Total(Tally(answers)) == CountRecognised(answers) <= |answers|
  {
    var t := Tally(answers);
    var vc, un, dk := CountLevel(answers, VeryConfident), CountLevel(answers, Unsure), CountLevel(answers, DontKnow);
    assert t.veryConfident == vc by { TallyCountsLevels(answers, VeryConfident); }
    assert t.unsure == un by { TallyCountsLevels(answers, Unsure); }
    assert t.dontKnow == dk by { TallyCountsLevels(answers, DontKnow); }
    assert CountRecognised(answers) == vc + un + dk by { CountRecognisedByLevel(answers); }
  }

  /** The buckets add up to the answer count exactly when every answer has a recognised level. */
  lemma {:induction false} CountRecognisedFull(answers: seq<SubmittedAnswer>)
    ensures CountRecognised(answers) == |answers| <==>
      forall i :: 0 <= i < |answers| ==> ParseLevel(answers[i].confidence).Some?
  {
    if answers != [] {
      CountRecognisedFull(answers[1..]);
      assert forall i :: 1 <= i < |answers| ==> answers[i] == answers[1..][i - 1];
    }
  }

  /** The forEach loop over the answers that fills the three counters. */
  method TallyConfidence(answers: seq<SubmittedAnswer>) returns (counts: ConfidenceCounts)
    ensures counts == Tally(answers)
  {
    counts := NoCounts;
    var i := 0;
    while i < |answers|
      invariant 0 <= i <= |answers|
      invariant counts == Tally(answers[..i])
    {
      assert answers[..i + 1][..i] == answers[..i];
      match ParseLevel(answers[i].confidence) {
        case Some(VeryConfident) => counts := counts.(veryConfident := counts.veryConfident + 1);
        case Some(Unsure) => counts := counts.(unsure := counts.unsure + 1);
        case Some(DontKnow) => counts := counts.(dontKnow := counts.dontKnow + 1);
        case None =>
      }
      i := i + 1;
    }
    assert answers[..i] == answers;
  }

  // ---------------------------------------------------------------------------
  // The guard as written

  /** Names every plain JavaScript object inherits from Object.prototype under Node. */
  const InheritedKeys: set<string> := {
    "constructor", "__defineGetter__", "__defineSetter__", "hasOwnProperty",
    "__lookupGetter__", "__lookupSetter__", "isPrototypeOf", "propertyIsEnumerable",
    "toString", "valueOf", "__proto__", "toLocaleString" }

  /** `key in confidenceCounts`: true for the three own keys and for every inherited name. */
  predicate InCountsObject(key: string)
  {
    ParseLevel(key).Some? || key in InheritedKeys
  }

  /**
   * The counts object after the loop as written: the three buckets plus the inherited names
   * that the increment turned into own properties holding NaN (assigning to __proto__ is ignored).
   */
  datatype CountsObject = CountsObject(counts: ConfidenceCounts, spurious: set<string>)

  function TallyAsWritten(answers: seq<SubmittedAnswer>): CountsObject
  {
    if answers == [] then CountsObject(NoCounts, {})
    else
      var before := TallyAsWritten(answers[..|answers| - 1]);
      var key := answers[|answers| - 1].confidence;
      if !InCountsObject(key) then before
      else if ParseLevel(key).Some? then before.(counts := Bump(before.counts, key))
      else if key == "__proto__" then before
      else before.(spurious := before.spurious + {key})
  }

  /** An answer whose confidence is "toString" passes the guard and adds a key to the stored counts. */
  lemma GuardAdmitsInheritedName()
    ensures InCountsObject("toString") && ParseLevel("toString").None?
    ensures TallyAsWritten([SubmittedAnswer("q1", "A", "toString", "A", "s1", "c1")]).spurious == {"toString"}
  {
    var one := [SubmittedAnswer("q1", "A", "toString", "A", "s1", "c1")];
    assert one[..0] == [];
  }

  /** Without inherited names among the confidences, the loop as written and Tally agree. */
  lemma {:induction false} TallyAsWrittenAgrees(answers: seq<SubmittedAnswer>)
    requires forall i :: 0 <= i < |answers| ==> answers[i].confidence !in InheritedKeys
    ensures TallyAsWritten(answers) == CountsObject(Tally(answers), {})
  {
    if answers != [] {
      TallyAsWrittenAgrees(answers[..|answers| - 1]);
    }
  }

  // ---------------------------------------------------------------------------
  // The result record and the stores

  /** A record of the results store. */
  datatype TestResult = TestResult(
    userId: string,
    testCode: string,
    score: Score,
    totalQuestions: nat,
    correctAnswers: nat,
    confidenceCounts: ConfidenceCounts,
    endTime: string)

  /** The one result record a submission appends. */
  function ResultOf(data: SubmitRequest): (r: TestResult)
    ensures r.userId == data.userId && r.testCode == data.testCode && r.endTime == data.endTime
    ensures r.totalQuestions == |data.answers|
    ensures r.correctAnswers == |CorrectAnswers(data.answers)| <= r.totalQuestions
    ensures r.confidenceCounts == Tally(data.answers)
    ensures Total(r.confidenceCounts) <= r.totalQuestions
    ensures r.score == ScoreOf(r.correctAnswers, r.totalQuestions)
    ensures r.score.NaN? <==> data.answers == []
    ensures r.score.Finite? ==> 0.0 <= r.score.percent <= 100.0
  {
    var correct := |CorrectAnswers(data.answers)|;
    var total := |data.answers|;
    var score := ScoreOf(correct, total);
    var counts := Tally(data.answers);
    assert score.NaN? <==> data.answers == [];
    assert Total(counts) <= total by { TallyTotal(data.answers); }
    TestResult(data.userId, data.testCode, score, total, correct, counts, data.endTime)
  }

  /** The answers and results files, as the route reads and rewrites them. */
  class SubmissionStore {
    var answers: seq<StoredAnswer>
    var results: seq<TestResult>

    /** Missing files are created holding an empty list. */
    constructor ()
      ensures answers == [] && results == []
    {
      answers, results := [], [];
    }

    /**
     * Handles one submission. A file that cannot be read or parsed counts as an empty list,
     * so it is then rewritten with only this submission's records.
     */
    method Submit(data: SubmitRequest, answersReadable: bool, resultsReadable: bool)
      modifies this
      ensures answers == (if answersReadable then old(answers) else []) + ProcessAnswers(data.userId, data.answers)
      ensures results == (if resultsReadable then old(results) else []) + [ResultOf(data)]
      ensures answersReadable ==> |answers| == |old(answers)| + |data.answers|
      ensures answersReadable ==> answers[..|old(answers)|] == old(answers)
      ensures resultsReadable ==> |results| == |old(results)| + 1 && results[..|old(results)|] == old(results)
    {
      var stored := if answersReadable then answers else [];
      var recorded := if resultsReadable then results else [];
      var processed := ProcessAnswers(data.userId, data.answers);
      stored := stored + processed;
      var correct := |CorrectAnswers(data.answers)|;
      var total := |data.answers|;
      var score := ScoreOf(correct, total);
      var counts := TallyConfidence(data.answers);
      var result := TestResult(data.userId, data.testCode, score, total, correct, counts, data.endTime);
      recorded := recorded + [result];
      answers, results := stored, recorded;
    }
  }
}
