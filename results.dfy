/** The results route: the stored result of one user on one test. */
module Results {
  import opened Api
  import opened SubmitTest

  predicate Matches(r: TestResult, userId: string, testCode: string)
  {
    r.userId == userId && r.testCode == testCode
  }

  /** The index of the first result of this user on this test, scanning from the front. */
  function FindResult(results: seq<TestResult>, userId: string, testCode: string): (k: Option<nat>)
    ensures k.Some? ==> k.value < |results| && Matches(results[k.value], userId, testCode)
    ensures k.Some? ==> forall j :: 0 <= j < k.value ==> !Matches(results[j], userId, testCode)
    ensures k.None? <==> forall j :: 0 <= j < |results| ==> !Matches(results[j], userId, testCode)
  {
    if results == [] then None
    else if Matches(results[0], userId, testCode) then Some(0)
    else
      match FindResult(results[1..], userId, testCode)
      case None => None
      case Some(k) => Some(k + 1)
  }

  /**
   * GET with the testCode and userId query parameters over the results file
   * (None: the file could not be read or parsed).
   */
  function GetResult(testCode: Option<string>, userId: Option<string>, stored: Option<seq<TestResult>>)
    : (r: Response<TestResult>)
    ensures !Present(testCode) || !Present(userId) <==> r == BadRequest
    ensures r == ServerError <==> Present(testCode) && Present(userId) && stored.None?
    ensures r.Ok? ==> stored.Some? && Matches(r.body, userId.value, testCode.value)
    ensures r.Ok? ==> exists k :: (0 <= k < |stored.value| && stored.value[k] == r.body
      && forall j :: 0 <= j < k ==> !Matches(stored.value[j], userId.value, testCode.value))
    ensures r == NotFound <==> (Present(testCode) && Present(userId) && stored.Some?
      && forall j :: 0 <= j < |stored.value| ==> !Matches(stored.value[j], userId.value, testCode.value))
  {
    if !Present(testCode) || !Present(userId) then BadRequest
    else if stored.None? then ServerError
    else
      match FindResult(stored.value, userId.value, testCode.value)
      case None => NotFound
      case Some(k) => Ok(stored.value[k])
  }

  /** Appending records leaves an earlier match where it was, and otherwise finds a later one after them. */
  lemma FindResultAppend(results: seq<TestResult>, more: seq<TestResult>, userId: string, testCode: string)
    ensures FindResult(results, userId, testCode).Some? ==>
      FindResult(results + more, userId, testCode) == FindResult(results, userId, testCode)
    ensures FindResult(results, userId, testCode).None? && FindResult(more, userId, testCode).Some? ==>
      FindResult(results + more, userId, testCode) == Some(|results| + FindResult(more, userId, testCode).value)
  {
    if FindResult(results, userId, testCode).Some? {
      FindResultAppendKeeps(results, more, userId, testCode);
    } else if FindResult(more, userId, testCode).Some? {
      FindResultAppendLater(results, more, userId, testCode);
    }
  }

  lemma {:induction false} FindResultAppendKeeps(results: seq<TestResult>, more: seq<TestResult>, userId: string, testCode: string)
    requires FindResult(results, userId, testCode).Some?
    ensures FindResult(results + more, userId, testCode) == FindResult(results, userId, testCode)
  {
    assert (results + more)[0] == results[0];
    if !Matches(results[0], userId, testCode) {
      var rest := results[1..];
      assert (results + more)[1..] == rest + more;
      FindResultAppendKeeps(rest, more, userId, testCode);
    }
  }

  lemma {:induction false} FindResultAppendLater(results: seq<TestResult>, more: seq<TestResult>, userId: string, testCode: string)
    requires FindResult(results, userId, testCode).None? && FindResult(more, userId, testCode).Some?
    ensures FindResult(results + more, userId, testCode) == Some(|results| + FindResult(more, userId, testCode).value)
  {
    var all, k := results + more, FindResult(more, userId, testCode).value;
    var n := |results| + k;
    assert all[n] == more[k];
    forall j | 0 <= j < n ensures !Matches(all[j], userId, testCode) {
      if j < |results| {
        assert all[j] == results[j];
      } else {
        assert all[j] == more[j - |results|];
      }
    }
    var found := FindResult(all, userId, testCode);
    assert found.Some? by { assert Matches(all[n], userId, testCode); }
    assert !(found.value < n);
    assert !(found.value > n) by { assert Matches(all[n], userId, testCode); }
  }

  /**
   * After a submission with a user and a test code, fetching them succeeds; the record returned is the
   * new one, with its correct count and tally, unless an earlier submission of the same pair is stored.
   */
  lemma {:induction false} FetchAfterSubmit(stored: seq<TestResult>, data: SubmitRequest)
    requires data.userId != "" && data.testCode != ""
    ensures var r := GetResult(Some(data.testCode), Some(data.userId), Some(stored + [ResultOf(data)]));
      && r.Ok?
      && (FindResult(stored, data.userId, data.testCode).None? ==>
            && r.body == ResultOf(data)
            && r.body.correctAnswers == |CorrectAnswers(data.answers)|
            && r.body.confidenceCounts == Tally(data.answers))
      && (FindResult(stored, data.userId, data.testCode).Some? ==>
            r.body == stored[FindResult(stored, data.userId, data.testCode).value])
  {
    var one := [ResultOf(data)];
    assert FindResult(one, data.userId, data.testCode) == Some(0);
    FindResultAppend(stored, one, data.userId, data.testCode);
  }
}
