/** Shapes exchanged between the test page and the HTTP routes. */
module Api {

  datatype Option<T> = None | Some(value: T)

  /** What a route handler answers: 200 with a body, 400, 404 or 500. */
  datatype Response<T> = Ok(body: T) | BadRequest | NotFound | ServerError

  /**
   * A query parameter as URLSearchParams.get gives it (None is null).
   * The routes reject it with `!param`, which is true for null and for "".
   */
  predicate Present(p: Option<string>) { p.Some? && p.value != "" }

  /** The three confidence levels a participant can choose. */
  datatype Level = VeryConfident | Unsure | DontKnow

  function LevelName(l: Level): string
  {
    match l
    case VeryConfident => "very-confident"
    case Unsure => "unsure"
    case DontKnow => "dont-know"
  }

  /** Recognises a confidence string; "" and every other string are no level. */
  function ParseLevel(s: string): (r: Option<Level>)
    ensures r.Some? <==> s in {"very-confident", "unsure", "dont-know"}
    ensures r.Some? ==> LevelName(r.value) == s
  {
    if s == "very-confident" then Some(VeryConfident)
    else if s == "unsure" then Some(Unsure)
    else if s == "dont-know" then Some(DontKnow)
    else None
  }

  lemma ParseLevelName(l: Level)
    ensures ParseLevel(LevelName(l)) == Some(l)
  {
  }

  /** One entry of the submit-test request: a session answer joined with its question. */
  datatype SubmittedAnswer = SubmittedAnswer(
    questionId: string,
    answer: string,
    confidence: string,
    correctAnswer: string,
    subtopicId: string,
    competence: string)

  /** The body the test page posts to the submit-test route. */
  datatype SubmitRequest = SubmitRequest(
    userId: string,
    testCode: string,
    answers: seq<SubmittedAnswer>,
    endTime: string)
}
