/** The questions and validate-test-code routes: finding a test's question package by its code. */
module Packages {
  import opened Api
  import opened Text

  /** The lower-cased file name a test code stands for. */
  function PackageName(code: string): string { Lower(code) + ".json" }

  /** A listing entry selects the code when its lower-cased name is the package name. */
  predicate Selects(file: string, code: string) { Lower(file) == PackageName(code) }

  /** The index of the first listing entry that selects the code. */
  function FindPackage(files: seq<string>, code: string): (k: Option<nat>)
    ensures k.Some? ==> k.value < |files| && Selects(files[k.value], code)
    ensures k.Some? ==> forall j :: 0 <= j < k.value ==> !Selects(files[j], code)
    ensures k.None? <==> forall j :: 0 <= j < |files| ==> !Selects(files[j], code)
  {
    if files == [] then None
    else if Selects(files[0], code) then Some(0)
    else
      match FindPackage(files[1..], code)
      case None => None
      case Some(k) => Some(k + 1)
  }

  /**
   * GET /questions over the package directory listing (None: the directory could not be read).
   * Success answers with the selected file name, whose content the route then sends.
   */
  function GetQuestions(testCode: Option<string>, listing: Option<seq<string>>): (r: Response<string>)
    ensures !Present(testCode) <==> r == BadRequest
    ensures r == ServerError <==> Present(testCode) && listing.None?
    ensures r.Ok? ==> listing.Some? && r.body in listing.value && Selects(r.body, testCode.value)
    ensures r.Ok? ==> exists k :: (0 <= k < |listing.value| && listing.value[k] == r.body
      && forall j :: 0 <= j < k ==> !Selects(listing.value[j], testCode.value))
    ensures r == NotFound <==> (Present(testCode) && listing.Some?
      && forall j :: 0 <= j < |listing.value| ==> !Selects(listing.value[j], testCode.value))
  {
    if !Present(testCode) then BadRequest
    else if listing.None? then ServerError
    else
      match FindPackage(listing.value, testCode.value)
      case None => NotFound
      case Some(k) => Ok(listing.value[k])
  }

  /** GET /validate-test-code: success exactly when some listing entry selects the code. */
  function ValidateTestCode(testCode: Option<string>, listing: Option<seq<string>>): (r: Response<()>)
    ensures !Present(testCode) <==> r == BadRequest
    ensures r == ServerError <==> Present(testCode) && listing.None?
    ensures r.Ok? <==> (Present(testCode) && listing.Some?
      && exists j :: 0 <= j < |listing.value| && Selects(listing.value[j], testCode.value))
    ensures r == NotFound <==> (Present(testCode) && listing.Some?
      && forall j :: 0 <= j < |listing.value| ==> !Selects(listing.value[j], testCode.value))
  {
    if !Present(testCode) then BadRequest
    else if listing.None? then ServerError
    else if FindPackage(listing.value, testCode.value).Some? then Ok(())
    else NotFound
  }

  /** The status of a response, without its body. */
  function Status<T>(r: Response<T>): nat
  {
    match r
    case Ok(_) => 200
    case BadRequest => 400
    case NotFound => 404
    case ServerError => 500
  }

  /** Both routes answer with the same status for the same code over the same listing. */
  lemma ValidateAgreesWithQuestions(testCode: Option<string>, listing: Option<seq<string>>)
    ensures Status(ValidateTestCode(testCode, listing)) == Status(GetQuestions(testCode, listing))
  {
  }

  /** Codes that differ only in letter case select the same package and validate alike. */
  lemma CaseInsensitive(c1: string, c2: string, listing: Option<seq<string>>)
    requires Lower(c1) == Lower(c2)
    ensures GetQuestions(Some(c1), listing) == GetQuestions(Some(c2), listing)
    ensures ValidateTestCode(Some(c1), listing) == ValidateTestCode(Some(c2), listing)
  {
    assert Present(Some(c1)) <==> Present(Some(c2));
    if listing.Some? {
      FindPackageSameName(listing.value, c1, c2);
    }
  }

  lemma {:induction false} FindPackageSameName(files: seq<string>, c1: string, c2: string)
    requires Lower(c1) == Lower(c2)
    ensures FindPackage(files, c1) == FindPackage(files, c2)
  {
    if files != [] {
      FindPackageSameName(files[1..], c1, c2);
    }
  }

  /** A code and its lower-cased form select the same package. */
  lemma LowerCodeSelectsSame(code: string, listing: Option<seq<string>>)
    ensures GetQuestions(Some(code), listing) == GetQuestions(Some(Lower(code)), listing)
  {
    LowerIdempotent(code);
    CaseInsensitive(code, Lower(code), listing);
  }
}
