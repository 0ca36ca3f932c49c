# Multiple-choice test sessions, scoring and lookups in Dafny

This project models the core of a browser-based multiple-choice test tool. A participant answers a
fixed list of questions, giving each an option letter and a confidence level. The session is then
submitted, scored and stored, and the result is looked up again by user and test code.

- `session.dfy` (module `Session`): the test page's state as a class `Controller`. It holds the
  questions, the index-aligned answer slots, the current index and the dialog flags. Its methods are
  the page's handlers: editing one slot, navigating (refused while the current slot is partial),
  asking for confirmation before submitting an incomplete session, and building the submission payload.
- `submit_test.dfy` (module `SubmitTest`): the submit-test route. It stamps answers with the user,
  counts correct answers, computes the score and tallies the confidence levels (a loop, as in the
  route's `forEach`). `SubmissionStore` holds the answers and results files and appends one submission
  in place.
- `results.dfy` (module `Results`): the results route, a first-match search on (user, test code).
- `packages.dfy` (module `Packages`): the questions and validate-test-code routes, a case-insensitive
  match of `<code>.json` against the package directory listing.
- `text.dfy` (module `Text`): ASCII lower-casing. `api.dfy` (module `Api`): confidence levels, request
  shapes and route outcomes (200 / 400 / 404 / 500).
- `flow.dfy` (module `Flow`): properties that connect the page to the routes.

Behaviour of the code worth knowing, as the model states it:
- The confidence buckets add up to the number of answers with a recognised level, not to the number
  of questions. Blank or unknown levels are skipped (`TallyTotal`, `CountRecognisedFull`).
- The results lookup returns the FIRST stored result of a (user, test code) pair. After a second
  submission of the same pair, the older result is still the one returned (`FetchAfterSubmit`).
- An empty submission is not refused. Its score is JavaScript's `0/0`, NaN (`ScoreOf`), which the
  results file then holds as null.
- A blank answer counts as correct when the question's correct answer is also empty (`IsCorrect`
  compares the two strings, as the route does).

## Model

| member | source | states |
|---|---|---|
| `Text.LowerChar` | app/api/questions/route.ts:17 | the result is never an upper-case letter; 'A'..'Z' move by 32 to their lower-case form; every other character is kept |
| `Text.Lower` | app/api/questions/route.ts:17 | lower-casing keeps the length and lower-cases each character in place |
| `Text.LowerIdempotent` | app/api/questions/route.ts:17 | lower-casing a lower-cased string changes nothing |
| `Api.ParseLevel` | app/api/submit-test/route.ts:67-77 | a string is a level exactly when it is one of the three counter keys, and the level's name is that string |
| `Api.ParseLevelName` | app/api/submit-test/route.ts:67-71 | each level's name is recognised as that level |
| `Session.IsPartial` | components/TestInterface.tsx:75-78 | a slot is partial exactly when one of its two fields is set; a blank slot and a complete slot are not partial |
| `Session.Unanswered` | components/TestInterface.tsx:105 | the filter keeps only incomplete slots of the list, and it is empty exactly when every slot is complete |
| `Session.Payload` | components/TestInterface.tsx:121-127 | one entry per answer, in order; entry i carries answer i and question i's id, correct answer, subtopic and competence |
| `Session.ConfidenceColor` | components/TestInterface.tsx:152-163 | the marker is gray exactly when the confidence is no level; each level has its own colour |
| `Session.ColorsDistinguishLevels` | components/TestInterface.tsx:152-163 | two levels with the same marker colour are the same level |
| `Session.FreshSessionState` | components/TestInterface.tsx:51-52 | in a freshly loaded non-empty session no slot is partial, and submitting needs confirmation |
| `Session.Controller.constructor` | components/TestInterface.tsx:37-43 | the page starts with no questions, no answers, index 0 and every dialog closed |
| `Session.Controller.Load` | components/TestInterface.tsx:45-61 | a successful fetch installs the questions and one blank slot per question; a failed fetch changes nothing; slots stay index-aligned |
| `Session.Controller.SetAnswer` | components/TestInterface.tsx:63-67 | only the current slot's option changes; its confidence, every other slot and the length are kept |
| `Session.Controller.SetConfidence` | components/TestInterface.tsx:69-73 | only the current slot's confidence changes; its option, every other slot and the length are kept |
| `Session.Controller.IsPartiallyAnswered` | components/TestInterface.tsx:75-78 | slot i is partial exactly when exactly one of its two fields is empty |
| `Session.Controller.TryNavigate` | components/TestInterface.tsx:80-86 | from a partial slot the index stays and the warning opens; otherwise the index becomes the target and the warning flag is kept; the index stays in range |
| `Session.Controller.NextQuestion` | components/TestInterface.tsx:88-92 | a no-op on the last question; otherwise a navigation to the next index |
| `Session.Controller.PreviousQuestion` | components/TestInterface.tsx:94-98 | a no-op on the first question; otherwise a navigation to the previous index |
| `Session.Controller.GoToQuestion` | components/TestInterface.tsx:100-102 | a navigation to the picked index, refused from a partial slot |
| `Session.Controller.DismissWarning` | components/TestInterface.tsx:311 | the warning dialog closes |
| `Session.Controller.SubmitTest` | components/TestInterface.tsx:113-150 | the request carries the user, the test code, the zipped payload and the end time; the page moves to the results exactly when the route answers ok; the dialog closes and submitting ends |
| `Session.Controller.HandleSubmitTest` | components/TestInterface.tsx:104-111 | with some incomplete slot the confirmation opens and nothing is sent; with every slot complete the session is submitted at once |
| `Session.Controller.CancelSubmit` | components/TestInterface.tsx:296 | the confirmation dialog closes |
| `SubmitTest.ProcessAnswers` | app/api/submit-test/route.ts:50-58 | same length and order as the submitted answers; every record carries the user id, and removing it gives back the submitted answer |
| `SubmitTest.CorrectAnswers` | app/api/submit-test/route.ts:63 | the filter keeps only correct answers of the submission, so the correct count is at most the total |
| `SubmitTest.CorrectAnswersExact` | app/api/submit-test/route.ts:63-64 | the filter keeps every correct answer as often as it was submitted and nothing else, so the correct count is the number of correct answers |
| `SubmitTest.AllCorrectIff` | app/api/submit-test/route.ts:63-64 | the correct count equals the total exactly when every answer is correct |
| `SubmitTest.NoneCorrectIff` | app/api/submit-test/route.ts:63-64 | the correct count is zero exactly when no answer is correct |
| `SubmitTest.ScoreOf` | app/api/submit-test/route.ts:65 | NaN exactly for an empty submission; otherwise between 0 and 100, 100 exactly when all are correct and 0 exactly when none is |
| `SubmitTest.Bump` | app/api/submit-test/route.ts:73-77 | a recognised level adds one to its own bucket and none to the others; anything else changes no bucket |
| `SubmitTest.CountRecognised` | app/api/submit-test/route.ts:73-77 | the number of answers with a recognised level is at most the number of answers |
| `SubmitTest.TallySnoc` | app/api/submit-test/route.ts:73-77 | the tally of a list extended by one answer is one more loop step on the tally of the list |
| `SubmitTest.CountRecognisedByLevel` | app/api/submit-test/route.ts:74 | the answers with a recognised level are those with one of the three levels |
| `SubmitTest.TallyCountsLevels` | app/api/submit-test/route.ts:67-77 | each bucket of the tally equals the number of answers carrying that level |
| `SubmitTest.TallyTotal` | app/api/submit-test/route.ts:67-77 | the buckets add up to the number of answers with a recognised level, at most the total |
| `SubmitTest.CountRecognisedFull` | app/api/submit-test/route.ts:67-77 | the buckets add up to the total exactly when every answer has a recognised level |
| `SubmitTest.TallyConfidence` | app/api/submit-test/route.ts:67-77 | the counting loop computes the tally of the whole submission |
| `SubmitTest.GuardAdmitsInheritedName` | app/api/submit-test/route.ts:74-75 | the guard as written lets the non-level "toString" through, and the stored counts gain a "toString" key |
| `SubmitTest.TallyAsWrittenAgrees` | app/api/submit-test/route.ts:73-77 | when no confidence is an inherited name, the loop as written gives the tally and no extra key |
| `SubmitTest.ResultOf` | app/api/submit-test/route.ts:79-87 | the result carries the user, test code and end time; total is the answer count; correct count at most total; buckets add up to at most total; the score is correct/total·100 of the stored counts, NaN exactly when empty, else in [0, 100] |
| `SubmitTest.SubmissionStore.constructor` | app/api/submit-test/route.ts:9-19 | missing stores start as empty lists |
| `SubmitTest.SubmissionStore.Submit` | app/api/submit-test/route.ts:32-92 | the answers store gains exactly the stamped answers as its suffix and the results store exactly one result; earlier records are kept; an unreadable store is treated as empty |
| `Results.FindResult` | app/api/results/route.ts:22-24 | the index found matches the user and test code and no earlier record does; none is found exactly when no record matches |
| `Results.GetResult` | app/api/results/route.ts:7-35 | a missing or empty parameter is 400; an unreadable file is 500; a returned result has the asked user and test code and is the earliest match; 404 exactly when nothing matches |
| `Results.FindResultAppend` | app/api/results/route.ts:22-24 | appending records keeps an earlier match; otherwise a match in the appended part is found there |
| `Results.FindResultAppendKeeps` | app/api/results/route.ts:22-24 | appending records after a match finds the same match |
| `Results.FindResultAppendLater` | app/api/results/route.ts:22-24 | with no match before the appended records, a match among them is found, shifted by the earlier length |
| `Results.FetchAfterSubmit` | app/api/results/route.ts:22-30 | after a submission the pair is found; with no earlier result of the pair the new result with its correct count and tally is returned; otherwise the earlier one is |
| `Packages.FindPackage` | app/api/questions/route.ts:17 | the entry found selects the code and no earlier entry does; none is found exactly when no entry selects it |
| `Packages.GetQuestions` | app/api/questions/route.ts:5-30 | a missing or empty code is 400; an unreadable directory is 500; the selected file is a member of the listing, the first whose lower-cased name is the lower-cased code plus ".json"; 404 exactly when none is |
| `Packages.ValidateTestCode` | app/api/validate-test-code/route.ts:7-27 | a missing or empty code is 400; an unreadable directory is 500; success exactly when some entry selects the code; 404 exactly when none does |
| `Packages.ValidateAgreesWithQuestions` | app/api/validate-test-code/route.ts:17-23 | validation and the questions route answer with the same status for the same code and listing |
| `Packages.CaseInsensitive` | app/api/questions/route.ts:17 | codes that differ only in letter case give the same questions outcome and the same validation outcome |
| `Packages.FindPackageSameName` | app/api/validate-test-code/route.ts:17 | codes with the same lower-cased form find the same listing entry |
| `Packages.LowerCodeSelectsSame` | app/api/questions/route.ts:17 | a code and its lower-cased form select the same package |
| `Flow.ColorMatchesTally` | components/TestInterface.tsx:152-163 | a slot's marker is gray exactly when the route's tally skips its confidence |
| `Flow.SessionFullyCorrect` | components/TestInterface.tsx:121-127 | a submitted non-empty session scores 100 exactly when every slot holds its question's correct option |
| `Flow.SessionTally` | app/api/submit-test/route.ts:67-77 | each stored bucket counts the session's slots carrying that level |
| `Flow.PayloadCountLevel` | components/TestInterface.tsx:121-127 | building the payload keeps the number of slots with each level |
| `Flow.TwoQuestionScenario` | app/api/submit-test/route.ts:63-89 | two questions, the first answered "A" very-confident and the second blank: total 2, counts (1, 0, 0), one correct exactly when "A" is right, and the lookup returns this result |
| `Flow.SubmitThenFetch` | app/api/results/route.ts:22-30 | a session submitted for a pair with no earlier result is what the lookup then returns |

## Findings

| source | as written | input that shows it | evidently intended | confidence | as-written member | corrected member |
|---|---|---|---|---|---|---|
| app/api/submit-test/route.ts:74-75 | `answer.confidence in confidenceCounts` is also true for names every object inherits, such as "toString" or "constructor"; the increment then adds that name to the stored counts with NaN, written out as null | a submitted answer whose confidence is "toString" | only the three levels are counted and the counts hold no other key | high; not executed | `SubmitTest.GuardAdmitsInheritedName` | `SubmitTest.TallyConfidence` |

The test page only ever sends the three levels or "", so the finding shows only when the route is
called directly. `SubmitTest.TallyAsWrittenAgrees` shows that the two agree whenever no inherited name
is sent. The rest of the model uses the corrected tally.

## Left out

- SubmitTest.ScoreOf: computes with exact reals, not IEEE doubles. In doubles, "100 exactly when all are correct" needs fewer than 2^53 questions. The two-decimal display is not modelled.
- Session.Controller.Load: requires the page to still be loading (no questions yet). The fetch runs once per test code, and the source never resets the current index, so a second load is not modelled.
- Session.Controller.TryNavigate: requires the target to be a question index. Every caller on the page passes an index taken from the question list.
- Session.Controller.SubmitTest: the user id (from local storage), the test code (from the URL), the end time (from the clock) and whether the route answered ok are parameters. A missing user id or test code is not modelled.
- Session.Controller.SubmitTest: `isSubmitting` is true only while the request is in flight. The model treats a submission as one step, so only its final value (false) is seen.
- The image preview dialog (`showImageModal`) and all rendering are not modelled.
- File I/O is not modelled: reading, writing, creating the data directory and JSON (de)serialisation. The stores are sequences, and a failed read or parse is a flag.
- SubmitTest.SubmissionStore.Submit: write failures are not modelled. In the source a failed write answers 500, and the answers file may then be written without the results file.
- SubmitTest.ScoreOf: an empty submission's NaN score is written to the results file as null (JSON has no NaN), so the results route then answers with a null score. The JSON encoding is not modelled.
- A request body that is not valid JSON, and JSON values that are not strings, are not modelled. The fields are typed strings.
- Packages.GetQuestions: returns the selected file name. Reading and parsing that file (another 500 on failure) is I/O.
- The page's `data[2].data` extraction from the package file is not modelled. The fetched question list is a parameter.
- Lower-casing is ASCII only. JavaScript's Unicode `toLowerCase` is not modelled.
- Concurrent requests are not modelled: each request runs alone and in order, so the lost-update race between overlapping submissions is out of scope.
- The user registration route (a generated UUID and an append), the welcome and results pages and the page wrappers are not part of this model.
