# OMR answer-sheet checker: workflow, answer key and grading

This project is a Dafny model of the deterministic core of a small React client. The client photographs a
multiple-choice answer sheet and has an external vision model read the bubbles. It then grades
the detections against an answer key and shows the score. The model covers four parts:

- `types.dfy` (module `Types`): the declared types. These are the closed option set A..E, a
  question, a per-question scan result, the graded report (`OMRData`) and the three
  application states.
- `answer_key_config.dfy` (module `AnswerKeyConfig`): the answer-key editor. Its three
  handlers are pure functions from key to key. The lemmas show what each one changes and
  what it keeps, and that keys numbered 1..n stay numbered that way.
- `omr_scanner.dfy` (module `OMRScanner`): the grading of a recognition response. For each key
  question, the first detection for it is found, a missing or empty option becomes `NONE`,
  the detected string is compared with the key's option, and the correct results are counted.
  The module also models the `isProcessing`/`error` guard around one capture attempt as the
  class `Scanner`.
- `app.dfy` (module `App`): the starting key and the class `AppController`. That class holds
  the screen, the key and the last report. Its invariant says that the results screen always
  has a report and that the key is non-empty and numbered 1..n. The transition handlers
  never touch the key.

Behaviour of the code worth noting, which the model follows:

- Going back to the setup screen does not discard the report. This holds for both
  `handleEditKey` and the floating button. Only `handleReset` clears it.
- The detected option is whatever string the service returned; the code does not restrict
  it to `Option | 'MULTIPLE' | 'NONE'`. It is modelled as a `string`, and
  `GradeStaysDeclared` states when the declared range does hold.
- Nothing cancels a recognition call that is still running, and no session token is
  compared when it finishes.
- No timeout is applied to the call.
- Question ids are not arbitrary. From the starting key on, the editor keeps them exactly 1..n.

## Model

| member | source | states |
|---|---|---|
| `Types.Label` | types.ts:2 | every option is written as a one-letter string |
| `Types.ParseOption` | types.ts:2 | a string that reads as an option is exactly that option's label |
| `Types.ParseOptionIff` | types.ts:2 | a string reads as option o iff it is o's label, so A..E is a closed set |
| `Types.MarkersAreNotOptions` | types.ts:11 | `MULTIPLE`, `NONE` and the empty string are not option labels |
| `AnswerKeyConfig.SetOption` | components/AnswerKeyConfig.tsx:14-18 | an option change keeps the key's length and every question's id in place, and every question carrying the id gets the new option |
| `AnswerKeyConfig.AddQuestion` | components/AnswerKeyConfig.tsx:21-23 | adding grows the key by one and keeps the old key as its prefix |
| `AnswerKeyConfig.RemoveQuestion` | components/AnswerKeyConfig.tsx:25-29 | removing yields a prefix of the key and never empties a non-empty key |
| `AnswerKeyConfig.CorrectOptionOf` | components/AnswerKeyConfig.tsx:15-16 | looking up an id finds nothing iff no question carries that id |
| `AnswerKeyConfig.SetOptionTail` | components/AnswerKeyConfig.tsx:15-17 | the map works element by element: changing then dropping the head equals dropping then changing |
| `AnswerKeyConfig.SetOptionLookupSame` | components/AnswerKeyConfig.tsx:14-18 | after a change, the changed id answers the new option if present, and is still absent otherwise |
| `AnswerKeyConfig.SetOptionLookupOther` | components/AnswerKeyConfig.tsx:14-18 | after a change, every other id answers what it answered before |
| `AnswerKeyConfig.SetOptionAbsent` | components/AnswerKeyConfig.tsx:15-17 | a change for an id not in the key returns the key unchanged |
| `AnswerKeyConfig.SetOptionLastWins` | components/AnswerKeyConfig.tsx:14-18 | two changes for one id amount to the second one alone |
| `AnswerKeyConfig.SetOptionKeepsOthers` | components/AnswerKeyConfig.tsx:15-17 | a question with another id is carried over unchanged at its position |
| `AnswerKeyConfig.AddThenRemove` | components/AnswerKeyConfig.tsx:21-28 | on a non-empty key, removing undoes adding |
| `AnswerKeyConfig.RemoveQuestionEffect` | components/AnswerKeyConfig.tsx:25-29 | with more than one question, removing drops exactly one; otherwise the key is unchanged |
| `AnswerKeyConfig.AddQuestionAppends` | components/AnswerKeyConfig.tsx:22 | the appended question has id length+1 and answer A |
| `AnswerKeyConfig.SetOptionKeepsNumbering` | components/AnswerKeyConfig.tsx:15-16 | ids 1..n stay 1..n after an option change |
| `AnswerKeyConfig.AddQuestionKeepsNumbering` | components/AnswerKeyConfig.tsx:22 | ids 1..n become 1..n+1 after an add |
| `AnswerKeyConfig.RemoveQuestionKeepsNumbering` | components/AnswerKeyConfig.tsx:26-27 | ids 1..n stay numbered from 1 after a remove, whether or not it is refused |
| `AnswerKeyConfig.WellNumberedLookup` | components/AnswerKeyConfig.tsx:15-16 | in a key numbered 1..n, id k is present iff 1 <= k <= n, and it answers the k-th entry's option |
| `AnswerKeyConfig.FirstOptionAt` | components/AnswerKeyConfig.tsx:15-16 | the first question carrying an id decides the lookup |
| `OMRScanner.FindDetection` | components/OMRScanner.tsx:65 | `find` fails iff no detection has that number; otherwise it returns a detection from the list with that number |
| `OMRScanner.DetectedOption` | components/OMRScanner.tsx:65-66 | the detected option is never the empty string |
| `OMRScanner.GradeQuestion` | components/OMRScanner.tsx:64-71 | a result carries the key question's id and a non-empty detected string, and is correct iff that string reads as the key's option |
| `OMRScanner.GradeResults` | components/OMRScanner.tsx:64-72 | one result per key question |
| `OMRScanner.CorrectResults` | components/OMRScanner.tsx:74 | the filter keeps only correct results taken from the list, so there are at most as many as results |
| `OMRScanner.Grade` | components/OMRScanner.tsx:64-81 | the report has one result per key question, `totalQuestions` is the key length, `0 <= totalScore <= totalQuestions`, and the raw response is attached |
| `OMRScanner.FindDetectionFirst` | components/OMRScanner.tsx:65 | the first detection with the number is the one used, whatever follows it |
| `OMRScanner.GradeFollowsKey` | components/OMRScanner.tsx:64-79 | the report is consistent, and result i answers key question i |
| `OMRScanner.GradeUsesFirstDetection` | components/OMRScanner.tsx:65-70 | with several detections for a question, the first one's option is reported and graded |
| `OMRScanner.GradeMissingIsNone` | components/OMRScanner.tsx:65-70 | a question with no detection is reported as `NONE` and incorrect |
| `OMRScanner.GradeBlankIsNone` | components/OMRScanner.tsx:65-70 | a question whose first detection has an empty option is reported as `NONE` and incorrect |
| `OMRScanner.GradeCorrectIff` | components/OMRScanner.tsx:70 | a result is correct iff its detected string reads as the key's option; `MULTIPLE`, `NONE` and undeclared strings are never correct |
| `OMRScanner.FindDetectionSkipsOther` | components/OMRScanner.tsx:65 | inserting a detection for another number anywhere does not change what `find` returns |
| `OMRScanner.GradeIgnoresUnknownQuestion` | components/OMRScanner.tsx:64-65 | a detection whose number matches no key id has no effect on the report |
| `OMRScanner.GradeStaysDeclared` | components/OMRScanner.tsx:66 | the reported options stay among the options, `MULTIPLE` and `NONE` when the service only sent such strings (or empty ones) |
| `OMRScanner.CorrectResultsAppend` | components/OMRScanner.tsx:74 | filtering a concatenation is concatenating the filtered parts |
| `OMRScanner.CorrectIndicesSnoc` | components/OMRScanner.tsx:74 | a result appended to the list adds its position to the correct positions iff it is correct |
| `OMRScanner.CorrectResultsCount` | components/OMRScanner.tsx:74 | the filter's length is the number of indices whose result is correct |
| `OMRScanner.CorrectResultsAll` | components/OMRScanner.tsx:74 | the filter keeps every result iff every result is correct |
| `OMRScanner.GradeScore` | components/OMRScanner.tsx:74-79 | `totalScore` counts the correct results, and equals `totalQuestions` iff every answer is correct |
| `OMRScanner.GradeScoreSplits` | components/OMRScanner.tsx:64-74 | the score of a key split in two parts is the sum of the parts' scores |
| `OMRScanner.ExampleMixed` | components/OMRScanner.tsx:64-79 | key A,B,C against detections A,C,NONE gives correct, incorrect, incorrect and score 1 |
| `OMRScanner.ExampleEmptyResponse` | components/OMRScanner.tsx:64-79 | an empty response grades a one-question key as `NONE`, incorrect, score 0 |
| `OMRScanner.ExampleMultiple` | components/OMRScanner.tsx:64-79 | `MULTIPLE` is incorrect and an omitted question defaults to `NONE`; score 0 |
| `OMRScanner.Scanner.constructor` | components/OMRScanner.tsx:15-16 | the scanner starts idle with no error, holding its answer key |
| `OMRScanner.Scanner.StartCamera` | components/OMRScanner.tsx:30-31 | a refused camera sets the camera error and nothing else |
| `OMRScanner.Scanner.CaptureAndScan` | components/OMRScanner.tsx:45-88 | as written: a request while processing (or unmounted) changes nothing; an attempt clears the error; success hands the graded report on; failure sets the error and hands nothing on; `isProcessing` is cleared only when a drawing context existed |
| `OMRScanner.Scanner.CaptureAndScanCorrected` | components/OMRScanner.tsx:45-88 | the same guard with `isProcessing` cleared after every attempt that passed the guard |
| `OMRScanner.StuckAfterMissingContext` | components/OMRScanner.tsx:55-87 | as written, after an attempt with no drawing context, a later successful recognition produces no report and the scanner stays processing |
| `OMRScanner.RecoversAfterMissingContext` | components/OMRScanner.tsx:55-87 | with the correction, the same sequence grades the second attempt and ends idle |
| `App.InitialQuestionsWellNumbered` | App.tsx:9-20 | the starting key has ten questions numbered 1..10 in order |
| `App.AppController.constructor` | App.tsx:23-25 | the app starts on the setup screen with the starting key and no report, in a valid state |
| `App.AppController.HandleStartScanning` | App.tsx:27-29 | moves to scanning; key and report unchanged; invariant kept |
| `App.AppController.HandleScanComplete` | App.tsx:31-34 | stores the report and moves to results; key unchanged; invariant kept |
| `App.AppController.HandleReset` | App.tsx:36-39 | clears the report and moves to scanning; key unchanged; invariant kept |
| `App.AppController.HandleEditKey` | App.tsx:41-43 | moves to setup and keeps the report; key unchanged; invariant kept |
| `App.AppController.FloatingEditKey` | App.tsx:100-103 | the floating button moves to setup and keeps the report; key unchanged; invariant kept |
| `App.AppController.ChangeOption` | App.tsx:76-79 | on the setup screen the editor's option change replaces the key; ids stay 1..n |
| `App.AppController.AddQuestionToKey` | App.tsx:76-79 | on the setup screen the editor's add replaces the key; ids stay 1..n |
| `App.AppController.RemoveQuestionFromKey` | App.tsx:76-79 | on the setup screen the editor's remove replaces the key; it never becomes empty |
| `App.Session` | App.tsx:27-43 | after scan, report, back through the floating button and three edits, the app is on setup with ten questions and still holds the old report |

## Findings

| source | as written | input that shows it | evidently intended | confidence | as-written member | corrected member |
|---|---|---|---|---|---|---|
| components/OMRScanner.tsx:57-87 | `setIsProcessing(false)` sits in a `finally` inside `if (ctx)`, so an attempt where `getContext('2d')` returns null leaves `isProcessing` true | one capture where the canvas yields no 2D context, then any further capture | every attempt that set `isProcessing` clears it again, so the scan button becomes usable | medium; not executed | `OMRScanner.StuckAfterMissingContext` | `OMRScanner.Scanner.CaptureAndScanCorrected` |

## Left out

- Camera acquisition, stream teardown and frame capture are browser device I/O
  (components/OMRScanner.tsx:19-43, 51-59). They are reduced to three inputs: `mounted` (both
  element refs are set), `hasContext` (a 2D context is available) and `StartCamera(granted)`
  (only its effect on `error`).
- The recognition service (services/omrService.ts) is a remote model call with prompt text and
  `JSON.parse`. Its settled outcome is the parameter `Recognition`: the detections plus the
  serialised response, or a failure. `JSON.stringify` is not modelled; the serialised text
  arrives with the outcome.
- Asynchrony is modelled sequentially. An attempt is one method call from the guard to the
  `finally`. Interleavings are not modelled, including a response that arrives after the
  scanner screen has been left (the code would still call `onResult`).
- React state updates are batched and asynchronous; here they are immediate field assignments.
- JavaScript numbers are modelled as integers. `NaN`, fractional ids and non-number `q` values
  are not modelled, and `===` on numbers is integer equality.
- A detection whose `o` is missing or null is represented by the empty string, which is
  falsy like them. A truthy non-string `o` is not modelled.
- components/ResultsDashboard.tsx is left out: its percentage and ring offset are
  floating-point display arithmetic, and its "incorrect" count is `totalQuestions - totalScore`,
  which `Grade`'s bounds keep non-negative. components/Layout.tsx, all JSX and styling, and the
  unused `countdown` state are presentation only.
- `App.AppController.HandleScanComplete` accepts any report, as the handler does. The
  invariant therefore only requires that a report exists on the results screen. It does not
  require the report to be consistent; that is proved of `Grade` itself.
