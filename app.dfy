/** The top-level workflow (App.tsx): three screens, the answer key and the last report. */
module App {
  import opened Types
  import opened AnswerKeyConfig

  /** The key the application starts with: ten questions cycling A, B, C, D. */
  const INITIAL_QUESTIONS: seq<Question> := [
    Question(1, A), Question(2, B), Question(3, C), Question(4, D), Question(5, A),
    Question(6, B), Question(7, C), Question(8, D), Question(9, A), Question(10, B)
  ]

  /** The starting key has ten questions numbered 1..10 in order. */
  lemma InitialQuestionsWellNumbered()
    ensures |INITIAL_QUESTIONS| == 10 && WellNumbered(INITIAL_QUESTIONS)
  {
  }

  /** The App component's three state fields and the handlers that overwrite them. */
  class AppController {
    var appState: AppState
    var questions: seq<Question>
    var scanResult: Optional<OMRData>

    /** The results screen always has a report to show, and the key is non-empty and numbered
        1..n. */
    ghost predicate Valid()
      reads this
    {
      (appState == RESULTS ==> scanResult.Some?) &&
      |questions| >= 1 && WellNumbered(questions)
    }

    /** The initial state: the setup screen, the default key, no report. */
    constructor ()
      ensures Valid()
      ensures appState == SETUP && questions == INITIAL_QUESTIONS && scanResult == None
    {
      appState := SETUP;
      questions := INITIAL_QUESTIONS;
      scanResult := None;
      InitialQuestionsWellNumbered();
    }

    /** `handleStartScanning`: to the scanner screen. */
    method HandleStartScanning()
      requires Valid()
      modifies this
      ensures Valid()
      ensures appState == SCANNING
      ensures questions == old(questions) && scanResult == old(scanResult)
    {
      appState := SCANNING;
    }

    /** `handleScanComplete(data)`: keep the report and show it. */
    method HandleScanComplete(data: OMRData)
      requires Valid()
      modifies this
      ensures Valid()
      ensures appState == RESULTS && scanResult == Some(data)
      ensures questions == old(questions)
    {
      scanResult := Some(data);
      appState := RESULTS;
    }

    /** `handleReset`: drop the report and scan again. */
    method HandleReset()
      requires Valid()
      modifies this
      ensures Valid()
      ensures appState == SCANNING && scanResult == None
      ensures questions == old(questions)
    {
      scanResult := None;
      appState := SCANNING;
    }

    /** `handleEditKey` (the scanner's back button): to the setup screen. The report is kept. */
    method HandleEditKey()
      requires Valid()
      modifies this
      ensures Valid()
      ensures appState == SETUP
      ensures questions == old(questions) && scanResult == old(scanResult)
    {
      appState := SETUP;
    }

    /** The floating button on the results screen: to the setup screen. The report is kept. */
    method FloatingEditKey()
      requires Valid()
      modifies this
      ensures Valid()
      ensures appState == SETUP
      ensures questions == old(questions) && scanResult == old(scanResult)
    {
      appState := SETUP;
    }

    /** The editor's `handleOptionChange` passed through `onUpdate`; the editor is only shown on
        the setup screen. */
    method ChangeOption(qId: int, option: Option)
      requires Valid() && appState == SETUP
      modifies this
      ensures Valid()
      ensures questions == SetOption(old(questions), qId, option)
      ensures appState == old(appState) && scanResult == old(scanResult)
    {
      SetOptionKeepsNumbering(questions, qId, option);
      questions := SetOption(questions, qId, option);
    }

    /** The editor's `addQuestion` passed through `onUpdate`. */
    method AddQuestionToKey()
      requires Valid() && appState == SETUP
      modifies this
      ensures Valid()
      ensures questions == AddQuestion(old(questions))
      ensures appState == old(appState) && scanResult == old(scanResult)
    {
      AddQuestionKeepsNumbering(questions);
      questions := AddQuestion(questions);
    }

    /** The editor's `removeQuestion` passed through `onUpdate` (or not passed at all when only
        one question is left, which leaves the key the same). */
    method RemoveQuestionFromKey()
      requires Valid() && appState == SETUP
      modifies this
      ensures Valid()
      ensures questions == RemoveQuestion(old(questions))
      ensures appState == old(appState) && scanResult == old(scanResult)
    {
      RemoveQuestionKeepsNumbering(questions);
      if |questions| > 1 {
        questions := RemoveQuestion(questions);
      }
    }
  }

  /** A session through the handlers: scan, report, back to setup through the floating button,
      then add, remove and change a question. The key ends with ten questions again, and the
      report from before the edits is still held after the key has changed. */
  method Session(data: OMRData) returns (state: AppState, keySize: int, kept: Optional<OMRData>)
    ensures state == SETUP && keySize == 10 && kept == Some(data)
  {
    var app := new AppController();
    app.HandleStartScanning();
    app.HandleScanComplete(data);
    app.FloatingEditKey();
    app.AddQuestionToKey();
    app.RemoveQuestionFromKey();
    app.ChangeOption(3, E);
    state, keySize, kept := app.appState, |app.questions|, app.scanResult;
  }
}
