/** The scanner screen (components/OMRScanner.tsx): the grading of a recognition response against
    the answer key, and the `isProcessing`/`error` guard around one capture attempt. The camera,
    the frame capture and the recognition call itself are outside the model; the call's outcome
    arrives as a `Recognition` value. */
module OMRScanner {
  import opened Types

  /** One entry of the service's `detectedAnswers`: question number `q`, detected option `o`. */
  datatype Detection = Detection(q: int, o: string)

  /** How the awaited recognition call settled: the parsed detections together with the
      serialised response, or a rejection (service, parse or schema failure). */
  datatype Recognition = Recognized(detections: seq<Detection>, rawJson: string) | RecognitionFailed

  // ---------------------------------------------------------------------------------------------
  // Grading

  /** `detectedAnswers.find(da => da.q === id)`: the first detection for `id` in list order. */
  function FindDetection(ds: seq<Detection>, id: int): (r: Optional<Detection>)
    ensures r.None? <==> forall j :: 0 <= j < |ds| ==> ds[j].q != id
    ensures r.Some? ==> r.value in ds && r.value.q == id
  {
    if |ds| == 0 then None
    else if ds[0].q == id then Some(ds[0])
    else FindDetection(ds[1..], id)
  }

  /** `detected?.o || 'NONE'`: a missing detection or an empty option string reads as NONE. */
  function DetectedOption(ds: seq<Detection>, id: int): (s: string)
    ensures s != ""
  {
    match FindDetection(ds, id)
    case None => NONE
    case Some(d) => if d.o == "" then NONE else d.o
  }

  /** The `answerKey.map` callback: the result for one key question carries its id and the
      detected string, and is correct iff that string reads as the key's option. */
  function GradeQuestion(q: Question, ds: seq<Detection>): (r: ScanResult)
    ensures r.questionId == q.id && r.detectedOption != ""
    ensures r.isCorrect <==> ParseOption(r.detectedOption) == Some(q.correctOption)
  {
    var detected := DetectedOption(ds, q.id);
    ParseOptionIff(detected, q.correctOption);
    ScanResult(q.id, detected, detected == Label(q.correctOption))
  }

  /** `answerKey.map(...)`: one result per key question, in key order. */
  function GradeResults(key: seq<Question>, ds: seq<Detection>): (rs: seq<ScanResult>)
    ensures |rs| == |key|
  {
    seq(|key|, i requires 0 <= i < |key| => GradeQuestion(key[i], ds))
  }

  /** `results.filter(r => r.isCorrect)`: the correct results, in order. */
  function CorrectResults(rs: seq<ScanResult>): (cs: seq<ScanResult>)
    ensures |cs| <= |rs|
    ensures forall c :: c in cs ==> c in rs && c.isCorrect
  {
    if |rs| == 0 then []
    else (if rs[0].isCorrect then [rs[0]] else []) + CorrectResults(rs[1..])
  }

  /** The report handed to `onResult` for a key and a successful recognition. */
  function Grade(key: seq<Question>, ds: seq<Detection>, rawJson: string): (d: OMRData)
    ensures |d.results| == d.totalQuestions == |key|
    ensures 0 <= d.totalScore <= d.totalQuestions
    ensures d.rawJson == Some(rawJson)
  {
    var results := GradeResults(key, ds);
    OMRData(results, |CorrectResults(results)|, |key|, Some(rawJson))
  }

  /** The invariants a graded report keeps: the score counts the correct results, and there is
      one result per question. */
  predicate ConsistentReport(d: OMRData)
  {
    d.totalScore == |CorrectResults(d.results)| && d.totalQuestions == |d.results|
  }

  // ---------------------------------------------------------------------------------------------
  // Grading properties

  /** The first detection carrying `id` is the one `find` returns, whatever follows it. */
  lemma {:induction false} FindDetectionFirst(ds: seq<Detection>, id: int, k: int)
    requires 0 <= k < |ds| && ds[k].q == id
    requires forall j :: 0 <= j < k ==> ds[j].q != id
    ensures FindDetection(ds, id) == Some(ds[k])
    decreases k
  {
    if k > 0 {
      FindDetectionFirst(ds[1..], id, k - 1);
    }
  }

  /** Every report `Grade` builds is consistent, and its results follow the key: the i-th result
      answers the i-th key question. */
  lemma GradeFollowsKey(key: seq<Question>, ds: seq<Detection>, rawJson: string)
    ensures ConsistentReport(Grade(key, ds, rawJson))
    ensures forall i :: 0 <= i < |key| ==> Grade(key, ds, rawJson).results[i].questionId == key[i].id
  {
  }

  /** When several detections share a question number, the first one in list order is graded. */
  lemma GradeUsesFirstDetection(key: seq<Question>, ds: seq<Detection>, rawJson: string, i: int, k: int)
    requires 0 <= i < |key|
    requires 0 <= k < |ds| && ds[k].q == key[i].id && ds[k].o != ""
    requires forall j :: 0 <= j < k ==> ds[j].q != key[i].id
    ensures Grade(key, ds, rawJson).results[i].detectedOption == ds[k].o
    ensures Grade(key, ds, rawJson).results[i].isCorrect <==> ds[k].o == Label(key[i].correctOption)
  {
    FindDetectionFirst(ds, key[i].id, k);
  }

  /** A question with no detection at all is reported as NONE and incorrect. */
  lemma GradeMissingIsNone(key: seq<Question>, ds: seq<Detection>, rawJson: string, i: int)
    requires 0 <= i < |key|
    requires forall j :: 0 <= j < |ds| ==> ds[j].q != key[i].id
    ensures Grade(key, ds, rawJson).results[i] == ScanResult(key[i].id, NONE, false)
  {
    MarkersAreNotOptions(key[i].correctOption);
  }

  /** A question whose first detection carries an empty option string is reported as NONE and
      incorrect, even if a later detection for it carries an option. */
  lemma GradeBlankIsNone(key: seq<Question>, ds: seq<Detection>, rawJson: string, i: int, k: int)
    requires 0 <= i < |key|
    requires 0 <= k < |ds| && ds[k].q == key[i].id && ds[k].o == ""
    requires forall j :: 0 <= j < k ==> ds[j].q != key[i].id
    ensures Grade(key, ds, rawJson).results[i] == ScanResult(key[i].id, NONE, false)
  {
    FindDetectionFirst(ds, key[i].id, k);
    MarkersAreNotOptions(key[i].correctOption);
  }

  /** A result is correct iff its detected string reads back as the key's option; so MULTIPLE,
      NONE and any string outside A..E are never correct. */
  lemma GradeCorrectIff(key: seq<Question>, ds: seq<Detection>, rawJson: string, i: int)
    requires 0 <= i < |key|
    ensures var r := Grade(key, ds, rawJson).results[i];
      r.isCorrect <==> ParseOption(r.detectedOption) == Some(key[i].correctOption)
    ensures var r := Grade(key, ds, rawJson).results[i];
      !IsDeclaredDetection(r.detectedOption) || r.detectedOption == MULTIPLE || r.detectedOption == NONE ==> !r.isCorrect
  {
    var r := Grade(key, ds, rawJson).results[i];
    ParseOptionIff(r.detectedOption, key[i].correctOption);
    MarkersAreNotOptions(key[i].correctOption);
  }

  /** A detection whose question number is not in the key changes nothing, wherever it sits. */
  lemma {:induction false} FindDetectionSkipsOther(pre: seq<Detection>, d: Detection, post: seq<Detection>, id: int)
    requires d.q != id
    ensures FindDetection(pre + [d] + post, id) == FindDetection(pre + post, id)
    decreases |pre|
  {
    if |pre| == 0 {
      assert pre + [d] + post == [d] + post;
      assert ([d] + post)[1..] == post;
      assert pre + post == post;
    } else {
      assert (pre + [d] + post)[1..] == pre[1..] + [d] + post;
      assert (pre + post)[1..] == pre[1..] + post;
      FindDetectionSkipsOther(pre[1..], d, post, id);
    }
  }

  /** Detections for numbers that match no key id have no effect on the report. */
  lemma GradeIgnoresUnknownQuestion(key: seq<Question>, pre: seq<Detection>, d: Detection, post: seq<Detection>, rawJson: string)
    requires forall i :: 0 <= i < |key| ==> key[i].id != d.q
    ensures Grade(key, pre + [d] + post, rawJson) == Grade(key, pre + post, rawJson)
  {
    var r1, r2 := GradeResults(key, pre + [d] + post), GradeResults(key, pre + post);
    forall i | 0 <= i < |key| ensures r1[i] == r2[i] {
      FindDetectionSkipsOther(pre, d, post, key[i].id);
    }
    assert r1 == r2;
  }

  /** The detected options stay within the declared `Option | MULTIPLE | NONE` range when
      the service itself only sent declared strings (or empty ones); nothing checks this. */
  lemma GradeStaysDeclared(key: seq<Question>, ds: seq<Detection>, rawJson: string)
    requires forall j :: 0 <= j < |ds| ==> ds[j].o == "" || IsDeclaredDetection(ds[j].o)
    ensures forall i :: 0 <= i < |key| ==> IsDeclaredDetection(Grade(key, ds, rawJson).results[i].detectedOption)
  {
    forall i | 0 <= i < |key|
      ensures IsDeclaredDetection(Grade(key, ds, rawJson).results[i].detectedOption)
    {
      match FindDetection(ds, key[i].id)
      case None =>
      case Some(d) =>
        var j :| 0 <= j < |ds| && ds[j] == d;
    }
  }

  /** The correct results of a concatenation are those of each part, in order. */
  lemma {:induction false} CorrectResultsAppend(a: seq<ScanResult>, b: seq<ScanResult>)
    ensures CorrectResults(a + b) == CorrectResults(a) + CorrectResults(b)
    decreases |a|
  {
    if |a| > 0 {
      assert (a + b)[1..] == a[1..] + b;
      CorrectResultsAppend(a[1..], b);
    } else {
      assert a + b == b;
    }
  }

  /** The positions of the correct results. */
  ghost function CorrectIndices(rs: seq<ScanResult>): set<int>
  {
    set i | 0 <= i < |rs| && rs[i].isCorrect
  }

  /** Appending one result adds its position to the correct positions iff it is correct. */
  lemma CorrectIndicesSnoc(init: seq<ScanResult>, last: ScanResult)
    ensures CorrectIndices(init + [last]) ==
            CorrectIndices(init) + (if last.isCorrect then {|init|} else {})
  {
    var rs := init + [last];
    forall i | 0 <= i < |init| ensures rs[i] == init[i] { }
  }

  /** The score counts exactly the indices whose result is correct. */
  lemma {:induction false} CorrectResultsCount(rs: seq<ScanResult>)
    ensures |CorrectResults(rs)| == |CorrectIndices(rs)|
    decreases |rs|
  {
    if |rs| > 0 {
      var init, last := rs[..|rs| - 1], rs[|rs| - 1];
      assert rs == init + [last];
      CorrectResultsAppend(init, [last]);
      assert CorrectResults([last]) == (if last.isCorrect then [last] else []) + CorrectResults([]);
      CorrectResultsCount(init);
      CorrectIndicesSnoc(init, last);
      assert |init| !in CorrectIndices(init);
    }
  }

  /** Every result is correct iff the filter keeps them all. */
  lemma {:induction false} CorrectResultsAll(rs: seq<ScanResult>)
    ensures |CorrectResults(rs)| == |rs| <==> forall i :: 0 <= i < |rs| ==> rs[i].isCorrect
    decreases |rs|
  {
    if |rs| > 0 {
      CorrectResultsAll(rs[1..]);
      if rs[0].isCorrect && forall i :: 0 <= i < |rs| - 1 ==> rs[1..][i].isCorrect {
        forall i | 0 <= i < |rs| ensures rs[i].isCorrect {
          if i > 0 { assert rs[i] == rs[1..][i - 1]; }
        }
      }
    }
  }

  /** `totalScore` is the number of correct results, and equals `totalQuestions` iff every
      question was answered correctly. */
  lemma GradeScore(key: seq<Question>, ds: seq<Detection>, rawJson: string)
    ensures var d := Grade(key, ds, rawJson);
      d.totalScore == |CorrectIndices(d.results)|
    ensures var d := Grade(key, ds, rawJson);
      d.totalScore == d.totalQuestions <==> forall i :: 0 <= i < |key| ==> d.results[i].isCorrect
  {
    var d := Grade(key, ds, rawJson);
    CorrectResultsCount(d.results);
    CorrectResultsAll(d.results);
  }

  /** Grading a key in two parts and adding the scores gives the score of the whole key. */
  lemma GradeScoreSplits(k1: seq<Question>, k2: seq<Question>, ds: seq<Detection>, rawJson: string)
    ensures Grade(k1 + k2, ds, rawJson).totalScore ==
            Grade(k1, ds, rawJson).totalScore + Grade(k2, ds, rawJson).totalScore
  {
    assert GradeResults(k1 + k2, ds) == GradeResults(k1, ds) + GradeResults(k2, ds);
    CorrectResultsAppend(GradeResults(k1, ds), GradeResults(k2, ds));
  }

  // ---------------------------------------------------------------------------------------------
  // Worked examples

  /** Three questions, one right, one wrong, one detected as NONE: score 1 of 3. */
  lemma ExampleMixed()
    ensures var d := Grade([Question(1, A), Question(2, B), Question(3, C)],
                           [Detection(1, "A"), Detection(2, "C"), Detection(3, NONE)], "");
      d.totalScore == 1 && d.totalQuestions == 3 &&
      d.results == [ScanResult(1, "A", true), ScanResult(2, "C", false), ScanResult(3, NONE, false)]
  {
    var key := [Question(1, A), Question(2, B), Question(3, C)];
    var ds := [Detection(1, "A"), Detection(2, "C"), Detection(3, NONE)];
    FindDetectionFirst(ds, 1, 0);
    FindDetectionFirst(ds, 2, 1);
    FindDetectionFirst(ds, 3, 2);
    var rs := GradeResults(key, ds);
    assert rs == [ScanResult(1, "A", true), ScanResult(2, "C", false), ScanResult(3, NONE, false)];
    assert CorrectResults(rs[2..]) == [] by { assert rs[2..][1..] == []; }
    assert CorrectResults(rs[1..]) == [] by { assert rs[1..][1..] == rs[2..]; }
  }

  /** An empty response against a one-question key: NONE, incorrect, score 0. */
  lemma ExampleEmptyResponse()
    ensures Grade([Question(1, A)], [], "").results == [ScanResult(1, NONE, false)]
    ensures Grade([Question(1, A)], [], "").totalScore == 0
  {
    var rs := GradeResults([Question(1, A)], []);
    assert rs == [ScanResult(1, NONE, false)];
  }

  /** MULTIPLE never matches, and an omitted question defaults to NONE. */
  lemma ExampleMultiple()
    ensures Grade([Question(1, A), Question(2, B)], [Detection(1, MULTIPLE)], "").results ==
            [ScanResult(1, MULTIPLE, false), ScanResult(2, NONE, false)]
    ensures Grade([Question(1, A), Question(2, B)], [Detection(1, MULTIPLE)], "").totalScore == 0
  {
    var key, ds := [Question(1, A), Question(2, B)], [Detection(1, MULTIPLE)];
    FindDetectionFirst(ds, 1, 0);
    var rs := GradeResults(key, ds);
    assert rs == [ScanResult(1, MULTIPLE, false), ScanResult(2, NONE, false)];
    assert CorrectResults(rs[1..]) == [] by { assert rs[1..][1..] == []; }
  }

  // ---------------------------------------------------------------------------------------------
  // The capture guard

  const CAMERA_ERROR: string := "Could not access camera. Please ensure permissions are granted."
  const RECOGNITION_ERROR: string := "Recognition failed. Please ensure the sheet is well-lit and fully visible."

  /** The scanner component's state: its answer-key prop and the two state fields. */
  class Scanner {
    const answerKey: seq<Question>
    var isProcessing: bool
    var error: Optional<string>

    constructor (answerKey: seq<Question>)
      ensures this.answerKey == answerKey && !isProcessing && error == None
    {
      this.answerKey := answerKey;
      isProcessing := false;
      error := None;
    }

    /** The camera request on mount: a refusal only sets the error banner. */
    method StartCamera(granted: bool)
      modifies this
      ensures isProcessing == old(isProcessing)
      ensures error == if granted then old(error) else Some(CAMERA_ERROR)
    {
      if !granted {
        error := Some(CAMERA_ERROR);
      }
    }

    /** `captureAndScan`, as written. `mounted` stands for both element refs being set,
        `hasContext` for `getContext('2d')` returning a context, and `outcome` for how the
        recognition call settles. The returned report is what `onResult` receives, if called. */
    method CaptureAndScan(mounted: bool, hasContext: bool, outcome: Recognition) returns (report: Optional<OMRData>)
      modifies this
      ensures !mounted || old(isProcessing) ==>
        report == None && isProcessing == old(isProcessing) && error == old(error)
      ensures mounted && !old(isProcessing) && !hasContext ==>
        report == None && isProcessing && error == None
      ensures mounted && !old(isProcessing) && hasContext ==> !isProcessing
      ensures mounted && !old(isProcessing) && hasContext && outcome.Recognized? ==>
        report == Some(Grade(answerKey, outcome.detections, outcome.rawJson)) && error == None
      ensures mounted && !old(isProcessing) && hasContext && outcome.RecognitionFailed? ==>
        report == None && error == Some(RECOGNITION_ERROR)
    {
      report := None;
      if !mounted || isProcessing {
        return;
      }
      isProcessing := true;
      error := None;
      if hasContext {
        match outcome {
          case Recognized(ds, rawJson) =>
            report := Some(Grade(answerKey, ds, rawJson));
          case RecognitionFailed =>
            error := Some(RECOGNITION_ERROR);
        }
        isProcessing := false;
      }
    }

    /** `captureAndScan` with the `finally` reset applying to every attempt that passed the
        guard, including one with no drawing context. */
    method CaptureAndScanCorrected(mounted: bool, hasContext: bool, outcome: Recognition) returns (report: Optional<OMRData>)
      modifies this
      ensures !mounted || old(isProcessing) ==>
        report == None && isProcessing == old(isProcessing) && error == old(error)
      ensures mounted && !old(isProcessing) ==> !isProcessing
      ensures mounted && !old(isProcessing) && !hasContext ==> report == None && error == None
      ensures mounted && !old(isProcessing) && hasContext && outcome.Recognized? ==>
        report == Some(Grade(answerKey, outcome.detections, outcome.rawJson)) && error == None
      ensures mounted && !old(isProcessing) && hasContext && outcome.RecognitionFailed? ==>
        report == None && error == Some(RECOGNITION_ERROR)
    {
      report := None;
      if !mounted || isProcessing {
        return;
      }
      isProcessing := true;
      error := None;
      if hasContext {
        match outcome {
          case Recognized(ds, rawJson) =>
            report := Some(Grade(answerKey, ds, rawJson));
          case RecognitionFailed =>
            error := Some(RECOGNITION_ERROR);
        }
      }
      isProcessing := false;
    }
  }

  /** As written, one attempt without a drawing context leaves `isProcessing` set until the
      scanner screen is left: a later attempt whose recognition would succeed is ignored and
      produces no report. */
  method StuckAfterMissingContext(key: seq<Question>, ds: seq<Detection>) returns (report: Optional<OMRData>, processing: bool)
    ensures report == None && processing
  {
    var scanner := new Scanner(key);
    var first := scanner.CaptureAndScan(true, false, RecognitionFailed);
    report := scanner.CaptureAndScan(true, true, Recognized(ds, ""));
    processing := scanner.isProcessing;
  }

  /** With the reset in place, the same sequence recovers: the second attempt is graded. */
  method RecoversAfterMissingContext(key: seq<Question>, ds: seq<Detection>) returns (report: Optional<OMRData>, processing: bool)
    ensures report == Some(Grade(key, ds, "")) && !processing
  {
    var scanner := new Scanner(key);
    var first := scanner.CaptureAndScanCorrected(true, false, RecognitionFailed);
    report := scanner.CaptureAndScanCorrected(true, true, Recognized(ds, ""));
    processing := scanner.isProcessing;
  }
}
