/** The shared record and enumeration types of the OMR checker (types.ts). */
module Types {

  /** An absent-or-present value: `T | null` and `T | undefined` in the source. */
  datatype Optional<+T> = None | Some(value: T)

  /** A bubble on the sheet: exactly the closed set A..E. */
  datatype Option = A | B | C | D | E

  /** The string the source uses for each option. */
  function Label(o: Option): (s: string)
    ensures |s| == 1
  {
    match o
    case A => "A"
    case B => "B"
    case C => "C"
    case D => "D"
    case E => "E"
  }

  /** Reads a string back as an option; every other string is not one. */
  function ParseOption(s: string): (r: Optional<Option>)
    ensures r.Some? ==> Label(r.value) == s
  {
    if s == "A" then Some(A)
    else if s == "B" then Some(B)
    else if s == "C" then Some(C)
    else if s == "D" then Some(D)
    else if s == "E" then Some(E)
    else None
  }

  /** Label and ParseOption are inverse: a string names an option iff it is that option's label. */
  lemma ParseOptionIff(s: string, o: Option)
    ensures ParseOption(s) == Some(o) <==> s == Label(o)
  {
    match o
    case A =>
    case B =>
    case C =>
    case D =>
    case E =>
  }

  /** The two extra markers a detection may carry besides an option. */
  const MULTIPLE: string := "MULTIPLE"
  const NONE: string := "NONE"

  /** The markers are not option labels, so neither can ever equal a correct option. */
  lemma MarkersAreNotOptions(o: Option)
    ensures Label(o) != MULTIPLE && Label(o) != NONE && Label(o) != ""
  {
    assert |Label(o)| == 1;
  }

  /** The declared range of a detected option: `Option | 'MULTIPLE' | 'NONE'`. */
  predicate IsDeclaredDetection(s: string)
  {
    ParseOption(s).Some? || s == MULTIPLE || s == NONE
  }

  /** One answer-key entry. */
  datatype Question = Question(id: int, correctOption: Option)

  /** The graded outcome for one key question. The detected option is whatever string the
      recognition service returned (or NONE); the declared type is not enforced at run time. */
  datatype ScanResult = ScanResult(questionId: int, detectedOption: string, isCorrect: bool)

  /** A graded report: per-question results, the score, the question count and the raw response. */
  datatype OMRData = OMRData(results: seq<ScanResult>, totalScore: int, totalQuestions: int, rawJson: Optional<string>)

  /** The three screens of the workflow. */
  datatype AppState = SETUP | SCANNING | RESULTS
}
