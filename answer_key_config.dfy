/** The answer-key editor (components/AnswerKeyConfig.tsx). Each handler builds a new key
    from the current one and hands it to `onUpdate`; here each is a function from key to key. */
module AnswerKeyConfig {
  import opened Types

  /** `handleOptionChange`: every question carrying `qId` gets `option`; nothing else changes. */
  function SetOption(questions: seq<Question>, qId: int, option: Option): (r: seq<Question>)
    ensures |r| == |questions|
    ensures forall i :: 0 <= i < |r| ==> r[i].id == questions[i].id
    ensures forall i :: 0 <= i < |r| && questions[i].id == qId ==> r[i].correctOption == option
  {
    seq(|questions|, i requires 0 <= i < |questions| =>
      if questions[i].id == qId then questions[i].(correctOption := option) else questions[i])
  }

  /** `addQuestion`: appends a question numbered one past the current length, answer A. */
  function AddQuestion(questions: seq<Question>): (r: seq<Question>)
    ensures |r| == |questions| + 1
    ensures r[..|questions|] == questions
  {
    questions + [Question(|questions| + 1, A)]
  }

  /** `removeQuestion`: drops the last question, but only when more than one remains. */
  function RemoveQuestion(questions: seq<Question>): (r: seq<Question>)
    ensures |questions| >= 1 ==> |r| >= 1
    ensures |r| <= |questions| && r == questions[..|r|]
  {
    if |questions| > 1 then questions[..|questions| - 1] else questions
  }

  /** The key's ids are exactly 1..n in order. */
  predicate WellNumbered(questions: seq<Question>)
  {
    forall i :: 0 <= i < |questions| ==> questions[i].id == i + 1
  }

  /** The correct option of the first question carrying `id`, if any. */
  function CorrectOptionOf(questions: seq<Question>, id: int): (r: Optional<Option>)
    ensures r.None? <==> forall i :: 0 <= i < |questions| ==> questions[i].id != id
  {
    if |questions| == 0 then None
    else if questions[0].id == id then Some(questions[0].correctOption)
    else CorrectOptionOf(questions[1..], id)
  }

  /** Setting an option keeps the tail aligned: SetOption commutes with dropping the head. */
  lemma SetOptionTail(questions: seq<Question>, qId: int, option: Option)
    requires |questions| > 0
    ensures SetOption(questions, qId, option)[1..] == SetOption(questions[1..], qId, option)
  {
    var r, t := SetOption(questions, qId, option), SetOption(questions[1..], qId, option);
    assert |r[1..]| == |t|;
    forall i | 0 <= i < |t| ensures r[1..][i] == t[i] {
      assert r[1..][i] == r[i + 1];
    }
  }

  /** After `handleOptionChange(qId, option)` the key answers `option` for `qId` when the id is
      present, and still has no entry for it when it is absent. */
  lemma {:induction false} SetOptionLookupSame(questions: seq<Question>, qId: int, option: Option)
    ensures CorrectOptionOf(SetOption(questions, qId, option), qId) ==
            if CorrectOptionOf(questions, qId).Some? then Some(option) else None
    decreases |questions|
  {
    if |questions| > 0 {
      SetOptionTail(questions, qId, option);
      SetOptionLookupSame(questions[1..], qId, option);
    }
  }

  /** `handleOptionChange(qId, ...)` leaves the answer for every other id as it was. */
  lemma {:induction false} SetOptionLookupOther(questions: seq<Question>, qId: int, option: Option, other: int)
    requires other != qId
    ensures CorrectOptionOf(SetOption(questions, qId, option), other) == CorrectOptionOf(questions, other)
    decreases |questions|
  {
    if |questions| > 0 {
      SetOptionTail(questions, qId, option);
      SetOptionLookupOther(questions[1..], qId, option, other);
    }
  }

  /** An id that is not in the key leaves the key exactly as it was. */
  lemma SetOptionAbsent(questions: seq<Question>, qId: int, option: Option)
    requires forall i :: 0 <= i < |questions| ==> questions[i].id != qId
    ensures SetOption(questions, qId, option) == questions
  {
  }

  /** Only the last choice for an id matters: a second change overrides the first. */
  lemma SetOptionLastWins(questions: seq<Question>, qId: int, first: Option, second: Option)
    ensures SetOption(SetOption(questions, qId, first), qId, second) == SetOption(questions, qId, second)
  {
  }

  /** Questions whose id differs from `qId` are carried over unchanged, in place. */
  lemma SetOptionKeepsOthers(questions: seq<Question>, qId: int, option: Option, i: int)
    requires 0 <= i < |questions| && questions[i].id != qId
    ensures SetOption(questions, qId, option)[i] == questions[i]
  {
  }

  /** Adding and then removing a question gives back the key it started from. */
  lemma AddThenRemove(questions: seq<Question>)
    requires |questions| >= 1
    ensures RemoveQuestion(AddQuestion(questions)) == questions
  {
    assert AddQuestion(questions)[..|questions|] == questions;
  }

  /** Removing drops exactly the last question when more than one remains, and refuses otherwise. */
  lemma RemoveQuestionEffect(questions: seq<Question>)
    ensures |questions| > 1 ==> |RemoveQuestion(questions)| == |questions| - 1
    ensures |questions| <= 1 ==> RemoveQuestion(questions) == questions
  {
  }

  /** The appended question is numbered one past the old length and answers A. */
  lemma AddQuestionAppends(questions: seq<Question>)
    ensures AddQuestion(questions)[|questions|] == Question(|questions| + 1, A)
  {
  }

  /** Ids 1..n survive an option change. */
  lemma SetOptionKeepsNumbering(questions: seq<Question>, qId: int, option: Option)
    requires WellNumbered(questions)
    ensures WellNumbered(SetOption(questions, qId, option))
  {
  }

  /** Ids 1..n become 1..n+1 after an add. */
  lemma AddQuestionKeepsNumbering(questions: seq<Question>)
    requires WellNumbered(questions)
    ensures WellNumbered(AddQuestion(questions))
  {
  }

  /** Ids 1..n become 1..n-1 after a remove (or stay 1..1 when it is refused). */
  lemma RemoveQuestionKeepsNumbering(questions: seq<Question>)
    requires WellNumbered(questions)
    ensures WellNumbered(RemoveQuestion(questions))
  {
  }

  /** In a well-numbered key, id k has an answer iff 1 <= k <= n, and it is the k-th entry's. */
  lemma {:induction false} WellNumberedLookup(questions: seq<Question>, id: int)
    requires WellNumbered(questions)
    ensures CorrectOptionOf(questions, id).Some? <==> 1 <= id <= |questions|
    ensures 1 <= id <= |questions| ==> CorrectOptionOf(questions, id) == Some(questions[id - 1].correctOption)
  {
    if 1 <= id <= |questions| {
      FirstOptionAt(questions, id, id - 1);
    }
  }

  /** The first question carrying `id` decides the lookup. */
  lemma {:induction false} FirstOptionAt(questions: seq<Question>, id: int, k: int)
    requires 0 <= k < |questions| && questions[k].id == id
    requires forall j :: 0 <= j < k ==> questions[j].id != id
    ensures CorrectOptionOf(questions, id) == Some(questions[k].correctOption)
    decreases k
  {
    if k > 0 {
      FirstOptionAt(questions[1..], id, k - 1);
    }
  }
}
