/** What the packer is told from outside the model: clock samples, availability, the answers of the
    appender and of the template writer, and write results. Every answer is arbitrary and is logged in
    the order it is given, so that a request can be judged against the answers it got. */
module Outsides {
  import opened Base
  import opened StateModel
  import opened StateLaws

  datatype Answer =
    | ClockAnswer(wall: nat, mono: nat)
    | AvailableAnswer(available: bool)
    | BeginAnswer(begun: bool)
    | AppendAnswer(ordinal: nat, alone: bool, error: Option<Error>)
    | FinishAnswer(finished: Option<int>, length: nat)
    | EncodeAnswer(written: Option<int>, length: nat)
    | WriteAnswer(template: bool, n: int, length: nat, failed: bool)
    | PreviewBegin(begun: bool)
    | PreviewAppend(ordinal: nat, error: Option<Error>)
    | PreviewFinish(ordinal: nat, passed: bool)

  class Outside {
    ghost var answers: seq<Answer>

    constructor ()
      ensures answers == []
    {
      answers := [];
    }

    method Clock() returns (wall: uint64, mono: uint64)
      modifies this
      ensures answers == old(answers) + [ClockAnswer(wall, mono)]
    {
      wall, mono := *, *;
      answers := answers + [ClockAnswer(wall, mono)];
    }

    method Available() returns (available: bool)
      modifies this
      ensures answers == old(answers) + [AvailableAnswer(available)]
    {
      available := *;
      answers := answers + [AvailableAnswer(available)];
    }

    method Begin() returns (begun: bool)
      modifies this
      ensures answers == old(answers) + [BeginAnswer(begun)]
    {
      begun := *;
      answers := answers + [BeginAnswer(begun)];
    }

    /** `alone` says that the packet held no record yet. */
    method Append(ordinal: nat, ghost alone: bool) returns (error: Option<Error>)
      modifies this
      ensures answers == old(answers) + [AppendAnswer(ordinal, alone, error)]
    {
      error := *;
      answers := answers + [AppendAnswer(ordinal, alone, error)];
    }

    /** `length` is the length the state machine computed for the packet. */
    method Finish(ghost length: nat) returns (finished: Option<int>)
      modifies this
      ensures answers == old(answers) + [FinishAnswer(finished, length)]
    {
      finished := *;
      answers := answers + [FinishAnswer(finished, length)];
    }

    method Encode(length: nat) returns (written: Option<int>)
      modifies this
      ensures answers == old(answers) + [EncodeAnswer(written, length)]
    {
      written := *;
      answers := answers + [EncodeAnswer(written, length)];
    }

    /** The write of a datagram of `length` bytes that holds a template or data. */
    method Write(ghost template: bool, length: nat) returns (n: int, failed: bool)
      modifies this
      ensures answers == old(answers) + [WriteAnswer(template, n, length, failed)]
    {
      n, failed := *, *;
      answers := answers + [WriteAnswer(template, n, length, failed)];
    }

    // The validation appender, on a packet of one record.

    method BeginPreview() returns (begun: bool)
      modifies this
      ensures answers == old(answers) + [PreviewBegin(begun)]
    {
      begun := *;
      answers := answers + [PreviewBegin(begun)];
    }

    method AppendPreview(ordinal: nat) returns (error: Option<Error>)
      modifies this
      ensures answers == old(answers) + [PreviewAppend(ordinal, error)]
    {
      error := *;
      answers := answers + [PreviewAppend(ordinal, error)];
    }

    /** Only success matters. */
    method FinishPreview(ghost ordinal: nat) returns (passed: bool)
      modifies this
      ensures answers == old(answers) + [PreviewFinish(ordinal, passed)]
    {
      passed := *;
      answers := answers + [PreviewFinish(ordinal, passed)];
    }

    ghost method Forget()
      modifies this
      ensures answers == []
    {
      answers := [];
    }
  }

  // ---- how the packer reads the answers -------------------------------------------------

  const REJECTION_OTHER := 0
  const REJECTION_INVALID_VALUE := 4
  const REJECTION_FAMILY_MISMATCH := 6
  const REJECTION_RECORD_TOO_LARGE := 11
  const REJECTION_RECORD_INVALID := 12

  predicate IsAppendBoundary(error: Error) { error in {ErrBounds, ErrShortBuffer} }

  predicate IsRecordRejection(error: Error)
  {
    error in {ErrInvalidValue, ErrRecordValueLimit, ErrInvalidFamily, ErrBounds, ErrShortBuffer}
  }

  function ClassifyWireError(error: Error): nat
  {
    match error
    case ErrInvalidFamily => REJECTION_FAMILY_MISMATCH
    case ErrRecordValueLimit => REJECTION_RECORD_TOO_LARGE
    case ErrInvalidValue => REJECTION_RECORD_INVALID
    case ErrBounds => REJECTION_RECORD_TOO_LARGE
    case ErrShortBuffer => REJECTION_RECORD_TOO_LARGE
    case _ => REJECTION_OTHER
  }

  /** An answer no healthy environment gives: an instant the epoch cannot put into a header, an appender
      that will not start or fails for another reason than the record, an encoder whose byte count is not
      the packet's length, or a write count outside the datagram. */
  predicate IsFault(c: Config, origin: Option<nat>, answer: Answer)
  {
    match answer
    case ClockAnswer(wall, _) => !Usable(c, origin, wall)
    case AvailableAnswer(_) => false
    case BeginAnswer(begun) => !begun
    case AppendAnswer(_, _, error) => error.Some? && !IsRecordRejection(error.value)
    case FinishAnswer(finished, length) => finished != Some(length)
    case EncodeAnswer(written, length) => written != Some(length)
    case WriteAnswer(_, n, length, failed) => ClassifyWrite(n, length, failed) == WriteInvalid
    case PreviewBegin(begun) => !begun
    case PreviewAppend(_, error) => error.Some? && !IsRecordRejection(error.value)
    case PreviewFinish(_, passed) => !passed
  }

  /** The destination could not be used, or a datagram was written short or with an error. */
  predicate IsInterruption(answer: Answer)
  {
    match answer
    case AvailableAnswer(available) => !available
    case WriteAnswer(_, n, length, failed) => ClassifyWrite(n, length, failed) !in {WriteFull, WriteInvalid}
    case _ => false
  }

  /** `mono` was a clock sample of the request. */
  ghost predicate Clocked(answers: seq<Answer>, mono: nat)
  {
    exists k :: 0 <= k < |answers| && answers[k].ClockAnswer? && answers[k].mono == mono
  }

  /** The monotonic clock moved by a whole refresh interval within the request. */
  ghost predicate Leaps(c: Config, answers: seq<Answer>)
  {
    exists i, j :: 0 <= i < j < |answers| && answers[i].ClockAnswer? && answers[j].ClockAnswer?
                   && answers[j].mono >= answers[i].mono + c.interval
  }

  ghost predicate Faulty(c: Config, origin: Option<nat>, answers: seq<Answer>)
  {
    exists a :: a in answers && IsFault(c, origin, a)
  }

  ghost predicate Interrupted(c: Config, answers: seq<Answer>)
  {
    (exists a :: a in answers && IsInterruption(a)) || Leaps(c, answers)
  }

  lemma AnswersGrow(c: Config, origin: Option<nat>, before: seq<Answer>, after: seq<Answer>)
    requires before <= after
    ensures Faulty(c, origin, before) ==> Faulty(c, origin, after)
    ensures Interrupted(c, before) ==> Interrupted(c, after)
    ensures forall mono :: Clocked(before, mono) ==> Clocked(after, mono)
    ensures forall a :: a in before ==> a in after
  {
    hide IsFault, IsInterruption;
    if Leaps(c, before) {
      var i, j :| 0 <= i < j < |before| && before[i].ClockAnswer? && before[j].ClockAnswer?
                  && before[j].mono >= before[i].mono + c.interval;
      assert after[i] == before[i] && after[j] == before[j];
    }
  }

  lemma SampleClocked(answers: seq<Answer>, wall: nat, mono: nat)
    requires ClockAnswer(wall, mono) in answers
    ensures Clocked(answers, mono)
  {}

  /** A sample a whole interval after an earlier one. */
  lemma ClockLeaps(c: Config, answers: seq<Answer>, earlier: nat, wall: nat, mono: nat)
    requires Clocked(answers, earlier) && mono >= earlier + c.interval
    ensures Interrupted(c, answers + [ClockAnswer(wall, mono)])
  {
    var longer := answers + [ClockAnswer(wall, mono)];
    var k :| 0 <= k < |answers| && answers[k].ClockAnswer? && answers[k].mono == earlier;
    assert longer[k] == answers[k] && longer[|answers|] == ClockAnswer(wall, mono);
  }
}
