/** What the answer log says was sent: the datagrams the appender filled and the transport took, the
    packets written in full, and the order the questions were asked in. */
module Journals {
  import opened Base
  import opened StateModel
  import opened Handoffs
  import opened Outsides

  /** The records the appender accepted into the packet it last began and that is not yet written. */
  function Accepted(answers: seq<Answer>): seq<nat>
  {
    if answers == [] then []
    else
      var accepted := Accepted(answers[..|answers| - 1]);
      match answers[|answers| - 1]
      case BeginAnswer(begun) => if begun then [] else accepted
      case AppendAnswer(o, _, error) => if error == None then accepted + [o] else accepted
      case WriteAnswer(template, _, _, _) => if template then accepted else []
      case _ => accepted
  }

  /** One data datagram and the answer to its write. */
  datatype Dispatch = Dispatch(ordinals: seq<nat>, length: nat, write: WriteClass)

  /** Every data datagram given to the transport, with the records the appender had accepted into it. */
  function Dispatched(answers: seq<Answer>): seq<Dispatch>
  {
    if answers == [] then []
    else
      var before := answers[..|answers| - 1];
      match answers[|answers| - 1]
      case WriteAnswer(template, n, length, failed) =>
        Dispatched(before) + if template then [] else [Dispatch(Accepted(before), length, ClassifyWrite(n, length, failed))]
      case _ => Dispatched(before)
  }

  datatype Packed = TemplatePacket | DataPacket(records: nat)

  /** Every packet written in full, templates included. */
  function Delivered(answers: seq<Answer>): seq<Packed>
  {
    if answers == [] then []
    else
      var before := answers[..|answers| - 1];
      match answers[|answers| - 1]
      case WriteAnswer(template, n, length, failed) =>
        if ClassifyWrite(n, length, failed) != WriteFull then Delivered(before)
        else Delivered(before) + [if template then TemplatePacket else DataPacket(|Accepted(before)|)]
      case _ => Delivered(before)
  }

  /** An answer after which the request sends nothing more. */
  predicate Halts(answer: Answer)
  {
    match answer
    case AvailableAnswer(available) => !available
    case WriteAnswer(_, n, length, failed) => ClassifyWrite(n, length, failed) != WriteFull
    case _ => false
  }

  ghost predicate Halted(answers: seq<Answer>)
  {
    exists a :: a in answers && Halts(a)
  }

  /** The packet about to be written is complete, and the destination was available when last asked: a
      template was encoded before that question, a data packet was finished after it. */
  predicate Cleared(before: seq<Answer>, template: bool, length: nat)
  {
    var n := |before|;
    && n >= 2
    && (if template then before[n - 2] == EncodeAnswer(Some(length), length) && before[n - 1] == AvailableAnswer(true)
        else before[n - 2] == AvailableAnswer(true) && before[n - 1] == FinishAnswer(Some(length), length))
  }

  /** Every write is of a complete packet on a destination just found available, and comes after no answer
      that ends the request. */
  ghost predicate Orderly(answers: seq<Answer>)
  {
    forall k :: 0 <= k < |answers| && answers[k].WriteAnswer? ==>
      Cleared(answers[..k], answers[k].template, answers[k].length) && !Halted(answers[..k])
  }

  /** The hand-offs, as the log sees them. */
  function Datagrams(handoffs: seq<Handoff>): seq<Dispatch>
  {
    if handoffs == [] then []
    else
      var h := handoffs[|handoffs| - 1];
      Datagrams(handoffs[..|handoffs| - 1]) + [Dispatch(h.ordinals, h.length, h.write)]
  }

  function PackedOf(kind: Kind): Packed { if kind.Template? then TemplatePacket else DataPacket(kind.records) }

  /** The committed packets, as the log sees them. */
  function Kinds(trace: seq<Sent>): seq<Packed>
  {
    if trace == [] then [] else Kinds(trace[..|trace| - 1]) + [PackedOf(trace[|trace| - 1].kind)]
  }

  /** The log and the packer agree: the data writes are exactly the hand-offs, the appender holds exactly
      the records of the open datagram, and the packets written in full are exactly those committed
      since `done`. */
  ghost predicate Journaled(answers: seq<Answer>, handoffs: seq<Handoff>, filling: Option<seq<nat>>,
                            done: seq<Packed>, kinds: seq<Packed>)
  {
    && Dispatched(answers) == Datagrams(handoffs)
    && (filling.Some? ==> Accepted(answers) == filling.value)
    && kinds == done + Delivered(answers)
    && Orderly(answers)
  }

  /** What the open datagram holds after one more answer. */
  function Filled(filling: Option<seq<nat>>, answer: Answer): Option<seq<nat>>
  {
    match answer
    case BeginAnswer(begun) => if begun then Some([]) else filling
    case AppendAnswer(o, _, error) => if error == None && filling.Some? then Some(filling.value + [o]) else filling
    case _ => filling
  }

  // ---- how the journal grows ------------------------------------------------------------

  lemma HaltedGrows(answers: seq<Answer>, a: Answer)
    ensures Halted(answers + [a]) <==> Halted(answers) || Halts(a)
  {
    hide Halts;
    if Halts(a) {
      assert a in answers + [a];
    }
  }

  lemma OrderlyGrows(answers: seq<Answer>, a: Answer)
    requires Orderly(answers)
    requires a.WriteAnswer? ==> Cleared(answers, a.template, a.length) && !Halted(answers)
    ensures Orderly(answers + [a])
  {
    hide Halted, Cleared;
    var longer := answers + [a];
    forall k | 0 <= k < |longer| && longer[k].WriteAnswer?
      ensures Cleared(longer[..k], longer[k].template, longer[k].length) && !Halted(longer[..k])
    {
      assert longer[..k] == answers[..k] || k == |answers|;
      assert longer[..|answers|] == answers;
      assert answers[..|answers|] == answers;
    }
  }

  /** Any answer but a write leaves what was sent as it is. */
  lemma JournalGrows(answers: seq<Answer>, handoffs: seq<Handoff>, filling: Option<seq<nat>>, done: seq<Packed>,
                     kinds: seq<Packed>, a: Answer)
    requires Journaled(answers, handoffs, filling, done, kinds) && !a.WriteAnswer?
    ensures Journaled(answers + [a], handoffs, Filled(filling, a), done, kinds)
  {
    hide Orderly;
    OrderlyGrows(answers, a);
    assert (answers + [a])[..|answers|] == answers;
  }

  lemma JournalTemplate(answers: seq<Answer>, handoffs: seq<Handoff>, done: seq<Packed>, kinds: seq<Packed>, n: int,
                        length: nat, failed: bool)
    requires Journaled(answers, handoffs, None, done, kinds) && Cleared(answers, true, length) && !Halted(answers)
    ensures Journaled(answers + [WriteAnswer(true, n, length, failed)], handoffs, None, done,
                      kinds + if ClassifyWrite(n, length, failed) == WriteFull then [TemplatePacket] else [])
  {
    hide Orderly, Halted, Cleared, ClassifyWrite;
    var a := WriteAnswer(true, n, length, failed);
    OrderlyGrows(answers, a);
    assert (answers + [a])[..|answers|] == answers;
    assert done + Delivered(answers) + [] == done + Delivered(answers);
    assert done + (Delivered(answers) + [TemplatePacket]) == done + Delivered(answers) + [TemplatePacket];
    assert Dispatched(answers) + [] == Dispatched(answers);
  }

  lemma JournalData(answers: seq<Answer>, handoffs: seq<Handoff>, h: Handoff, done: seq<Packed>, kinds: seq<Packed>,
                    n: int, failed: bool)
    requires Journaled(answers, handoffs, Some(h.ordinals), done, kinds) && Cleared(answers, false, h.length)
    requires !Halted(answers)
    requires h.write == ClassifyWrite(n, h.length, failed)
    ensures Journaled(answers + [WriteAnswer(false, n, h.length, failed)], handoffs + [h], None, done,
                      kinds + if h.write == WriteFull then [DataPacket(|h.ordinals|)] else [])
  {
    hide Orderly, Halted, Cleared, ClassifyWrite;
    var a := WriteAnswer(false, n, h.length, failed);
    OrderlyGrows(answers, a);
    assert (answers + [a])[..|answers|] == answers;
    assert (handoffs + [h])[..|handoffs|] == handoffs;
    assert done + Delivered(answers) + [] == done + Delivered(answers);
    var packet := DataPacket(|h.ordinals|);
    assert done + (Delivered(answers) + [packet]) == done + Delivered(answers) + [packet];
  }

  lemma KindsGrow(trace: seq<Sent>, sent: Sent)
    ensures Kinds(trace + [sent]) == Kinds(trace) + [PackedOf(sent.kind)]
  {
    assert (trace + [sent])[..|trace|] == trace;
  }

  lemma {:induction false} KindsConcat(a: seq<Sent>, b: seq<Sent>)
    ensures Kinds(a + b) == Kinds(a) + Kinds(b)
  {
    if b == [] {
      assert a + b == a;
    } else {
      var init, last := b[..|b| - 1], b[|b| - 1];
      KindsConcat(a, init);
      KindsGrow(a + init, last);
      KindsGrow(init, last);
      assert a + b == (a + init) + [last] && b == init + [last];
    }
  }

  /** Two points of one journal: what was committed between them is what was written in full between them. */
  lemma DeliveredSince(asked: seq<Answer>, answers: seq<Answer>, done: seq<Packed>, before: seq<Sent>, after: seq<Sent>)
    requires Kinds(before) == done + Delivered(asked) && Kinds(after) == done + Delivered(answers) && before <= after
    ensures Delivered(answers) == Delivered(asked) + Kinds(after[|before|..])
  {
    var grown := Kinds(after[|before|..]);
    assert after == before + after[|before|..];
    KindsConcat(before, after[|before|..]);
    assert done + Delivered(answers) == done + (Delivered(asked) + grown);
    assert (done + Delivered(answers))[|done|..] == Delivered(answers);
    assert (done + (Delivered(asked) + grown))[|done|..] == Delivered(asked) + grown;
  }

  // ---- reading the log ------------------------------------------------------------------

  /** The write at position `k` of the log carried record `o`, and was answered with class `write`. */
  ghost predicate Wrote(answers: seq<Answer>, k: nat, o: nat, write: WriteClass)
  {
    && k < |answers| && answers[k].WriteAnswer? && !answers[k].template
    && ClassifyWrite(answers[k].n, answers[k].length, answers[k].failed) == write && o in Accepted(answers[..k])
  }

  /** Some data write that carried record `o` was answered with class `write`. */
  ghost predicate Answered(answers: seq<Answer>, o: nat, write: WriteClass)
  {
    exists k: nat :: Wrote(answers, k, o, write)
  }

  /** A datagram of the log is one of its writes. */
  lemma {:induction false} DispatchIsWrite(answers: seq<Answer>, d: Dispatch, o: nat)
    requires d in Dispatched(answers) && o in d.ordinals
    ensures exists k: nat :: Wrote(answers, k, o, d.write)
  {
    var before, a := answers[..|answers| - 1], answers[|answers| - 1];
    if d in Dispatched(before) {
      DispatchIsWrite(before, d, o);
      var k: nat :| Wrote(before, k, o, d.write);
      assert before[..k] == answers[..k];
      assert Wrote(answers, k, o, d.write);
    } else {
      assert Wrote(answers, |before|, o, d.write);
    }
  }

  /** And every data write of the log is one of its datagrams. */
  lemma {:induction false} WriteIsDispatch(answers: seq<Answer>, k: nat, o: nat, write: WriteClass)
    requires Wrote(answers, k, o, write)
    ensures exists d :: d in Dispatched(answers) && d.write == write && o in d.ordinals
  {
    var before := answers[..|answers| - 1];
    if k < |before| {
      assert before[..k] == answers[..k];
      WriteIsDispatch(before, k, o, write);
      var d :| d in Dispatched(before) && d.write == write && o in d.ordinals;
      assert d in Dispatched(answers);
    } else {
      var d := Dispatch(Accepted(before), answers[k].length, write);
      assert Dispatched(answers) == Dispatched(before) + [d];
    }
  }

  lemma {:induction false} DatagramsAre(handoffs: seq<Handoff>, d: Dispatch)
    ensures d in Datagrams(handoffs)
      <==> exists k :: 0 <= k < |handoffs| && d == Dispatch(handoffs[k].ordinals, handoffs[k].length, handoffs[k].write)
  {
    if handoffs != [] {
      var init := handoffs[..|handoffs| - 1];
      DatagramsAre(init, d);
      assert forall k :: 0 <= k < |init| ==> init[k] == handoffs[k];
    }
  }

  /** What the appender holds, it accepted. */
  lemma {:induction false} AcceptedWasAppended(answers: seq<Answer>, o: nat)
    requires o in Accepted(answers)
    ensures AppendAnswer(o, true, None) in answers || AppendAnswer(o, false, None) in answers
  {
    var before := answers[..|answers| - 1];
    if o in Accepted(before) {
      AcceptedWasAppended(before, o);
    }
  }

  /** Record `o` passed an appender: the packet's own, or the validation appender after a stop. */
  predicate Vetted(answers: seq<Answer>, o: nat)
  {
    || AppendAnswer(o, true, None) in answers || AppendAnswer(o, false, None) in answers
    || (PreviewAppend(o, None) in answers && PreviewFinish(o, true) in answers)
  }
}
