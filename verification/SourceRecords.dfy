/** The packer's view of one source record, and what a well-formed data datagram of a request is. */
module SourceRecords {
  import opened Base
  import opened Sizes
  import opened StateModel
  import LM = LedgerModel
  import opened Handoffs
  import opened PackerLaws
  import opened Outsides
  import opened Journals
  import SL = StateLaws

  /** What normalisation and mapping make of one source record: refused with a reason, or mapped to a
      catalog shape (None when no shape has its family), a sampling rate and an encoded size. */
  datatype Source =
    | Unmapped(reason: int)
    | Mapped(shape: Option<nat>, sampling: Option<nat>, size: Outcome<nat>)

  datatype PackOutcome = PackSucceeded | PackPermanent | PackTransient | PackInternal

  /** minimumDataPacketFits: None when the record fits a packet of its own, else the reason. */
  function MinimumMisfit(c: Config, shape: nat, size: Outcome<nat>): Option<nat>
    requires shape < |c.shapes|
  {
    if size.Failed? then
      Some(if size.error in {ErrRecordValueLimit, ErrBounds} then REJECTION_RECORD_TOO_LARGE else REJECTION_RECORD_INVALID)
    else if FitsAlone(c, shape, size.value) then None
    else Some(REJECTION_RECORD_TOO_LARGE)
  }

  /** Packer.sampling: only v5 carries a rate in its header. */
  function SamplingOf(c: Config, rate: Option<nat>): Option<nat>
  {
    if c.version != V5 then Some(0)
    else if rate == None || rate.value > MAX_SAMPLING then None
    else rate
  }

  /** What mapping hands over: a shape of the catalog, and a size unless the record itself is at fault. */
  predicate WellMapped(c: Config, source: Source)
  {
    source.Mapped? ==>
      && (source.shape.Some? ==> source.shape.value < |c.shapes|)
      && (source.size.Failed? ==> IsRecordRejection(source.size.error))
  }

  /** A record that belongs in a datagram of this shape and, for v5, this sampling rate. */
  predicate Conforms(c: Config, sources: seq<Source>, ordinal: nat, shape: nat, sampling: nat)
  {
    && ordinal < |sources| && sources[ordinal].Mapped? && sources[ordinal].size.Done?
    && sources[ordinal].shape == Some(shape) && SamplingOf(c, sources[ordinal].sampling) == Some(sampling)
  }

  function BytesAt(sources: seq<Source>, ordinal: nat): nat
  {
    if ordinal < |sources| && sources[ordinal].Mapped? && sources[ordinal].size.Done? then sources[ordinal].size.value else 0
  }

  /** Encoded bytes of a list of records. */
  function BytesOf(sources: seq<Source>, ordinals: seq<nat>): nat
  {
    if ordinals == [] then 0
    else BytesOf(sources, ordinals[..|ordinals| - 1]) + BytesAt(sources, ordinals[|ordinals| - 1])
  }

  ghost predicate Uniform(c: Config, sources: seq<Source>, ordinals: seq<nat>, shape: nat, sampling: nat)
  {
    forall i :: 0 <= i < |ordinals| ==> Conforms(c, sources, ordinals[i], shape, sampling)
  }

  /** A datagram the packer may hand off: records of one shape and sampling rate, at least one and at
      most the configured count, whose encoded sizes make exactly its length. */
  ghost predicate WellFormed(c: Config, sources: seq<Source>, h: Handoff)
  {
    && 1 <= |h.ordinals| <= c.maxRecords && Uniform(c, sources, h.ordinals, h.shape, h.sampling)
    && Sized(c, Fill(h.shape, h.sampling, |h.ordinals|, BytesOf(sources, h.ordinals)), h.length)
  }

  ghost predicate AllWellFormed(c: Config, sources: seq<Source>, handoffs: seq<Handoff>)
  {
    forall k :: 0 <= k < |handoffs| ==> WellFormed(c, sources, handoffs[k])
  }

  lemma NoBytes(sources: seq<Source>)
    ensures BytesOf(sources, []) == 0
  {}

  lemma BytesAppended(sources: seq<Source>, ordinals: seq<nat>, o: nat)
    ensures BytesOf(sources, ordinals + [o]) == BytesOf(sources, ordinals) + BytesAt(sources, o)
  {
    assert (ordinals + [o])[..|ordinals|] == ordinals;
  }

  /** A well-formed datagram joins the hand-offs of a request that has not stopped. */
  lemma DatagramJoins(c: Config, sources: seq<Source>, handoffs: seq<Handoff>, h: Handoff)
    requires AllFull(handoffs) && AllWellFormed(c, sources, handoffs)
    requires Uniform(c, sources, h.ordinals, h.shape, h.sampling) && 1 <= |h.ordinals| <= c.maxRecords
    requires Sized(c, Fill(h.shape, h.sampling, |h.ordinals|, BytesOf(sources, h.ordinals)), h.length)
    ensures AllWellFormed(c, sources, handoffs + [h]) && StopsAtFailure(handoffs + [h])
    ensures h.write == WriteFull ==> AllFull(handoffs + [h])
    ensures FullPackets(handoffs + [h]) == FullPackets(handoffs) + PacketsOf(h)
    ensures Uniform(c, sources, [], h.shape, h.sampling)
  {
    hide Uniform, Sized, BytesOf, FullPackets;
    HandoffsGrow(handoffs, h);
    NothingConforms(c, sources, h.shape, h.sampling);
  }

  lemma NothingConforms(c: Config, sources: seq<Source>, shape: nat, sampling: nat)
    ensures Uniform(c, sources, [], shape, sampling)
  {}

  lemma ConformingJoins(c: Config, sources: seq<Source>, ordinals: seq<nat>, o: nat, shape: nat, sampling: nat)
    requires Uniform(c, sources, ordinals, shape, sampling) && Conforms(c, sources, o, shape, sampling)
    ensures Uniform(c, sources, ordinals + [o], shape, sampling)
  {}

  /** Why a record is refused before any packet is considered. */
  function RefusalOf(c: Config, source: Source): Option<nat>
  {
    if source.Unmapped? then Some(LM.Reason(source.reason))
    else if source.shape == None then Some(REJECTION_FAMILY_MISMATCH)
    else if SamplingOf(c, source.sampling) == None then Some(REJECTION_INVALID_VALUE)
    else None
  }

  // ---- where one datagram ends and the next begins --------------------------------------

  function FillOf(sources: seq<Source>, h: Handoff): Fill
  {
    Fill(h.shape, h.sampling, |h.ordinals|, BytesOf(sources, h.ordinals))
  }

  /** Record `o` cannot join a datagram that holds `fill`: it has another shape or, for v5, another rate; the
      datagram is full by count or has no room for it; or the appender found none. */
  ghost predicate Parts(c: Config, sources: seq<Source>, answers: seq<Answer>, fill: Fill, o: nat)
  {
    && o < |sources| && RefusalOf(c, sources[o]) == None
    && var source := sources[o];
       || source.shape != Some(fill.shape) || (c.version == V5 && SamplingOf(c, source.sampling) != Some(fill.sampling))
       || fill.records >= c.maxRecords || (source.size.Failed? && IsAppendBoundary(source.size.error))
       || (source.size.Done? && !HasRoom(c, fill.(records := fill.records + 1, bytes := fill.bytes + source.size.value)))
       || exists e :: IsAppendBoundary(e) && AppendAnswer(o, false, Some(e)) in answers
  }

  /** A record among the first `upto`, after those of `h` and not after those of the next datagram, that could
      not join `h`. */
  ghost predicate Parted(c: Config, sources: seq<Source>, answers: seq<Answer>, h: Handoff, next: seq<nat>, upto: nat)
  {
    exists o: nat :: o < upto && Parts(c, sources, answers, FillOf(sources, h), o)
                && (forall x :: x in h.ordinals ==> x < o) && (forall x :: x in next ==> o <= x)
  }

  /** Every datagram but the last ended because of a record that could not join it. */
  ghost predicate Separated(c: Config, sources: seq<Source>, answers: seq<Answer>, handoffs: seq<Handoff>, upto: nat)
  {
    forall k :: 0 <= k < |handoffs| - 1 ==> Parted(c, sources, answers, handoffs[k], handoffs[k + 1].ordinals, upto)
  }

  /** So did the last one, unless the request has stopped. */
  ghost predicate Divided(c: Config, sources: seq<Source>, answers: seq<Answer>, handoffs: seq<Handoff>,
                          batch: seq<nat>, upto: nat, stopped: bool)
  {
    && Separated(c, sources, answers, handoffs, upto)
    && (!stopped && handoffs != [] ==> Parted(c, sources, answers, handoffs[|handoffs| - 1], batch, upto))
  }

  lemma PartsGrow(c: Config, sources: seq<Source>, before: seq<Answer>, after: seq<Answer>, fill: Fill, o: nat)
    requires before <= after && Parts(c, sources, before, fill, o)
    ensures Parts(c, sources, after, fill, o)
  {
    hide HasRoom, RefusalOf, SamplingOf;
  }

  /** More answers, more records and fewer of them in the datagram that follows. */
  lemma PartedGrows(c: Config, sources: seq<Source>, before: seq<Answer>, after: seq<Answer>, h: Handoff,
                    next: seq<nat>, then_: seq<nat>, upto: nat, more: nat)
    requires before <= after && upto <= more && Parted(c, sources, before, h, next, upto)
    requires forall x :: x in then_ ==> x in next || upto <= x
    ensures Parted(c, sources, after, h, then_, more)
  {
    hide Parts;
    var o: nat :| o < upto && Parts(c, sources, before, FillOf(sources, h), o)
             && (forall x :: x in h.ordinals ==> x < o) && (forall x :: x in next ==> o <= x);
    PartsGrow(c, sources, before, after, FillOf(sources, h), o);
  }

  /** A record dealt with and no datagram handed off. */
  lemma DividedStays(c: Config, sources: seq<Source>, asked: seq<Answer>, answers: seq<Answer>, handoffs: seq<Handoff>,
                     batch: seq<nat>, then_: seq<nat>, upto: nat, more: nat, was: bool, stopped: bool)
    requires Divided(c, sources, asked, handoffs, batch, upto, was) && asked <= answers && upto <= more
    requires (was ==> stopped) && forall x :: x in then_ ==> x in batch || upto <= x
    ensures Divided(c, sources, answers, handoffs, then_, more, stopped)
  {
    hide Parted;
    forall k | 0 <= k < |handoffs| - 1
      ensures Parted(c, sources, answers, handoffs[k], handoffs[k + 1].ordinals, more)
    {
      PartedGrows(c, sources, asked, answers, handoffs[k], handoffs[k + 1].ordinals, handoffs[k + 1].ordinals, upto, more);
    }
    if !stopped && handoffs != [] {
      PartedGrows(c, sources, asked, answers, handoffs[|handoffs| - 1], batch, then_, upto, more);
    }
  }

  /** The open datagram is handed off. */
  lemma SeparatedGrows(c: Config, sources: seq<Source>, asked: seq<Answer>, answers: seq<Answer>,
                       handoffs: seq<Handoff>, h: Handoff, upto: nat, more: nat)
    requires Divided(c, sources, asked, handoffs, h.ordinals, upto, false) && asked <= answers && upto <= more
    ensures Separated(c, sources, answers, handoffs + [h], more)
  {
    hide Parted;
    var after := handoffs + [h];
    DividedStays(c, sources, asked, answers, handoffs, h.ordinals, h.ordinals, upto, more, false, false);
    forall k | 0 <= k < |after| - 1
      ensures Parted(c, sources, answers, after[k], after[k + 1].ordinals, more)
    {
      assert after[k] == handoffs[k];
    }
  }

  /** It is handed off for the sake of record `upto`, which may start the next one. */
  lemma DividedGrows(c: Config, sources: seq<Source>, asked: seq<Answer>, answers: seq<Answer>, handoffs: seq<Handoff>,
                     h: Handoff, then_: seq<nat>, upto: nat, stopped: bool)
    requires Divided(c, sources, asked, handoffs, h.ordinals, upto, false) && asked <= answers
    requires (forall x :: x in h.ordinals ==> x < upto) && (forall x :: x in then_ ==> x == upto)
    requires Parts(c, sources, answers, FillOf(sources, h), upto)
    ensures Divided(c, sources, answers, handoffs + [h], then_, upto + 1, stopped)
  {
    hide Parts, Separated;
    SeparatedGrows(c, sources, asked, answers, handoffs, h, upto, upto + 1);
    assert Parted(c, sources, answers, h, then_, upto + 1);
  }

  ghost predicate Refused(c: Config, sources: seq<Source>, records: seq<LM.Status>)
  {
    forall i :: 0 <= i < |records| && i < |sources| && RefusalOf(c, sources[i]).Some? ==>
      records[i] == LM.Invalid(RefusalOf(c, sources[i]).value)
  }

  lemma RefusedStays(c: Config, sources: seq<Source>, before: seq<LM.Status>, after: seq<LM.Status>)
    requires Refused(c, sources, before) && OnlyPendingMoves(before, after)
    ensures Refused(c, sources, after)
  {}

  // ---- the account of a request ---------------------------------------------------------

  /** A request: its configuration, the epoch it starts in and its source records. */
  datatype Request = Request(config: Config, start: Epoch, sources: seq<Source>)
  {
    function TimeOrigin(): Option<nat> { if config.origin.Some? then config.origin else start.startOrigin }
  }

  /** What an internal failure can be blamed on: an epoch that was already over, or a faulty answer. */
  ghost predicate Blamed(q: Request, answers: seq<Answer>)
  {
    q.start.exhausted || Faulty(q.config, q.TimeOrigin(), answers)
  }

  /** An appender refused record `o` with `error`, and not merely for want of room beside others. */
  predicate Refuses(answers: seq<Answer>, o: nat, error: Error)
  {
    || AppendAnswer(o, true, Some(error)) in answers || PreviewAppend(o, Some(error)) in answers
    || (AppendAnswer(o, false, Some(error)) in answers && !IsAppendBoundary(error))
  }

  /** The appender rejected record `o` for `reason`. */
  ghost predicate Rejects(answers: seq<Answer>, o: nat, reason: nat)
  {
    exists e :: Refuses(answers, o, e) && IsRecordRejection(e) && reason == ClassifyWireError(e)
  }

  /** Why a record may end invalid: it was refused before placement, it does not fit a packet of its own,
      it has no size, or the appender rejected it. */
  ghost predicate Justified(q: Request, answers: seq<Answer>, o: nat, reason: nat)
  {
    && o < |q.sources|
    && match RefusalOf(q.config, q.sources[o])
       case Some(refusal) => reason == refusal
       case None =>
         var s := q.sources[o];
         || (s.shape.value < |q.config.shapes| && MinimumMisfit(q.config, s.shape.value, s.size) == Some(reason))
         || (s.size.Failed? && !IsAppendBoundary(s.size.error) && reason == ClassifyWireError(s.size.error))
         || Rejects(answers, o, reason)
  }

  ghost predicate Reasons(q: Request, answers: seq<Answer>, records: seq<LM.Status>)
  {
    forall i :: 0 <= i < |records| && records[i].Invalid? ==> Justified(q, answers, i, records[i].reason)
  }

  /** Where the packer stands: its flags, the epoch it works in and the cached preview instant. */
  datatype Standing = Standing(internal: bool, transient: bool, epoch: Epoch, preview: Option<nat>)

  /** Every flag and every invalid record is accounted for by the request and the answers so far. */
  ghost predicate Accounts(q: Request, answers: seq<Answer>, at: Standing, records: seq<LM.Status>)
  {
    && at.epoch.startOrigin == q.start.startOrigin
    && (at.internal || at.epoch.exhausted ==> Blamed(q, answers))
    && (at.transient ==> Interrupted(q.config, answers))
    && (at.preview.Some? ==> SL.Usable(q.config, q.TimeOrigin(), at.preview.value) || Blamed(q, answers))
    && Reasons(q, answers, records)
  }

  lemma AccountsGrow(q: Request, before: seq<Answer>, after: seq<Answer>, at: Standing, records: seq<LM.Status>)
    requires before <= after && Accounts(q, before, at, records)
    ensures Accounts(q, after, at, records)
    ensures Blamed(q, before) ==> Blamed(q, after)
  {
    hide Faulty, Interrupted, SL.Usable, MinimumMisfit, RefusalOf;
    AnswersGrow(q.config, q.TimeOrigin(), before, after);
    forall i | 0 <= i < |records| && records[i].Invalid?
      ensures Justified(q, after, i, records[i].reason)
    {
      assert Justified(q, before, i, records[i].reason);
    }
  }

  /** A faulty answer is something to blame. */
  lemma FaultIsBlamed(q: Request, answers: seq<Answer>, answer: Answer)
    requires answer in answers && IsFault(q.config, q.TimeOrigin(), answer)
    ensures Blamed(q, answers)
  {}

  /** The write result just logged: an illegal count is a fault, any other result that is not full an
      interruption. */
  lemma WriteJudged(q: Request, answers: seq<Answer>, template: bool, n: int, length: nat, failed: bool)
    requires WriteAnswer(template, n, length, failed) in answers
    ensures ClassifyWrite(n, length, failed) == WriteInvalid ==> Blamed(q, answers)
    ensures Ambiguates(ClassifyWrite(n, length, failed)) ==> Interrupted(q.config, answers)
  {
    assert IsInterruption(WriteAnswer(template, n, length, failed)) <==> Ambiguates(ClassifyWrite(n, length, failed));
    if ClassifyWrite(n, length, failed) == WriteInvalid {
      FaultIsBlamed(q, answers, WriteAnswer(template, n, length, failed));
    }
  }

  /** The clock was asked for a reservation: what came of it is accounted for by its answer. */
  lemma ClockJudged(q: Request, answers: seq<Answer>, at: Standing, records: seq<LM.Status>, s: St, t: St, wall: nat,
                    mono: nat)
    requires Accounts(q, answers, at, records) && at.epoch == s.epoch && ClockAnswer(wall, mono) in answers
    requires Spent(q.config, s, t, wall)
    ensures Accounts(q, answers, at.(epoch := t.epoch), records)
    ensures s.epoch.exhausted || !SL.Usable(q.config, Origin(q.config, s), wall) ==> Blamed(q, answers)
  {
    hide Reasons, SL.Usable, Interrupted;
    if !SL.Usable(q.config, Origin(q.config, s), wall) {
      FaultIsBlamed(q, answers, ClockAnswer(wall, mono));
    }
  }

  lemma AccountsEpoch(q: Request, answers: seq<Answer>, at: Standing, records: seq<LM.Status>, epoch: Epoch)
    requires Accounts(q, answers, at, records) && epoch == at.epoch.(sequence := epoch.sequence)
    ensures Accounts(q, answers, at.(epoch := epoch), records)
  {}

  lemma MisfitJustifies(q: Request, answers: seq<Answer>, o: nat, shape: nat, reason: nat)
    requires o < |q.sources| && RefusalOf(q.config, q.sources[o]) == None && q.sources[o].shape == Some(shape)
    requires shape < |q.config.shapes| && MinimumMisfit(q.config, shape, q.sources[o].size) == Some(reason)
    ensures Justified(q, answers, o, LM.Reason(reason))
  {
    hide FitsAlone, Rejects;
  }

  /** A refused append: a rejection justifies an invalid record, anything else is to blame. */
  lemma AppendJudged(q: Request, answers: seq<Answer>, o: nat, error: Error)
    requires o < |q.sources| && RefusalOf(q.config, q.sources[o]) == None && WellMapped(q.config, q.sources[o])
    requires (q.sources[o].size == Failed(error) && !IsAppendBoundary(error)) || Refuses(answers, o, error)
    ensures if IsRecordRejection(error) then Justified(q, answers, o, LM.Reason(ClassifyWireError(error))) else Blamed(q, answers)
  {
    hide MinimumMisfit, Faulty;
    if !IsRecordRejection(error) {
      var a := if PreviewAppend(o, Some(error)) in answers then PreviewAppend(o, Some(error))
               else AppendAnswer(o, AppendAnswer(o, true, Some(error)) in answers, Some(error));
      FaultIsBlamed(q, answers, a);
    }
  }

  lemma AccountsMove(q: Request, answers: seq<Answer>, at: Standing, before: seq<LM.Status>, after: seq<LM.Status>)
    requires Accounts(q, answers, at, before) && OnlyPendingMoves(before, after)
    ensures Accounts(q, answers, at, after)
  {
    hide Justified, Blamed, Interrupted;
  }

  /** One record changed to a status that is not invalid, or to invalid for a justified reason. */
  lemma AccountsUpdate(q: Request, answers: seq<Answer>, at: Standing, records: seq<LM.Status>, o: nat,
                       status: LM.Status)
    requires Accounts(q, answers, at, records) && o < |records|
    requires status.Invalid? ==> Justified(q, answers, o, status.reason)
    ensures Accounts(q, answers, at, records[o := status])
  {
    hide Justified, Blamed, Interrupted;
  }

  lemma AccountsSource(q: Request, answers: seq<Answer>, at: Standing, records: seq<LM.Status>, status: LM.Status)
    requires Accounts(q, answers, at, records)
    requires status.Invalid? ==> Justified(q, answers, |records|, status.reason)
    ensures Accounts(q, answers, at, records + [status])
  {
    hide Justified, Blamed, Interrupted;
  }

  // ---- the report -----------------------------------------------------------------------

  /** Unless the request failed internally, every record so far is invalid or has passed an appender. */
  ghost predicate Screened(answers: seq<Answer>, records: seq<LM.Status>, internal: bool)
  {
    !internal ==> forall i :: 0 <= i < |records| ==> records[i].Invalid? || Vetted(answers, i)
  }

  /** One more record is dealt with, whatever became of the pending ones. */
  lemma ScreenedStep(asked: seq<Answer>, answers: seq<Answer>, before: seq<LM.Status>, after: seq<LM.Status>,
                     was: bool, internal: bool)
    requires Screened(asked, before, was) && asked <= answers && (was ==> internal) && |after| == |before| + 1
    requires forall i :: 0 <= i < |before| && before[i].Invalid? ==> after[i].Invalid?
    requires internal || after[|before|].Invalid? || Vetted(answers, |before|)
    ensures Screened(answers, after, internal)
  {}

  lemma ScreenedStays(asked: seq<Answer>, answers: seq<Answer>, before: seq<LM.Status>, after: seq<LM.Status>,
                      was: bool, internal: bool)
    requires Screened(asked, before, was) && asked <= answers && (was ==> internal) && OnlyPendingMoves(before, after)
    ensures Screened(answers, after, internal)
  {}

  /** What a finished request reports, against the datagrams that were handed off and the answers it got. */
  ghost predicate Report(q: Request, answers: seq<Answer>, records: seq<LM.Status>, handoffs: seq<Handoff>,
                         outcome: PackOutcome)
  {
    && |records| == |q.sources| && Books(records, [], handoffs) && Refused(q.config, q.sources, records)
    && AllWellFormed(q.config, q.sources, handoffs) && StopsAtFailure(handoffs)
    && Separated(q.config, q.sources, answers, handoffs, |records|)
    && Dispatched(answers) == Datagrams(handoffs) && Orderly(answers)
    && Reasons(q, answers, records) && Screened(answers, records, outcome == PackInternal)
    && (outcome == PackSucceeded ==>
          && handoffs != [] && AllFull(handoffs)
          && forall i :: 0 <= i < |records| ==> records[i] == LM.Confirmed || records[i].Invalid?)
    && (outcome == PackPermanent ==> handoffs == [] && forall i :: 0 <= i < |records| ==> records[i].Invalid?)
    && (outcome == PackTransient ==> Interrupted(q.config, answers))
    && (outcome == PackInternal ==> Blamed(q, answers))
    && (Halted(answers) ==> outcome == PackTransient || outcome == PackInternal)
  }

  /** The record has a shape of the catalog, for v5 a rate its header can carry, and fits a packet of its own. */
  ghost predicate Deliverable(q: Request, i: nat)
    requires i < |q.sources|
  {
    var source := q.sources[i];
    && source.Mapped? && source.shape.Some? && source.shape.value < |q.config.shapes|
    && (q.config.version == V5 ==> source.sampling.Some? && source.sampling.value < 0x4000)
    && source.size.Done? && FitsAlone(q.config, source.shape.value, source.size.value)
  }

  /** A datagram of the log that was not written in full halts the request. */
  lemma ShortDatagramHalts(answers: seq<Answer>, handoffs: seq<Handoff>)
    requires Dispatched(answers) == Datagrams(handoffs) && !AllFull(handoffs)
    requires forall k :: 0 <= k < |handoffs| ==> handoffs[k].ordinals != []
    ensures Halted(answers)
  {
    hide Dispatched, Datagrams, Halts;
    var j :| 0 <= j < |handoffs| && handoffs[j].write != WriteFull;
    var d := Dispatch(handoffs[j].ordinals, handoffs[j].length, handoffs[j].write);
    DatagramsAre(handoffs, d);
    DispatchIsWrite(answers, d, handoffs[j].ordinals[0]);
    var k: nat :| Wrote(answers, k, handoffs[j].ordinals[0], d.write);
    assert Halts(answers[k]) by { ShortWriteHalts(answers[k]); }
  }

  lemma DatagramsHold(q: Request, handoffs: seq<Handoff>)
    requires AllWellFormed(q.config, q.sources, handoffs)
    ensures forall k :: 0 <= k < |handoffs| ==> handoffs[k].ordinals != []
  {
    forall k | 0 <= k < |handoffs|
      ensures handoffs[k].ordinals != []
    {
      assert WellFormed(q.config, q.sources, handoffs[k]);
    }
  }

  lemma ShortWriteHalts(a: Answer)
    requires a.WriteAnswer? && ClassifyWrite(a.n, a.length, a.failed) != WriteFull
    ensures Halts(a)
  {}

  /** An answer of a healthy environment: a usable instant, an available destination, an appender and a writer that do
      what the packet's length says and refuse a record only for a reason of its own, and writes in full. */
  predicate IsHealthy(q: Request, a: Answer)
  {
    match a
    case ClockAnswer(wall, _) => SL.Usable(q.config, q.TimeOrigin(), wall)
    case AvailableAnswer(available) => available
    case BeginAnswer(begun) => begun
    case AppendAnswer(_, _, error) => error.Some? ==> IsRecordRejection(error.value)
    case FinishAnswer(finished, length) => finished == Some(length)
    case EncodeAnswer(written, length) => written == Some(length)
    case WriteAnswer(_, n, length, failed) => n == length && !failed
    case PreviewBegin(begun) => begun
    case PreviewAppend(_, error) => error.Some? ==> IsRecordRejection(error.value)
    case PreviewFinish(_, passed) => passed
  }

  /** The epoch was not over, every answer was healthy, and no refresh interval passed within the request. */
  ghost predicate Healthy(q: Request, answers: seq<Answer>)
  {
    !q.start.exhausted && (forall a :: a in answers ==> IsHealthy(q, a)) && !Leaps(q.config, answers)
  }

  lemma HealthyIsClean(q: Request, answers: seq<Answer>)
    requires Healthy(q, answers)
    ensures !Blamed(q, answers) && !Interrupted(q.config, answers)
  {
    hide SL.Usable, Leaps;
  }

  /** A request that met only healthy answers delivers every record it can: a record that fits a
      packet of its own and that no appender turned away is confirmed, and what is confirmed was accepted
      by the appender and written in full. */
  lemma CleanRequest(q: Request, answers: seq<Answer>, records: seq<LM.Status>, handoffs: seq<Handoff>,
                     outcome: PackOutcome, i: nat)
    requires Report(q, answers, records, handoffs, outcome) && i < |records|
    requires Healthy(q, answers)
    ensures outcome == if handoffs == [] then PackPermanent else PackSucceeded
    ensures records[i] == LM.Confirmed || records[i].Invalid?
    ensures Deliverable(q, i) && (forall e :: !Refuses(answers, i, e)) ==> records[i] == LM.Confirmed
    ensures records[i] == LM.Confirmed <==> Answered(answers, i, WriteFull)
    ensures RefusalOf(q.config, q.sources[i]).Some? || q.sources[i].size.Failed? ==> records[i].Invalid?
  {
    hide Flatten, LM.Count, FullPackets, TotalRecords, BytesOf, Blamed, Interrupted, FitsAlone, Sized, Wrote, Halted,
         Dispatched,
         Datagrams, Orderly;
    HealthyIsClean(q, answers);
    hide Healthy;
    if !AllFull(handoffs) {
      DatagramsHold(q, handoffs);
      ShortDatagramHalts(answers, handoffs);
    }
    if records[i] == LM.Confirmed {
      var k :| 0 <= k < |handoffs| && handoffs[k].write == WriteFull && i in handoffs[k].ordinals;
      assert WellFormed(q.config, q.sources, handoffs[k]);
    }
    ClassIsAnswer(answers, records, handoffs, i);
  }

  ghost predicate HandedAs(handoffs: seq<Handoff>, o: nat, write: WriteClass)
  {
    exists j :: 0 <= j < |handoffs| && handoffs[j].write == write && o in handoffs[j].ordinals
  }

  /** What a hand-off of record `o` was answered is what the log answers to a write that carries it. */
  lemma WrittenIsLogged(answers: seq<Answer>, handoffs: seq<Handoff>, o: nat, write: WriteClass)
    requires Dispatched(answers) == Datagrams(handoffs)
    ensures Answered(answers, o, write) <==> HandedAs(handoffs, o, write)
  {
    hide Dispatched, Datagrams, Wrote;
    if Answered(answers, o, write) {
      var k: nat :| Wrote(answers, k, o, write);
      WriteIsDispatch(answers, k, o, write);
      var d :| d in Dispatched(answers) && d.write == write && o in d.ordinals;
      DatagramsAre(handoffs, d);
    }
    if HandedAs(handoffs, o, write) {
      var j :| 0 <= j < |handoffs| && handoffs[j].write == write && o in handoffs[j].ordinals;
      var d := Dispatch(handoffs[j].ordinals, handoffs[j].length, handoffs[j].write);
      DatagramsAre(handoffs, d);
      DispatchIsWrite(answers, d, o);
    }
  }

  /** The ledger's final classes, read off the log. */
  lemma ClassIsAnswer(answers: seq<Answer>, records: seq<LM.Status>, handoffs: seq<Handoff>, i: nat)
    requires Dispatched(answers) == Datagrams(handoffs) && Books(records, [], handoffs) && i < |records|
    ensures records[i] == LM.Confirmed <==> Answered(answers, i, WriteFull)
    ensures records[i] == LM.Ambiguous <==> exists w :: Ambiguates(w) && Answered(answers, i, w)
  {
    hide Flatten, LM.Count, FullPackets, TotalRecords, Dispatched, Datagrams, Answered;
    WrittenIsLogged(answers, handoffs, i, WriteFull);
    if records[i] == LM.Ambiguous {
      var j :| 0 <= j < |handoffs| && Ambiguates(handoffs[j].write) && i in handoffs[j].ordinals;
      WrittenIsLogged(answers, handoffs, i, handoffs[j].write);
    }
    if w :| Ambiguates(w) && Answered(answers, i, w) {
      WrittenIsLogged(answers, handoffs, i, w);
      var j :| 0 <= j < |handoffs| && handoffs[j].write == w && i in handoffs[j].ordinals;
      assert MakesAmbiguous(handoffs, i);
    }
  }

  lemma WroteWasAppended(answers: seq<Answer>, k: nat, o: nat, write: WriteClass)
    requires Wrote(answers, k, o, write)
    ensures k < |answers|
    ensures (AppendAnswer(o, true, None) in answers[..k] || AppendAnswer(o, false, None) in answers[..k])
  {
    AcceptedWasAppended(answers[..k], o);
  }

  lemma NothingSentIfNoneConfirmed(c: Config, sources: seq<Source>, records: seq<LM.Status>, handoffs: seq<Handoff>)
    requires Books(records, [], handoffs) && AllWellFormed(c, sources, handoffs) && AllFull(handoffs)
    ensures LM.Confirmed in records <==> handoffs != []
    ensures LM.Pending !in records && LM.Ambiguous !in records
  {
    if handoffs != [] {
      var o := handoffs[0].ordinals[0];
      assert WellFormed(c, sources, handoffs[0]) && o in handoffs[0].ordinals;
      HandedIsFlattened(handoffs, 0, o);
      assert records[o] == LM.Confirmed;
    }
  }

  // ---- the sequence number of a request -------------------------------------------------

  lemma {:induction false} TotalConcat(a: seq<Kind>, b: seq<Kind>)
    ensures TotalRecords(a + b) == TotalRecords(a) + TotalRecords(b)
  {
    if b == [] {
      assert a + b == a;
    } else {
      var init, last := b[..|b| - 1], b[|b| - 1];
      TotalConcat(a, init);
      TotalAppended(a + init, last);
      assert a + b == (a + init) + [last];
    }
  }

  lemma {:induction false} WeightIsRecords(v: Version, trace: seq<Sent>)
    requires v != V9
    ensures SL.TotalWeight(v, trace) == TotalRecords(DataKinds(trace))
  {
    if trace != [] {
      var init, last := trace[..|trace| - 1], trace[|trace| - 1].kind;
      WeightIsRecords(v, init);
      TotalAppended(DataKinds(init), last);
      assert DataKinds(init) + [] == DataKinds(init);
    }
  }

  /** For v5 and IPFIX the sequence number of the state moves by exactly the records confirmed. */
  lemma SequenceFollows(c: Config, before: St, after: St, records: seq<LM.Status>, handoffs: seq<Handoff>)
    requires c.version != V9 && SL.Inv(c, before) && SL.Inv(c, after) && Books(records, [], handoffs)
    requires DataKinds(after.trace) == DataKinds(before.trace) + FullPackets(handoffs)
    ensures after.epoch.sequence == (before.epoch.sequence + LM.Count(records, LM.Confirmed)) % UINT32_MODULUS
  {
    hide SL.Inv, SL.TotalWeight, TotalRecords, DataKinds, FullPackets, LM.Count;
    SequenceCounts(c, before);
    SequenceCounts(c, after);
    WeightIsRecords(c.version, before.trace);
    WeightIsRecords(c.version, after.trace);
    TotalConcat(DataKinds(before.trace), FullPackets(handoffs));
    ModuloAdds(SL.TotalWeight(c.version, before.trace), LM.Count(records, LM.Confirmed));
  }

  lemma SequenceCounts(c: Config, s: St)
    requires SL.Inv(c, s)
    ensures s.epoch.sequence == SL.TotalWeight(c.version, s.trace) % UINT32_MODULUS
  {}

  lemma ModuloAdds(a: nat, b: nat)
    ensures (a % UINT32_MODULUS + b) % UINT32_MODULUS == (a + b) % UINT32_MODULUS
  {}

  /** No datagram is handed off early: between its last record and the first one of the next datagram is a record
      that could not join it. */
  lemma NoEarlyHandoff(q: Request, answers: seq<Answer>, records: seq<LM.Status>, handoffs: seq<Handoff>,
                       outcome: PackOutcome, k: nat)
    requires Report(q, answers, records, handoffs, outcome) && k + 1 < |handoffs|
    ensures var h, next := handoffs[k].ordinals, handoffs[k + 1].ordinals;
      && h != [] && next != []
      && exists o :: Parts(q.config, q.sources, answers, FillOf(q.sources, handoffs[k]), o) && h[|h| - 1] < o <= next[0]
  {
    hide Parts, Flatten, LM.Count, FullPackets, TotalRecords, BytesOf, Dispatched, Datagrams, Halted, Orderly,
         Reasons, Books, Sized, Screened, Blamed, Interrupted;
    var h, next := handoffs[k].ordinals, handoffs[k + 1].ordinals;
    assert WellFormed(q.config, q.sources, handoffs[k]) && WellFormed(q.config, q.sources, handoffs[k + 1]);
    assert Parted(q.config, q.sources, answers, handoffs[k], next, |records|);
    var o: nat :| o < |records| && Parts(q.config, q.sources, answers, FillOf(q.sources, handoffs[k]), o)
                  && (forall x :: x in h ==> x < o) && (forall x :: x in next ==> o <= x);
    assert h[|h| - 1] in h && next[0] in next;
  }

  /** The report, record by record, against the answers: confirmed exactly when a data write that carried it
      was answered in full, ambiguous exactly when one was answered otherwise but legally; such a record had
      been accepted by the appender, and no record is in two datagrams. */
  lemma ReportMeaning(q: Request, answers: seq<Answer>, records: seq<LM.Status>, handoffs: seq<Handoff>,
                      outcome: PackOutcome, i: nat)
    requires Report(q, answers, records, handoffs, outcome) && i < |records|
    ensures records[i] == LM.Confirmed <==> Answered(answers, i, WriteFull)
    ensures records[i] == LM.Ambiguous <==> exists w :: Ambiguates(w) && Answered(answers, i, w)
    ensures forall k: nat, w :: Wrote(answers, k, i, w) ==>
      k < |answers| && (AppendAnswer(i, true, None) in answers[..k] || AppendAnswer(i, false, None) in answers[..k])
    ensures forall a, b :: 0 <= a < b < |handoffs| && i in handoffs[a].ordinals ==> i !in handoffs[b].ordinals
    ensures forall k :: 0 <= k < |handoffs| && i in handoffs[k].ordinals ==>
      && Conforms(q.config, q.sources, i, handoffs[k].shape, handoffs[k].sampling)
      && (q.config.version == V5 ==> q.sources[i].sampling == Some(handoffs[k].sampling))
    ensures forall k :: 0 <= k < |handoffs| ==>
      handoffs[k].length <= q.config.maxDatagram && 1 <= |handoffs[k].ordinals| <= q.config.maxRecords
  {
    hide Flatten, LM.Count, FullPackets, TotalRecords, BytesOf, Wrote, Answered, Dispatched, Datagrams, Halted,
         Orderly, Reasons, Books, Separated,
         Increasing;
    ClassIsAnswer(answers, records, handoffs, i);
    forall k: nat, w | Wrote(answers, k, i, w)
      ensures k < |answers|
      ensures (AppendAnswer(i, true, None) in answers[..k] || AppendAnswer(i, false, None) in answers[..k])
    {
      WroteWasAppended(answers, k, i, w);
    }
    forall a, b | 0 <= a < b < |handoffs| && i in handoffs[a].ordinals
      ensures i !in handoffs[b].ordinals
    {
      if i in handoffs[b].ordinals {
        NotHandedTwice(records, handoffs, a, b, i);
      }
    }
    forall k | 0 <= k < |handoffs|
      ensures WellFormed(q.config, q.sources, handoffs[k])
    {}
  }

  /** Why a record of the report is invalid: its mapping's own reason; 6 for no shape of its family, 4 for a rate a v5
      header cannot carry; else 11 for a record too large, 12 for a value or size the wire cannot take, 6 for the
      appender's word on its family. */
  lemma WhyInvalid(q: Request, answers: seq<Answer>, records: seq<LM.Status>, handoffs: seq<Handoff>,
                   outcome: PackOutcome, i: nat)
    requires Report(q, answers, records, handoffs, outcome) && i < |records| && records[i].Invalid?
    requires WellMapped(q.config, q.sources[i])
    ensures var s, reason := q.sources[i], records[i].reason;
      if s.Unmapped? then reason == LM.Reason(s.reason)
      else if s.shape == None then reason == 6
      else if q.config.version == V5 && (s.sampling == None || s.sampling.value >= 0x4000) then reason == 4
      else
        && reason in {6, 11, 12}
        && (reason == 11 ==>
              || (s.size.Failed? && s.size.error in {ErrRecordValueLimit, ErrBounds, ErrShortBuffer})
              || (s.size.Done? && !FitsAlone(q.config, s.shape.value, s.size.value))
              || exists e :: e in {ErrRecordValueLimit, ErrBounds, ErrShortBuffer} && Refuses(answers, i, e))
        && (reason == 12 ==> s.size.Failed? || Refuses(answers, i, ErrInvalidValue))
        && (reason == 6 ==> s.size == Failed(ErrInvalidFamily) || Refuses(answers, i, ErrInvalidFamily))
  {
    hide Books, AllWellFormed, StopsAtFailure, Separated, Dispatched, Datagrams, Orderly, Screened, Halted, Blamed,
         Interrupted, FitsAlone, Refuses;
    assert Justified(q, answers, i, records[i].reason);
  }

  lemma NotHandedTwice(records: seq<LM.Status>, handoffs: seq<Handoff>, a: nat, b: nat, i: nat)
    requires Books(records, [], handoffs) && a < |handoffs| && b < |handoffs|
    requires i in handoffs[a].ordinals && i in handoffs[b].ordinals
    ensures a == b
  {
    hide Flatten, LM.Count, FullPackets, TotalRecords;
    assert Flatten(handoffs) + [] == Flatten(handoffs);
    var x :| 0 <= x < |handoffs[a].ordinals| && handoffs[a].ordinals[x] == i;
    var y :| 0 <= y < |handoffs[b].ordinals| && handoffs[b].ordinals[y] == i;
    HandedOnce(handoffs, a, b, x, y);
  }

  // ---- packing together -----------------------------------------------------------------

  /** Encoded bytes of the first `n` records. */
  function BytesUpTo(sources: seq<Source>, n: nat): nat
  {
    if n == 0 then 0 else BytesUpTo(sources, n - 1) + BytesAt(sources, n - 1)
  }

  /** Some of the first `n` records, each of at least `minimum` bytes. */
  lemma {:induction false} SomeOf(sources: seq<Source>, ordinals: seq<nat>, n: nat, minimum: nat)
    requires Increasing(ordinals) && (forall x :: x in ordinals ==> x < n)
    requires forall i :: 0 <= i < n ==> BytesAt(sources, i) >= minimum
    ensures |ordinals| <= n && BytesOf(sources, ordinals) >= |ordinals| * minimum
    ensures if |ordinals| == n then BytesOf(sources, ordinals) == BytesUpTo(sources, n)
            else BytesOf(sources, ordinals) + minimum <= BytesUpTo(sources, n)
  {
    hide BytesAt;
    assert |ordinals| > 0 ==> ordinals[0] in ordinals;
    if n > 0 {
      var last := |ordinals| - 1;
      if ordinals != [] && ordinals[last] == n - 1 {
        SomeOf(sources, ordinals[..last], n - 1, minimum);
        assert |ordinals| * minimum == last * minimum + minimum;
      } else {
        if ordinals != [] {
          assert ordinals[last] in ordinals;
        }
        SomeOf(sources, ordinals, n - 1, minimum);
      }
    }
  }

  lemma {:induction false} FixedBytes(sources: seq<Source>, ordinals: seq<nat>, size: nat)
    requires forall x :: x in ordinals ==> BytesAt(sources, x) == size
    ensures BytesOf(sources, ordinals) == |ordinals| * size
  {
    if ordinals != [] {
      var last := |ordinals| - 1;
      assert ordinals[last] in ordinals;
      FixedBytes(sources, ordinals[..last], size);
      assert |ordinals| * size == last * size + size;
    }
  }

  /** A record that fits a packet of its own has at least the shape's minimum, and exactly that if it is fixed. */
  lemma AloneBounds(c: Config, shape: nat, size: nat)
    requires shape < |c.shapes| && FitsAlone(c, shape, size)
    ensures size >= c.shapes[shape].minimum && (!c.shapes[shape].variable ==> size == c.shapes[shape].minimum)
  {}

  /** Some of the records have room where all of them have. */
  lemma SomeHaveRoom(c: Config, sources: seq<Source>, shape: nat, sampling: nat, ordinals: seq<nat>)
    requires ValidConfig(c) && shape < |c.shapes| && Increasing(ordinals) && ordinals != []
    requires forall x :: x in ordinals ==> x < |sources|
    requires forall i :: 0 <= i < |sources| ==> FitsAlone(c, shape, BytesAt(sources, i))
    requires HasRoom(c, Fill(shape, sampling, |sources|, BytesUpTo(sources, |sources|)))
    ensures HasRoom(c, Fill(shape, sampling, |ordinals|, BytesOf(sources, ordinals))) && |ordinals| <= |sources|
  {
    hide BytesAt, FitsAlone, DataSetSize;
    var s := c.shapes[shape];
    forall i | 0 <= i < |sources|
      ensures BytesAt(sources, i) >= s.minimum && (!s.variable ==> BytesAt(sources, i) == s.minimum)
    {
      AloneBounds(c, shape, BytesAt(sources, i));
    }
    SomeOf(sources, ordinals, |sources|, s.minimum);
    if !s.variable {
      FixedBytes(sources, ordinals, s.minimum);
    }
    PaddedMonotone(c.version, s.minimum, s.variable, BytesOf(sources, ordinals), |ordinals|,
                   BytesUpTo(sources, |sources|), |sources|);
  }

  lemma BytesGiven(sources: seq<Source>, o: nat)
    requires o < |sources| && sources[o].Mapped? && sources[o].size.Done?
    ensures BytesAt(sources, o) == sources[o].size.value
  {}

  /** Every record is of this shape and rate and fits a packet of its own, and there is room for all of them in one. */
  ghost predicate FitTogether(c: Config, sources: seq<Source>, shape: nat, sampling: nat)
  {
    && shape < |c.shapes| && |sources| <= c.maxRecords
    && (forall i :: 0 <= i < |sources| ==>
          Conforms(c, sources, i, shape, sampling) && FitsAlone(c, shape, BytesAt(sources, i)))
    && HasRoom(c, Fill(shape, sampling, |sources|, BytesUpTo(sources, |sources|)))
  }

  /** Then none of them is kept out of a datagram that holds earlier ones, but by the appender. */
  lemma NothingParts(c: Config, sources: seq<Source>, answers: seq<Answer>, shape: nat, sampling: nat, h: Handoff, o: nat)
    requires ValidConfig(c) && FitTogether(c, sources, shape, sampling) && o < |sources| && WellFormed(c, sources, h)
    requires Increasing(h.ordinals) && forall x :: x in h.ordinals ==> x < o
    ensures Parts(c, sources, answers, FillOf(sources, h), o) ==>
      exists e :: IsAppendBoundary(e) && AppendAnswer(o, false, Some(e)) in answers
  {
    hide FitsAlone, HasRoom, BytesOf, BytesAt, Sized, IsAppendBoundary, SamplingOf;
    var more, fill := h.ordinals + [o], FillOf(sources, h);
    assert h.ordinals[0] in h.ordinals && Conforms(c, sources, h.ordinals[0], h.shape, h.sampling);
    assert Conforms(c, sources, h.ordinals[0], shape, sampling) && Conforms(c, sources, o, shape, sampling);
    BytesAppended(sources, h.ordinals, o);
    BytesGiven(sources, o);
    assert forall i :: 0 <= i < |h.ordinals| ==> h.ordinals[i] in h.ordinals;
    SomeHaveRoom(c, sources, shape, sampling, more);
    assert fill.(records := fill.records + 1, bytes := fill.bytes + sources[o].size.value)
        == Fill(shape, sampling, |more|, BytesOf(sources, more));
  }

  /** Records of one shape and rate that have room together go out together: whatever else becomes of the request,
      two datagrams take an appender that found no room. */
  lemma OneDatagram(q: Request, answers: seq<Answer>, records: seq<LM.Status>, handoffs: seq<Handoff>,
                    outcome: PackOutcome, shape: nat, sampling: nat)
    requires Report(q, answers, records, handoffs, outcome) && ValidConfig(q.config)
    requires FitTogether(q.config, q.sources, shape, sampling) && |handoffs| > 1
    ensures exists o, e :: IsAppendBoundary(e) && AppendAnswer(o, false, Some(e)) in answers
  {
    hide FitTogether, Parts, LM.Count, FullPackets, TotalRecords, Sized, Flatten, Reasons, Screened,
         Dispatched, Datagrams, Orderly, Halted, Blamed, Interrupted, IsAppendBoundary;
    var c, h := q.config, handoffs[0];
    assert Parted(c, q.sources, answers, h, handoffs[1].ordinals, |records|);
    var o: nat :| o < |records| && Parts(c, q.sources, answers, FillOf(q.sources, h), o)
                  && (forall x :: x in h.ordinals ==> x < o);
    assert WellFormed(c, q.sources, h);
    assert Flatten(handoffs) + [] == Flatten(handoffs);
    OrdinalsIncrease(handoffs, 0);
    NothingParts(c, q.sources, answers, shape, sampling, h, o);
  }
}
