/** What the packer relies on from the state machine of a published epoch. */
module PackerLaws {
  import opened Base
  import opened Sizes
  import opened StateModel
  import opened StateLaws

  /** The committed data packets, oldest first. */
  function DataKinds(trace: seq<Sent>): seq<Kind>
  {
    if trace == [] then []
    else
      var last := trace[|trace| - 1].kind;
      DataKinds(trace[..|trace| - 1]) + if last.Data? then [last] else []
  }

  lemma DataKindsGrow(trace: seq<Sent>, sent: Sent)
    ensures DataKinds(trace + [sent]) == DataKinds(trace) + if sent.kind.Data? then [sent.kind] else []
  {
    assert (trace + [sent])[..|trace|] == trace;
  }

  /** A published epoch between packets, and the same epoch later with nothing more committed. */
  ghost predicate Resting(s: St) { s.epoch.ready && s.pending == None }

  ghost predicate Steady(before: St, after: St)
  {
    after.epoch == before.epoch && after.trace == before.trace
  }

  /** The clock was asked: the epoch ends only on an instant it cannot put into a header. */
  ghost predicate Spent(c: Config, before: St, after: St, wall: nat)
  {
    && after.epoch == before.epoch.(exhausted := after.epoch.exhausted) && after.trace == before.trace
    && (after.epoch.exhausted ==> before.epoch.exhausted || !Usable(c, Origin(c, before), wall))
  }

  /** A data packet being filled. */
  datatype Fill = Fill(shape: nat, sampling: nat, records: nat, bytes: nat)

  /** One datagram of `fill` is exactly `length` bytes, within the datagram limit. */
  predicate Sized(c: Config, fill: Fill, length: nat)
  {
    && fill.shape < |c.shapes| && length <= c.maxDatagram
    && (var set_ := DataSetSize(c.version, c.shapes[fill.shape].minimum, c.shapes[fill.shape].variable, fill.bytes, fill.records);
        set_.Some? && length == HeaderBytes(c.version) + set_.value.length)
  }

  ghost predicate Filling(c: Config, s: St, fill: Fill)
  {
    && s.pending.Some? && s.pending.value.stream.Some? && s.pending.value.shape == fill.shape
    && s.epoch.ready && !s.pending.value.encoded && !s.pending.value.template
    && s.pending.value.stream.value.records == s.pending.value.dataRecords == fill.records
    && s.pending.value.stream.value.bytes == fill.bytes
    && s.pending.value.stream.value.samplingInterval == s.pending.value.header.samplingInterval == fill.sampling
    && s.pending.value.stream.value.capacity == c.maxDatagram
    && (fill.records > 0 ==> Sized(c, fill, s.pending.value.length))
  }

  /** The capacity of an open data packet never exceeds what the ledger admits. */
  lemma FillingBounded(c: Config, s: St, fill: Fill)
    requires Inv(c, s) && Filling(c, s, fill)
    ensures fill.records <= c.maxRecords <= 1024 && fill.shape < |c.shapes|
  {}

  lemma FillingStream(c: Config, s: St, fill: Fill)
    requires Inv(c, s) && Filling(c, s, fill)
    ensures s.pending.Some? && s.pending.value.stream.Some? && s.pending.value.shape == fill.shape < |c.shapes|
  {}

  lemma DueRests(c: Config, s: St, mono: nat)
    requires Inv(c, s) && Resting(s)
    ensures Resting(MarkDue(c, s, mono)) && Steady(s, MarkDue(c, s, mono))
    ensures MarkDue(c, MarkDue(c, s, mono), mono) == MarkDue(c, s, mono)
    ensures MarkDue(c, s, mono).nextTemplateIndex == s.nextTemplateIndex
    ensures MarkDue(c, s, mono).refreshDue && !s.refreshDue && !CountReached(c, s) ==> IntervalElapsed(c, s, mono)
  {}

  /** A sampling rate the header of this protocol can carry. */
  predicate Carried(c: Config, sampling: nat)
  {
    if c.version == V5 then sampling <= MAX_SAMPLING else sampling == 0
  }

  /** A data packet opens on a usable instant if the appender begins; and only then. */
  lemma StreamBegins(c: Config, s: St, wall: nat, mono: nat, shape: nat, sampling: nat, begun: bool)
    requires Inv(c, s) && Resting(s) && shape < |c.shapes| && Carried(c, sampling)
    requires MarkDue(c, s, mono) == s && !s.refreshDue && !s.refreshActive
    ensures var (t, r) := BeginStream(c, s, wall, mono, shape, c.maxDatagram, sampling, begun);
      && Spent(c, s, t, wall)
      && (if r.Done? then begun && Filling(c, t, Fill(shape, sampling, 0, 0))
          else Resting(t) && (s.epoch.exhausted || !Usable(c, Origin(c, s), wall) || (Judge(c, s, wall).Granted? && !begun)))
  {
    hide Core, Judge;
    WallGranted(c, s, wall);
    if Judge(c, s, wall).Granted? {
      HeaderGranted(c, s, wall, sampling);
    }
  }

  /** A usable instant is granted, in a published epoch. */
  lemma WallGranted(c: Config, s: St, wall: nat)
    requires Inv(c, s) && s.epoch.ready
    ensures Usable(c, Origin(c, s), wall) ==> Judge(c, s, wall).Granted?
    ensures Judge(c, s, wall).Exhausted? ==> !Usable(c, Origin(c, s), wall)
  {
    hide Sequenced, TimeOrdered, PhaseAgrees;
  }

  /** What is granted can be put into a header. */
  lemma HeaderGranted(c: Config, s: St, wall: nat, sampling: nat)
    requires Inv(c, s) && s.epoch.ready && Carried(c, sampling) && Judge(c, s, wall).Granted?
    ensures forall t: St :: t.epoch == s.epoch ==> HeaderFor(c, t, Judge(c, s, wall).instant, sampling).Done?
  {
    hide Sequenced, TimeOrdered, PhaseAgrees;
  }

  /** The clamped preview instant is as good as the sample, and good enough for a header. */
  lemma PreviewUsable(c: Config, s: St, wall: nat, sampling: nat)
    requires Inv(c, s) && s.epoch.ready && Carried(c, sampling) && Usable(c, Origin(c, s), wall)
    ensures Usable(c, Origin(c, s), Clamp(s, wall)) && HeaderFor(c, s, Clamp(s, wall), sampling).Done?
  {
    hide Sequenced, TimeOrdered, PhaseAgrees;
  }

  // ---- filling --------------------------------------------------------------------------

  /** One datagram of `fill` stays within the datagram limit. */
  predicate HasRoom(c: Config, fill: Fill)
  {
    && fill.shape < |c.shapes|
    && var set_ := DataSetSize(c.version, c.shapes[fill.shape].minimum, c.shapes[fill.shape].variable, fill.bytes, fill.records);
       set_.Some? && HeaderBytes(c.version) + set_.value.length <= c.maxDatagram
  }

  /** A record of this size does not join `fill`: it has no size, or the datagram no room for it. */
  predicate Crowded(c: Config, fill: Fill, size: Outcome<nat>, error: Error)
  {
    match size
    case Failed(e) => e == error
    case Done(bytes) => !HasRoom(c, fill.(records := fill.records + 1, bytes := fill.bytes + bytes))
  }

  /** A packet of its own has room for a record of this encoded size. */
  predicate FitsAlone(c: Config, shape: nat, size: nat)
    requires shape < |c.shapes|
  {
    var set_ := DataSetSize(c.version, c.shapes[shape].minimum, c.shapes[shape].variable, size, 1);
    set_.Some? && HeaderBytes(c.version) + set_.value.length <= c.maxDatagram
  }

  /** The state's own reasons to refuse a record: it has no size, or it does not fit what is left. A record that fits
      a packet of its own is not refused by an empty one. */
  lemma StreamAppends(c: Config, s: St, fill: Fill, size: Outcome<nat>, sampling: nat, appender: Option<Error>)
    requires Inv(c, s) && Filling(c, s, fill) && Carried(c, sampling) && sampling == fill.sampling
    ensures s.pending.value.shape < |c.shapes|
    ensures var refused := AppendError(c, s.pending.value, size, sampling, None);
      && Append(c, s, size, sampling, appender).1 == (if refused.Some? then refused else appender)
      && (size.Failed? ==> refused.Some?)
      && (refused.Some? ==> size == Failed(refused.value) || refused.value in {ErrBounds, ErrShortBuffer})
      && (refused.Some? ==> fill.records >= c.maxRecords || Crowded(c, fill, size, refused.value))
      && (fill.records == fill.bytes == 0 && size.Done? && FitsAlone(c, fill.shape, size.value) ==> refused == None)
    ensures var (t, err) := Append(c, s, size, sampling, appender);
      && Steady(s, t)
      && (if err == None
          then size.Done? && Filling(c, t, fill.(records := fill.records + 1, bytes := fill.bytes + size.value)) else t == s)
  {
    hide Core, DataSetSize;
  }

  lemma FillingAborts(c: Config, s: St, fill: Fill)
    requires Inv(c, s) && Filling(c, s, fill)
    ensures Resting(Abort(s)) && Steady(s, Abort(s))
  {
    hide Core;
  }

  /** A finished data packet, ready for the transport: its header carries the rate of its records. */
  ghost predicate Finished(s: St, fill: Fill, length: nat)
  {
    && s.epoch.ready && s.pending.Some? && s.pending.value.encoded && !s.pending.value.template
    && s.pending.value.shape == fill.shape && s.pending.value.dataRecords == fill.records
    && s.pending.value.length == length && s.pending.value.header.samplingInterval == fill.sampling
  }

  /** A packet that holds records finishes exactly when the appender reports its length. */
  lemma StreamFinishes(c: Config, s: St, fill: Fill, finished: Option<int>)
    requires Inv(c, s) && Filling(c, s, fill) && fill.records > 0
    ensures s.pending.value.shape < |c.shapes|
    ensures Sized(c, fill, s.pending.value.length)
    ensures var (t, r) := Finish(c, s, finished);
      && Steady(s, t)
      && (r.Done? <==> finished == Some(s.pending.value.length))
      && (if r.Done? then r.value == s.pending.value.length && Finished(t, fill, r.value) else Resting(t))
  {
    hide Core, DataSetSize;
    FinishRests(c, s);
  }

  lemma FinishRests(c: Config, s: St)
    requires Inv(c, s) && s.pending.Some? && s.epoch.ready
    ensures Resting(Rollback(s, s.pending.value.prior)) && Steady(s, Rollback(s, s.pending.value.prior))
  {
    hide Core;
  }

  lemma FinishedBounded(c: Config, s: St, fill: Fill, length: nat)
    requires Inv(c, s) && Finished(s, fill, length)
    ensures fill.records <= c.maxRecords
  {}

  /** A data commit adds one data packet of exactly these records when the write was full, and nothing
      otherwise. */
  lemma DataCommits(c: Config, s: St, fill: Fill, length: nat, write: WriteClass)
    requires Inv(c, s) && Finished(s, fill, length)
    ensures var t := CommitState(c, s, write);
      && Resting(t) && t.epoch == s.epoch.(sequence := t.epoch.sequence)
      && DataKinds(t.trace) == DataKinds(s.trace) + (if write == WriteFull then [Data(fill.shape, fill.records)] else [])
      && (if write == WriteFull then |t.trace| == |s.trace| + 1 && s.trace <= t.trace
                                     && t.trace[|s.trace|].kind == Data(fill.shape, fill.records)
          else t.trace == s.trace)
  {
    hide Core, Inv;
    DataKindsGrow(s.trace, SentOf(s.pending.value));
  }

  // ---- refresh --------------------------------------------------------------------------

  /** A refresh round in progress or about to start, at its next template. */
  ghost predicate Refreshing(c: Config, s: St)
  {
    Resting(s) && (s.refreshDue || s.refreshActive)
  }

  /** The committed packets of `after` are those of `before` and then templates `from` up to `upto`. */
  ghost predicate TemplatesSent(before: seq<Sent>, after: seq<Sent>, from: nat, upto: nat)
  {
    && from <= upto && |after| == |before| + upto - from && before <= after
    && forall k :: from <= k < upto ==> after[|before| + k - from].kind == Template(k)
  }

  /** The round that stood at `before` moved on to template `upto`; past the last one it is over. */
  ghost predicate RoundAt(c: Config, before: St, s: St, upto: nat)
  {
    && Resting(s) && TemplatesSent(before.trace, s.trace, before.nextTemplateIndex, upto) && upto <= |c.shapes|
    && s.epoch == before.epoch.(sequence := s.epoch.sequence, exhausted := s.epoch.exhausted)
    && (if upto < |c.shapes| then Refreshing(c, s) && s.nextTemplateIndex == upto
        else !s.refreshDue && !s.refreshActive && !CountReached(c, s) && s.lastRefreshMono.Some?)
  }

  /** Only templates were committed, those of one round. */
  ghost predicate AtMostOneRound(c: Config, before: St, after: seq<Sent>)
  {
    exists upto: nat :: upto <= |c.shapes| && TemplatesSent(before.trace, after, before.nextTemplateIndex, upto)
  }

  lemma NoRound(c: Config, s: St)
    requires Inv(c, s) && s.epoch.ready
    ensures AtMostOneRound(c, s, s.trace)
  {
    assert TemplatesSent(s.trace, s.trace, s.nextTemplateIndex, s.nextTemplateIndex);
  }

  /** Whatever part of a round was sent, no data packet was committed. */
  lemma RoundIsNoData(c: Config, before: St, after: seq<Sent>)
    requires AtMostOneRound(c, before, after)
    ensures DataKinds(after) == DataKinds(before.trace)
    ensures |after| <= |before.trace| + |c.shapes|
  {
    var upto: nat :| upto <= |c.shapes| && TemplatesSent(before.trace, after, before.nextTemplateIndex, upto);
    TemplatesAreNoData(before.trace, after, before.nextTemplateIndex, upto);
  }

  lemma RefreshPosition(c: Config, s: St)
    requires Inv(c, s) && Refreshing(c, s)
    ensures s.nextTemplateIndex < |c.shapes| && c.version != V5
  {}

  /** A template of a published epoch, reserved at `mono` but not yet written. */
  ghost predicate Offered(c: Config, s: St, before: St, mono: nat)
  {
    && s.epoch.ready && s.pending.Some? && s.pending.value.template && s.refreshActive
    && s.pending.value.stream == None && s.trace == before.trace && s.epoch == before.epoch
    && s.nextTemplateIndex == s.pending.value.prior.nextTemplateIndex == s.pending.value.shape == before.nextTemplateIndex
    && s.pending.value.mono == mono
  }

  /** The reservation was not made or was given up: the round still stands where it stood. */
  ghost predicate NotSent(c: Config, before: St, after: St)
  {
    && Refreshing(c, after) && after.nextTemplateIndex == before.nextTemplateIndex && after.trace == before.trace
    && after.epoch == before.epoch.(exhausted := after.epoch.exhausted)
  }

  /** The next template of the round was committed, at `mono`. */
  ghost predicate TemplateSent(c: Config, before: St, after: St, mono: nat)
  {
    && Resting(after) && |after.trace| == |before.trace| + 1 && before.trace <= after.trace
    && after.trace[|before.trace|].kind == Template(before.nextTemplateIndex)
    && after.epoch == before.epoch.(sequence := after.epoch.sequence)
    && (if before.nextTemplateIndex + 1 < |c.shapes|
        then Refreshing(c, after) && after.nextTemplateIndex == before.nextTemplateIndex + 1
        else !after.refreshDue && !after.refreshActive && !CountReached(c, after) && after.lastRefreshMono == Some(mono))
  }

  /** A due template is reserved on a usable instant, and only then. */
  lemma TemplateBegins(c: Config, s: St, wall: nat, mono: nat)
    requires Inv(c, s) && Refreshing(c, s)
    ensures var (t, r) := BeginTemplate(c, s, wall, mono, s.nextTemplateIndex);
      && Spent(c, s, t, wall)
      && (if r.Done? then Offered(c, t, s, mono) && !r.value.encoded && r.value.stream == None
          else NotSent(c, s, t) && (s.epoch.exhausted || !Usable(c, Origin(c, s), wall)))
  {
    hide Sequenced, TimeOrdered, Judge;
    WallGranted(c, s, wall);
    if Judge(c, s, wall).Granted? {
      HeaderGranted(c, s, wall, 0);
    }
  }

  lemma TemplateEncodes(c: Config, s: St, before: St, mono: nat, written: Option<int>)
    requires Inv(c, s) && Offered(c, s, before, mono) && !s.pending.value.encoded
    ensures var (t, r) := Encode(s, written);
      && (r.Done? <==> written == Some(s.pending.value.length)) && t.epoch == s.epoch
      && (if r.Done? then Offered(c, t, before, mono) && t.pending.value.encoded && t.pending.value.length == r.value
                          && t == s.(pending := Some(s.pending.value.(encoded := true)))
          else NotSent(c, before, t))
  {
    TemplateAborts(c, s, before, mono);
  }

  lemma TemplateAborts(c: Config, s: St, before: St, mono: nat)
    requires Inv(c, s) && Offered(c, s, before, mono)
    ensures NotSent(c, before, Abort(s)) && Abort(s).epoch == s.epoch
  {
    hide Core;
  }

  /** A template commit moves the round forward by one template, or finishes the round; an answer that
      is not full leaves the round where it stood. */
  lemma TemplateCommits(c: Config, s: St, before: St, mono: nat, write: WriteClass)
    requires Inv(c, s) && Offered(c, s, before, mono)
    ensures if write == WriteFull then TemplateSent(c, before, CommitState(c, s, write), mono)
            else NotSent(c, before, CommitState(c, s, write))
    ensures CommitState(c, s, write).epoch == s.epoch.(sequence := CommitState(c, s, write).epoch.sequence)
  {
    hide Sequenced, TimeOrdered;
  }

  lemma RoundStarts(c: Config, s: St)
    requires Inv(c, s) && Refreshing(c, s)
    ensures RoundAt(c, s, s, s.nextTemplateIndex) && s.nextTemplateIndex < |c.shapes|
  {
    RefreshPosition(c, s);
  }

  lemma RoundKeepsTrace(c: Config, before: St, s: St, upto: nat)
    ensures RoundAt(c, before, s, upto) ==> before.trace <= s.trace
  {}

  lemma RoundMoves(c: Config, before: St, s: St, upto: nat, after: St, mono: nat)
    requires RoundAt(c, before, s, upto) && upto < |c.shapes|
    ensures TemplateSent(c, s, after, mono) ==> RoundAt(c, before, after, upto + 1)
    ensures TemplateSent(c, s, after, mono) && upto + 1 == |c.shapes| ==> after.lastRefreshMono == Some(mono)
    ensures NotSent(c, s, after) ==> RoundAt(c, before, after, upto)
  {}

  /** Templates are no data packets. */
  lemma {:induction false} TemplatesAreNoData(before: seq<Sent>, after: seq<Sent>, from: nat, upto: nat)
    requires TemplatesSent(before, after, from, upto)
    ensures DataKinds(after) == DataKinds(before)
    decreases upto
  {
    if upto == from {
      assert after == before;
    } else {
      var init, last := after[..|after| - 1], after[|after| - 1];
      var k := upto - 1;
      assert after == init + [last] && after[|before| + k - from].kind == Template(k);
      TemplatesAreNoData(before, init, from, upto - 1);
      DataKindsGrow(init, last);
      assert DataKinds(init) + [] == DataKinds(init);
    }
  }
}
