/** The protocol state machine as the mutable object the exporter holds. Each method changes fields in
    place and is proved to be the transition of StateModel on the object's abstract value. A returned
    packet is a copy that shares its stream counters with the pending transaction. */
module States {
  import opened Base
  import opened Sizes
  import opened StateModel
  import opened StateLaws

  /** The one mutable handle of a streamed packet. */
  class StreamPacket {
    const samplingInterval: nat
    const capacity: nat
    var records: nat
    var bytes: nat
    var length: nat

    constructor (samplingInterval: nat, capacity: nat)
      ensures this.samplingInterval == samplingInterval && this.capacity == capacity
      ensures records == 0 && bytes == 0 && length == 0
    {
      this.samplingInterval, this.capacity := samplingInterval, capacity;
      records, bytes, length := 0, 0, 0;
    }

    ghost function Model(): Stream
      reads this
    {
      Stream(samplingInterval, records, bytes, capacity, length)
    }
  }

  /** Template-round position and refresh triggers. */
  datatype Progress = Progress(nextTemplateIndex: nat, templateRound: nat, refreshActive: bool, refreshDue: bool,
                               lastRefreshMono: Option<nat>, packetCount: nat, dataMessageCount: nat)

  const NO_PROGRESS := Progress(0, 0, false, false, None, 0, 0)

  datatype Packet = Packet(owner: State, epochID: nat, token: nat, header: Header, shape: nat, template: bool,
                           dataRecords: nat, mono: nat, instant: nat, length: nat, encoded: bool,
                           stream: StreamPacket?, prior: Prior)
  {
    ghost function Model(): Pending
      reads if stream == null then {} else {stream}
    {
      Pending(epochID, token, header, shape, template, dataRecords, mono, instant, length, encoded,
              if stream == null then None else Some(stream.Model()), prior)
    }

    /** Packet.DataRecords: a streamed packet reads the shared counter. */
    function DataRecords(): nat
      reads if stream == null then {} else {stream}
    {
      if stream != null then stream.records else dataRecords
    }
  }

  class State {
    const config: Config
    var epoch: Epoch
    var nextID: nat
    var progress: Progress
    var lastReservedWall: Option<nat>
    var nextToken: nat
    var pending: Option<Packet>
    ghost var trace: seq<Sent>
    ghost var handed: seq<nat>

    ghost function Streams(): set<object>
      reads this
    {
      if pending.Some? && pending.value.stream != null then {pending.value.stream} else {}
    }

    ghost function Model(): St
      reads this, Streams()
    {
      St(epoch, nextID, progress.nextTemplateIndex, progress.templateRound, progress.refreshActive,
         progress.refreshDue, progress.lastRefreshMono, progress.packetCount, progress.dataMessageCount,
         lastReservedWall, nextToken,
         if pending.Some? then Some(pending.value.Model()) else None, trace, handed)
    }

    ghost predicate Valid()
      reads this, Streams()
    {
      && Inv(config, Model())
      && (pending.Some? ==> pending.value.owner == this)
    }

    /** The packet is the pending transaction of this epoch. */
    predicate Holds(packet: Packet)
      reads this
    {
      pending.Some? && pending.value.token == packet.token && packet.owner == this && packet.epochID == epoch.id
    }

    predicate HoldsStream(packet: Packet)
      reads this
    {
      Holds(packet) && packet.stream != null && pending.value.stream == packet.stream
    }

    constructor (config: Config)
      requires ValidConfig(config)
      ensures Valid() && this.config == config && Model() == Init(config)
    {
      this.config := config;
      epoch := NewEpoch(config, 1);
      nextID, progress, lastReservedWall := 1, NO_PROGRESS, None;
      nextToken, pending, trace, handed := 0, None, [], [];
      new;
      InitInv(config);
    }

    method MarkRefreshDue(mono: nat)
      modifies this`progress
      ensures Model() == MarkDue(config, old(Model()), mono)
    {
      if config.version == V5 || !epoch.ready || progress.refreshActive || progress.refreshDue {
        return;
      }
      if progress.lastRefreshMono.Some? && mono >= progress.lastRefreshMono.value
         && mono - progress.lastRefreshMono.value >= config.interval {
        progress := progress.(refreshDue := true);
        return;
      }
      if config.version == V9 && progress.packetCount >= config.refreshCount {
        progress := progress.(refreshDue := true);
      }
      if config.version == IPFIX && config.refreshCount != 0 && progress.dataMessageCount >= config.refreshCount {
        progress := progress.(refreshDue := true);
      }
    }

    method RefreshDue(mono: nat) returns (due: bool)
      requires Valid()
      modifies this`progress
      ensures Valid() && Model() == MarkDue(config, old(Model()), mono)
      ensures due == (Model().refreshDue || Model().refreshActive)
    {
      hide Inv;
      MarkDueInv(config, Model(), mono);
      MarkRefreshDue(mono);
      due := progress.refreshDue || progress.refreshActive;
    }

    method ReserveWall(wall: nat) returns (r: Outcome<nat>)
      modifies this`lastReservedWall, this`epoch
      ensures (Model(), r) == Reserve(config, old(Model()), wall)
    {
      if wall > MAX_INT64 {
        return Failed(ErrTimeNotRepresentable);
      }
      var instant := wall;
      if lastReservedWall.Some? && instant < lastReservedWall.value {
        instant := lastReservedWall.value;
      }
      if instant / NANOS_PER_SECOND > MAX_UINT32 {
        return Failed(ErrTimeNotRepresentable);
      }
      if config.version != IPFIX {
        var origin := if config.origin.Some? then config.origin else epoch.startOrigin;
        if origin == None {
          if config.version == V9 && !epoch.ready {
            lastReservedWall := Some(instant);
            return Done(instant);
          }
          return Failed(ErrTimeNotRepresentable);
        }
        if instant < origin.value {
          return Failed(ErrTimeNotRepresentable);
        }
        if (instant - origin.value) / NANOS_PER_MS > MAX_UINT32 {
          epoch := epoch.(exhausted := true);
          return Failed(ErrUptimeExhausted);
        }
        if (instant - origin.value) % NANOS_PER_MS != 0 {
          return Failed(ErrTimeNotRepresentable);
        }
      }
      lastReservedWall := Some(instant);
      return Done(instant);
    }

    /** ReserveWall would grant this sample. */
    predicate Grants(wall: nat)
      reads this, Streams()
      ensures Grants(wall) == Judge(config, Model(), wall).Granted?
    {
      Judge(config, St(epoch, nextID, 0, 0, false, false, None, 0, 0, lastReservedWall, nextToken, None, [], []), wall).Granted?
    }

    function CurrentPrior(): (prior: Prior)
      reads this, Streams()
      ensures prior == PriorOf(Model())
    {
      Prior(progress.refreshActive, progress.refreshDue, progress.nextTemplateIndex, progress.templateRound,
            lastReservedWall, epoch.startOrigin)
    }

    method HeaderLocked(instant: nat, sampling: nat) returns (r: Outcome<Header>)
      ensures r == HeaderFor(config, Model(), instant, sampling)
      ensures r.Done? ==> Carries(config, epoch, r.value, sampling, instant)
    {
      var origin := None;
      if config.version != IPFIX {
        origin := if config.origin.Some? then config.origin else epoch.startOrigin;
        if origin == None {
          return Failed(ErrTimeNotRepresentable);
        }
      }
      var header := Header(config.version, epoch.sequence, config.sourceID, config.domainID, config.engineType,
                           config.engineID, config.samplingMode, sampling, instant, origin);
      if !ValidHeader(header) {
        return Failed(ErrInvalidHeader);
      }
      return Done(header);
    }

    /** A reservation's answer: on success the packet is the new pending transaction. */
    ghost predicate Reserved(r: Outcome<Packet>, expected: Outcome<Pending>, before: Option<Packet>, streamed: bool)
      reads this, Streams()
    {
      match r
      case Done(p) =>
        expected.Done? && pending == Some(p) && Holds(p) && (p.stream != null <==> streamed)
        && p.Model() == expected.value
      case Failed(error) => expected == Failed(error) && pending == before
    }

    method ReserveTemplate(wall: nat, mono: nat, shape: nat) returns (r: Outcome<Packet>)
      requires shape < |config.shapes| && pending == None
      modifies this
      ensures Model() == StateModel.ReserveTemplate(config, old(Model()), wall, mono, shape).0
      ensures r.Done? ==> Carries(config, epoch, r.value.header, 0, r.value.instant)
      ensures Reserved(r, StateModel.ReserveTemplate(config, old(Model()), wall, mono, shape).1, None, false)
    {
      hide Judge, Carries, HeaderFor, Reserve;
      var prior := CurrentPrior();
      var reserved := ReserveWall(wall);
      if reserved.Failed? {
        return Failed(reserved.error);
      }
      if config.version == V9 && config.origin == None && epoch.startOrigin == None {
        epoch := epoch.(startOrigin := Some(reserved.value));
      }
      var header := HeaderLocked(reserved.value, 0);
      if header.Failed? {
        return Failed(header.error);
      }
      var length := HeaderBytes(config.version) + config.shapes[shape].templateBytes;
      var p := Packet(this, epoch.id, nextToken + 1, header.value, shape, true, 0, mono, reserved.value, length, false,
                      null, prior);
      nextToken, pending := nextToken + 1, Some(p);
      if epoch.ready && !progress.refreshActive {
        progress := progress.(refreshActive := true, nextTemplateIndex := 0, templateRound := 0);
      }
      return Done(p);
    }

    method BeginTemplate(wall: nat, mono: nat, shapeIndex: int) returns (r: Outcome<Packet>)
      requires Valid()
      modifies this
      ensures Valid()
      ensures Model() == StateModel.BeginTemplate(config, old(Model()), wall, mono, shapeIndex).0
      ensures r.Done? ==> Carries(config, epoch, r.value.header, 0, r.value.instant)
      ensures Reserved(r, StateModel.BeginTemplate(config, old(Model()), wall, mono, shapeIndex).1, old(pending), false)
    {
      hide Inv, Carries, StateModel.ReserveTemplate;
      BeginTemplateInv(config, Model(), wall, mono, shapeIndex);
      if pending.Some? {
        return Failed(ErrTransaction);
      }
      if shapeIndex < 0 || shapeIndex >= |config.shapes| {
        return Failed(ErrShapeNotInCatalog);
      }
      if epoch.exhausted {
        return Failed(ErrUptimeExhausted);
      }
      if config.version == V5 {
        return Failed(ErrInvalidConfig);
      }
      if HeaderBytes(config.version) + config.shapes[shapeIndex].templateBytes > config.maxDatagram {
        return Failed(ErrBounds);
      }
      if epoch.ready {
        MarkRefreshDue(mono);
        if !progress.refreshDue && !progress.refreshActive {
          return Failed(ErrRefreshNotDue);
        }
      }
      if shapeIndex != progress.nextTemplateIndex {
        return Failed(ErrTemplateProgress);
      }
      r := ReserveTemplate(wall, mono, shapeIndex);
    }

    // ---- rollback ----

    method DiscardUnpublished()
      modifies this
      ensures Model() == Discard(old(Model())) && pending == old(pending)
    {
      if epoch.ready {
        return;
      }
      progress := NO_PROGRESS;
      epoch := epoch.(startOrigin := None, sequence := 0);
      trace := [];
      assert pending == old(pending) && nextID == old(nextID) && nextToken == old(nextToken) && handed == old(handed);
    }

    method RestoreEncodeReservation(prior: Prior)
      modifies this
      ensures Model() == Rollback(old(Model()), prior) && pending == None
    {
      lastReservedWall := prior.reservedWall;
      pending := None;
      if !epoch.ready {
        DiscardUnpublished();
      } else {
        epoch := epoch.(startOrigin := prior.startOrigin);
        progress := progress.(refreshActive := prior.refreshActive, refreshDue := prior.refreshDue,
                              nextTemplateIndex := prior.nextTemplateIndex, templateRound := prior.templateRound);
      }
    }

    method AbortPacket(packet: Packet) returns (err: Option<Error>)
      requires Valid()
      modifies this
      ensures Valid()
      ensures old(Holds(packet)) ==> err == None && Model() == Abort(old(Model())) && pending == None
      ensures !old(Holds(packet)) ==> err == Some(ErrTransaction) && unchanged(this)
    {
      hide Inv, Rollback;
      if !Holds(packet) {
        return Some(ErrTransaction);
      }
      AbortInv(config, Model());
      RestoreEncodeReservation(pending.value.prior);
      return None;
    }

    // ---- streaming ----

    /** `appenderBegins` is the appender's own answer to Begin on this buffer and header. */
    method ReserveStream(wall: nat, mono: nat, shape: nat, capacity: nat, sampling: nat, appenderBegins: bool)
      returns (r: Outcome<Packet>)
      requires shape < |config.shapes| && pending == None
      modifies this
      ensures Model() == StateModel.ReserveStream(config, old(Model()), wall, mono, shape, capacity, sampling, appenderBegins).0
      ensures Reserved(r, StateModel.ReserveStream(config, old(Model()), wall, mono, shape, capacity, sampling, appenderBegins).1,
                       None, true)
      ensures r.Done? ==> Carries(config, epoch, r.value.header, sampling, r.value.instant)
      ensures r.Done? ==> fresh(r.value.stream)
    {
      hide Judge, Rollback, Carries;
      var prior := CurrentPrior();
      var reserved := ReserveWall(wall);
      if reserved.Failed? {
        return Failed(reserved.error);
      }
      var header := HeaderLocked(reserved.value, sampling);
      if header.Failed? {
        lastReservedWall := prior.reservedWall;
        return Failed(header.error);
      }
      nextToken := nextToken + 1;
      var stream := new StreamPacket(sampling, capacity);
      var p := Packet(this, epoch.id, nextToken, header.value, shape, false, 0, mono, reserved.value, 0, false,
                      stream, prior);
      pending := Some(p);
      if !appenderBegins {
        RestoreEncodeReservation(prior);
        return Failed(ErrAppender);
      }
      return Done(p);
    }

    method BeginDataStream(wall: nat, mono: nat, shapeIndex: int, capacity: nat, sampling: nat, appenderBegins: bool)
      returns (r: Outcome<Packet>)
      requires Valid()
      modifies this
      ensures Valid()
      ensures Model() == BeginStream(config, old(Model()), wall, mono, shapeIndex, capacity, sampling, appenderBegins).0
      ensures Reserved(r, BeginStream(config, old(Model()), wall, mono, shapeIndex, capacity, sampling, appenderBegins).1,
                       old(pending), true)
      ensures r.Done? ==> Carries(config, epoch, r.value.header, sampling, r.value.instant)
      ensures r.Done? ==> fresh(r.value.stream)
    {
      hide Inv, Carries, StateModel.ReserveStream;
      BeginStreamInv(config, Model(), wall, mono, shapeIndex, capacity, sampling, appenderBegins);
      if pending.Some? {
        return Failed(ErrTransaction);
      }
      if shapeIndex < 0 || shapeIndex >= |config.shapes| {
        return Failed(ErrShapeNotInCatalog);
      }
      if epoch.exhausted {
        return Failed(ErrUptimeExhausted);
      }
      if sampling > MAX_SAMPLING || (config.version != V5 && sampling != 0) {
        return Failed(ErrInvalidConfig);
      }
      if !epoch.ready {
        return Failed(ErrNotReady);
      }
      MarkRefreshDue(mono);
      if progress.refreshDue || progress.refreshActive {
        return Failed(ErrRefreshRequired);
      }
      r := ReserveStream(wall, mono, shapeIndex, capacity, sampling, appenderBegins);
    }

    /** Packet.Append: `size` is RecordSize's answer, `appender` the appender's own error, if any. */
    method Append(packet: Packet, size: Outcome<nat>, sampling: nat, appender: Option<Error>)
      returns (err: Option<Error>)
      requires Valid()
      modifies this`pending, Streams()
      ensures Valid() && Streams() == old(Streams()) && HoldsStream(packet) == old(HoldsStream(packet))
      ensures old(HoldsStream(packet)) ==>
        (Model(), err) == StateModel.Append(config, old(Model()), size, sampling, appender)
      ensures !old(HoldsStream(packet)) ==> err == Some(ErrTransaction) && unchanged(this) && unchanged(Streams())
    {
      hide Inv, DataSetSize;
      if !HoldsStream(packet) {
        return Some(ErrTransaction);
      }
      PendingInCatalog(config, Model());
      AppendInv(config, Model(), size, sampling, appender);
      err := Admit(size, sampling, appender);
      if err == None && size.Done? {
        Grow(size.value);
      }
    }

    /** Every check of Append, in the order the source makes them. */
    method Admit(size: Outcome<nat>, sampling: nat, appender: Option<Error>) returns (err: Option<Error>)
      requires pending.Some? && pending.value.stream != null && pending.value.shape < |config.shapes|
      ensures err == AppendError(config, pending.value.Model(), size, sampling, appender)
    {
      hide DataSetSize;
      var p := pending.value;
      var shape := config.shapes[p.shape];
      if p.encoded {
        return Some(ErrTransaction);
      }
      if config.version == V5 {
        if sampling > MAX_SAMPLING || sampling != p.stream.samplingInterval {
          return Some(ErrInvalidConfig);
        }
      } else if sampling != 0 {
        return Some(ErrInvalidConfig);
      }
      if p.stream.records >= config.maxRecords || (config.version == V5 && p.stream.records >= V5_MAX_RECORDS) {
        return Some(ErrBounds);
      }
      if size.Failed? {
        return Some(size.error);
      }
      var set_ := DataSetSize(config.version, shape.minimum, shape.variable, p.stream.bytes + size.value, p.stream.records + 1);
      if set_ == None {
        return Some(ErrBounds);
      }
      var length := HeaderBytes(config.version) + set_.value.length;
      if length > config.maxDatagram {
        return Some(ErrBounds);
      }
      if length > p.stream.capacity {
        return Some(ErrShortBuffer);
      }
      return appender;
    }

    /** The shared counters and the pending packet take one more record. */
    method Grow(size: nat)
      requires pending.Some? && pending.value.stream != null && pending.value.shape < |config.shapes|
      modifies this`pending, Streams()
      ensures pending.Some? && pending.value.stream == old(pending.value.stream)
      ensures pending.value.owner == old(pending.value.owner)
      ensures Model() == old(Model()).(pending := Some(Appended(config, old(pending.value.Model()), size)))
    {
      hide DataSetSize;
      var p := pending.value;
      var shape := config.shapes[p.shape];
      p.stream.bytes := p.stream.bytes + size;
      p.stream.records := p.stream.records + 1;
      var set_ := DataSetSize(config.version, shape.minimum, shape.variable, p.stream.bytes, p.stream.records);
      pending := Some(p.(dataRecords := p.stream.records,
                         length := if set_.Some? then HeaderBytes(config.version) + set_.value.length else p.length));
    }

    /** Packet.Finish: `finished` is the appender's byte count, None when it reports an error. */
    method Finish(packet: Packet, finished: Option<int>) returns (r: Outcome<nat>)
      requires Valid()
      modifies this, Streams()
      ensures Valid()
      ensures old(HoldsStream(packet)) ==> (Model(), r) == StateModel.Finish(config, old(Model()), finished)
      ensures old(HoldsStream(packet)) && r.Done? ==> HoldsStream(packet)
      ensures !old(HoldsStream(packet)) ==> r == Failed(ErrTransaction) && unchanged(this) && unchanged(Streams())
    {
      hide Inv, Rollback, DataSetSize;
      if !HoldsStream(packet) {
        return Failed(ErrTransaction);
      }
      PendingInCatalog(config, Model());
      FinishInv(config, Model(), finished);
      var p := pending.value;
      var shape := config.shapes[p.shape];
      if p.encoded {
        return Failed(ErrTransaction);
      }
      if p.stream.records == 0 {
        RestoreEncodeReservation(p.prior);
        return Failed(if finished == None then ErrAppender else ErrEncoding);
      }
      var set_ := DataSetSize(config.version, shape.minimum, shape.variable, p.stream.bytes, p.stream.records);
      if set_ == None {
        RestoreEncodeReservation(p.prior);
        return Failed(ErrBounds);
      }
      var length := HeaderBytes(config.version) + set_.value.length;
      if length > config.maxDatagram {
        RestoreEncodeReservation(p.prior);
        return Failed(ErrBounds);
      }
      if length > p.stream.capacity {
        RestoreEncodeReservation(p.prior);
        return Failed(ErrShortBuffer);
      }
      if finished == None {
        RestoreEncodeReservation(p.prior);
        return Failed(ErrAppender);
      }
      if finished.value < 1 || finished.value != length {
        RestoreEncodeReservation(p.prior);
        return Failed(ErrEncoding);
      }
      p.stream.length := length;
      pending := Some(p.(length := length, encoded := true));
      return Done(length);
    }

    /** Packet.Encode: a packet is opaque, so a copy still carries the length it was issued with. */
    method Encode(packet: Packet, written: Option<int>) returns (r: Outcome<nat>)
      requires Valid()
      requires Holds(packet) && pending.value.stream == null ==> packet.length == pending.value.length
      modifies this
      ensures Valid()
      ensures old(Holds(packet)) ==> (Model(), r) == StateModel.Encode(old(Model()), written)
      ensures !old(Holds(packet)) ==> r == Failed(ErrTransaction) && unchanged(this)
    {
      hide Inv, Rollback;
      if !Holds(packet) {
        return Failed(ErrTransaction);
      }
      EncodeInv(config, Model(), written);
      if pending.value.stream != null || pending.value.encoded {
        return Failed(ErrTransaction);
      }
      if written == None || written.value != packet.length {
        RestoreEncodeReservation(pending.value.prior);
        return Failed(ErrEncoding);
      }
      pending := Some(pending.value.(encoded := true));
      return Done(packet.length);
    }

    // ---- commit ----

    method CommitSequence(p: Packet)
      modifies this`epoch, this`progress
      ensures Model() == StateModel.CommitSequence(config, old(Model()), p.Model())
    {
      match config.version
      case V5 =>
        epoch := epoch.(sequence := (epoch.sequence + p.dataRecords) % UINT32_MODULUS);
      case V9 =>
        epoch := epoch.(sequence := (epoch.sequence + 1) % UINT32_MODULUS);
        progress := progress.(packetCount := (progress.packetCount + 1) % UINT32_MODULUS);
      case IPFIX =>
        epoch := epoch.(sequence := (epoch.sequence + p.dataRecords) % UINT32_MODULUS);
        if p.dataRecords != 0 {
          progress := progress.(dataMessageCount := (progress.dataMessageCount + 1) % UINT32_MODULUS);
        }
    }

    method CommitTemplate(mono: nat)
      modifies this`epoch, this`progress
      ensures Model() == StateModel.CommitTemplate(config, old(Model()), mono)
    {
      progress := progress.(nextTemplateIndex := progress.nextTemplateIndex + 1);
      if progress.nextTemplateIndex == |config.shapes| {
        progress := progress.(nextTemplateIndex := 0, templateRound := (progress.templateRound + 1) % 256);
        if !epoch.ready {
          if progress.templateRound == config.copies {
            epoch := epoch.(ready := true);
            progress := Progress(0, 0, false, false, Some(mono), 0, 0);
          }
        } else if progress.refreshActive && progress.templateRound == 1 {
          progress := Progress(0, 0, false, false, Some(mono), 0, 0);
        }
      }
    }

    /** Commit reads the pending transaction, never the caller's copy. */
    method Commit(packet: Packet, n: int, failed: bool) returns (result: Option<CommitResult>, err: Option<Error>)
      requires Valid()
      modifies this
      ensures Valid()
      ensures old(Holds(packet)) && old(pending.value.encoded) ==>
        var write := ClassifyWrite(n, old(pending.value.length), failed);
        && Model() == CommitState(config, old(Model()), write)
        && result == Some(ResultOf(old(Model()), Model(), old(pending.value.Model()), write))
        && err == (if write == WriteInvalid then Some(ErrInvalidWrite) else None)
      ensures !(old(Holds(packet)) && old(pending.value.encoded)) ==>
        result == None && err == Some(ErrTransaction) && unchanged(this)
    {
      hide Inv, StateModel.CommitSequence, StateModel.CommitTemplate, MarkDue, Discard;
      if !Holds(packet) || !pending.value.encoded {
        return None, Some(ErrTransaction);
      }
      var p := pending.value;
      var write := ClassifyWrite(n, p.length, failed);
      CommitInv(config, Model(), write);
      var sequenceBefore := epoch.sequence;
      if write == WriteFull {
        CommitWritten(p);
      } else {
        CommitUnwritten(p, write);
      }
      result := Some(CommitResult(write, write == WriteFull, epoch.ready, progress.refreshDue || progress.refreshActive,
                                  sequenceBefore, epoch.sequence, p.instant, p.length));
      err := if write == WriteInvalid then Some(ErrInvalidWrite) else None;
    }

    method CommitWritten(p: Packet)
      requires pending == Some(p)
      modifies this
      ensures Model() == CommitFull(config, old(Model()), old(p.Model())) && pending == None
    {
      hide StateModel.CommitSequence, StateModel.CommitTemplate, MarkDue;
      ghost var sent, model := SentOf(p.Model()), p.Model();
      CommitSequence(p);
      if p.template {
        CommitTemplate(p.mono);
      }
      MarkRefreshDue(p.mono);
      pending := None;
      trace := trace + [sent];
      handed := handed + [p.instant];
    }

    method CommitUnwritten(p: Packet, write: WriteClass)
      requires pending == Some(p) && write != WriteFull
      modifies this
      ensures Model() == CommitState(config, old(Model()), write) && pending == None
    {
      hide Discard;
      pending := None;
      if write == WriteInvalid {
        lastReservedWall := p.prior.reservedWall;
      } else {
        handed := handed + [p.instant];
      }
      DiscardUnpublished();
    }

    // ---- epochs ----

    method Restart()
      requires Valid()
      modifies this
      ensures Valid() && Model() == StateModel.Restart(config, old(Model()))
    {
      RestartInv(config, Model());
      nextID := nextID + 1;
      epoch := NewEpoch(config, nextID);
      progress, lastReservedWall, pending := NO_PROGRESS, None, None;
      trace, handed := [], [];
    }

    method AbortBootstrap() returns (err: Option<Error>)
      requires Valid()
      modifies this
      ensures Valid() && (Model(), err) == StateModel.AbortBootstrap(config, old(Model()))
    {
      hide Inv;
      RestartInv(config, Model());
      if epoch.ready || config.version == V5 {
        return Some(ErrInvalidConfig);
      }
      epoch := epoch.(sequence := 0, startOrigin := None);
      progress := NO_PROGRESS.(lastRefreshMono := progress.lastRefreshMono);
      pending := None;
      trace := [];
      return None;
    }
  }
}
