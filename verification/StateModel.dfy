/** The destination's protocol state machine on values: template bootstrap and refresh rounds,
    sequence numbers, the logical send clock and the single pending packet. `State` (State.dfy)
    performs the same transitions in place. `trace` and `handed` are the history the theorems
    speak about: the packets committed since the last bootstrap reset, and the send instants of
    every packet of the epoch whose write result was legal. */
module StateModel {
  import opened Base
  import opened Sizes

  const NANOS_PER_SECOND: nat := 1_000_000_000
  const NANOS_PER_MS: nat := 1_000_000
  const MAX_SAMPLING: nat := 16383
  const MAX_SHAPES: nat := 16
  const MIN_REFRESH_INTERVAL: nat := 30 * NANOS_PER_SECOND
  const MAX_REFRESH_INTERVAL: nat := 86400 * NANOS_PER_SECOND

  datatype Shape = Shape(templateBytes: nat, minimum: nat, variable: bool)

  /** A normalised configuration together with the adopted catalog. */
  datatype Config = Config(
    version: Version,
    shapes: seq<Shape>,
    copies: nat,
    interval: nat,
    refreshCount: nat,
    maxRecords: nat,
    maxDatagram: nat,
    origin: Option<nat>,
    sourceID: nat, domainID: nat, engineType: nat, engineID: nat, samplingMode: nat)

  ghost predicate ValidShape(version: Version, maxDatagram: nat, shape: Shape)
  {
    && 0 < shape.minimum <= MAX_RECORD_BYTES
    && (if version == V5 then shape == Shape(0, 48, false)
        else 0 < shape.templateBytes <= MAX_TEMPLATE_BYTES && HeaderBytes(version) + shape.templateBytes <= maxDatagram)
    && (shape.variable ==> version == IPFIX)
  }

  /** Config.normalized and validateCatalogBudget. */
  ghost predicate ValidConfig(c: Config)
  {
    && 1 <= |c.shapes| <= MAX_SHAPES && (c.version == V5 ==> |c.shapes| == 1)
    && (forall i :: 0 <= i < |c.shapes| ==> ValidShape(c.version, c.maxDatagram, c.shapes[i]))
    && 2 <= c.copies <= 8
    && MIN_REFRESH_INTERVAL <= c.interval <= MAX_REFRESH_INTERVAL
    && 128 <= c.maxDatagram <= 65507
    && 1 <= c.maxRecords <= (if c.version == V5 then V5_MAX_RECORDS else 1024)
    && (c.version == V9 ==> 1 <= c.refreshCount <= 1000)
    && (c.version == IPFIX ==> c.refreshCount <= 1000 && c.origin == None)
    && (c.version == V5 ==> c.origin.Some? && c.sourceID == 0 && c.domainID == 0)
    && (c.origin.Some? ==> c.origin.value <= MAX_INT64)
    && (c.version == V9 ==> c.domainID == 0 || c.domainID == c.sourceID)
    && (c.version == IPFIX ==> c.sourceID == 0)
    && (if c.version == V5 then c.samplingMode <= 3
        else c.engineType == 0 && c.engineID == 0 && c.samplingMode == 0)
  }

  /** Packets allowed between two template rounds; zero disables the count trigger. */
  function CountLimit(c: Config): nat { if c.version == V5 then 0 else c.refreshCount }

  datatype Error =
    | ErrTransaction | ErrShapeNotInCatalog | ErrUptimeExhausted | ErrBounds | ErrShortBuffer
    | ErrTemplateProgress | ErrRefreshNotDue | ErrRefreshRequired | ErrNotReady
    | ErrTimeNotRepresentable | ErrInvalidConfig | ErrInvalidHeader | ErrEncoding | ErrInvalidWrite
    | ErrInvalidValue | ErrRecordValueLimit | ErrInvalidFamily | ErrAppender

  datatype Outcome<+T> = Done(value: T) | Failed(error: Error)

  datatype Header = Header(version: Version, sequence: nat, sourceID: nat, domainID: nat, engineType: nat,
                           engineID: nat, samplingMode: nat, samplingInterval: nat, exportNanos: nat,
                           origin: Option<nat>)

  datatype Epoch = Epoch(id: nat, sequence: nat, ready: bool, startOrigin: Option<nat>, exhausted: bool)

  /** What a reservation remembers so that a rollback can undo it. */
  datatype Prior = Prior(refreshActive: bool, refreshDue: bool, nextTemplateIndex: nat, templateRound: nat,
                         reservedWall: Option<nat>, startOrigin: Option<nat>)

  /** Counters of a streamed packet. */
  datatype Stream = Stream(samplingInterval: nat, records: nat, bytes: nat, capacity: nat, length: nat)

  datatype Pending = Pending(epochID: nat, token: nat, header: Header, shape: nat, template: bool,
                             dataRecords: nat, mono: nat, instant: nat, length: nat, encoded: bool,
                             stream: Option<Stream>, prior: Prior)

  datatype Kind = Template(shape: nat) | Data(shape: nat, records: nat)
  datatype Sent = Sent(kind: Kind, sequence: nat, instant: nat)

  datatype St = St(
    epoch: Epoch,
    nextID: nat,
    nextTemplateIndex: nat,
    templateRound: nat,
    refreshActive: bool,
    refreshDue: bool,
    lastRefreshMono: Option<nat>,
    packetCount: nat,
    dataMessageCount: nat,
    lastReservedWall: Option<nat>,
    nextToken: nat,
    pending: Option<Pending>,
    trace: seq<Sent>,
    handed: seq<nat>)

  function NewEpoch(c: Config, id: nat): Epoch { Epoch(id, 0, c.version == V5, None, false) }

  function Init(c: Config): St
  {
    St(NewEpoch(c, 1), 1, 0, 0, false, false, None, 0, 0, None, 0, None, [], [])
  }

  // ---- clock and header -----------------------------------------------------------------

  function Origin(c: Config, s: St): Option<nat>
  {
    if c.origin.Some? then c.origin else s.epoch.startOrigin
  }

  /** The decision of reserveWallLocked, with the refusals told apart. */
  datatype Verdict = Granted(instant: nat) | Exhausted | OutOfRange | NoOrigin | BeforeOrigin | Misaligned

  function Clamp(s: St, wall: nat): nat
  {
    if s.lastReservedWall.Some? && wall < s.lastReservedWall.value then s.lastReservedWall.value else wall
  }

  function Judge(c: Config, s: St, wall: nat): Verdict
  {
    if wall > MAX_INT64 then OutOfRange
    else
      var instant := Clamp(s, wall);
      if instant / NANOS_PER_SECOND > MAX_UINT32 then OutOfRange
      else if c.version == IPFIX then Granted(instant)
      else if Origin(c, s) == None then
        (if c.version == V9 && !s.epoch.ready then Granted(instant) else NoOrigin)
      else
        var origin := Origin(c, s).value;
        if instant < origin then BeforeOrigin
        else if (instant - origin) / NANOS_PER_MS > MAX_UINT32 then Exhausted
        else if (instant - origin) % NANOS_PER_MS != 0 then Misaligned
        else Granted(instant)
  }

  function Reserve(c: Config, s: St, wall: nat): (St, Outcome<nat>)
  {
    match Judge(c, s, wall)
    case Granted(instant) => (s.(lastReservedWall := Some(instant)), Done(instant))
    case Exhausted => (s.(epoch := s.epoch.(exhausted := true)), Failed(ErrUptimeExhausted))
    case _ => (s, Failed(ErrTimeNotRepresentable))
  }

  /** HeaderMetadata.Validate. */
  predicate ValidHeader(h: Header)
  {
    && h.exportNanos <= MAX_INT64
    && (h.origin.Some? ==> h.origin.value <= MAX_INT64 && h.origin.value <= h.exportNanos)
    && h.samplingMode <= 3 && h.samplingInterval <= MAX_SAMPLING
  }

  function HeaderFor(c: Config, s: St, instant: nat, sampling: nat): Outcome<Header>
  {
    var origin := if c.version == IPFIX then None else Origin(c, s);
    var header := Header(c.version, s.epoch.sequence, c.sourceID, c.domainID, c.engineType, c.engineID,
                         c.samplingMode, sampling, instant, origin);
    if c.version != IPFIX && origin == None then Failed(ErrTimeNotRepresentable)
    else if !ValidHeader(header) then Failed(ErrInvalidHeader)
    else Done(header)
  }

  // ---- refresh --------------------------------------------------------------------------

  predicate IntervalElapsed(c: Config, s: St, mono: nat)
  {
    s.lastRefreshMono.Some? && mono >= s.lastRefreshMono.value && mono - s.lastRefreshMono.value >= c.interval
  }

  predicate CountReached(c: Config, s: St)
  {
    || (c.version == V9 && s.packetCount >= c.refreshCount)
    || (c.version == IPFIX && c.refreshCount != 0 && s.dataMessageCount >= c.refreshCount)
  }

  function MarkDue(c: Config, s: St, mono: nat): St
  {
    if c.version == V5 || !s.epoch.ready || s.refreshActive || s.refreshDue then s
    else if IntervalElapsed(c, s, mono) || CountReached(c, s) then s.(refreshDue := true)
    else s
  }

  // ---- reservations ---------------------------------------------------------------------

  function PriorOf(s: St): Prior
  {
    Prior(s.refreshActive, s.refreshDue, s.nextTemplateIndex, s.templateRound, s.lastReservedWall,
          s.epoch.startOrigin)
  }

  /** The reservation itself, once every check that does not touch the clock has passed. */
  function ReserveTemplate(c: Config, marked: St, wall: nat, mono: nat, shape: nat): (St, Outcome<Pending>)
    requires shape < |c.shapes|
  {
    var (s1, reserved) := Reserve(c, marked, wall);
    if reserved.Failed? then (s1, Failed(reserved.error))
    else
      var s2 := if c.version == V9 && c.origin == None && s1.epoch.startOrigin == None
                then s1.(epoch := s1.epoch.(startOrigin := Some(reserved.value))) else s1;
      var header := HeaderFor(c, s2, reserved.value, 0);
      if header.Failed? then (s2, Failed(header.error))
      else
        var p := Pending(s2.epoch.id, s2.nextToken + 1, header.value, shape, true, 0, mono, reserved.value,
                         HeaderBytes(c.version) + c.shapes[shape].templateBytes, false, None, PriorOf(marked));
        var s3 := s2.(nextToken := s2.nextToken + 1, pending := Some(p));
        (if s3.epoch.ready && !s3.refreshActive
         then s3.(refreshActive := true, nextTemplateIndex := 0, templateRound := 0) else s3,
         Done(p))
  }

  function BeginTemplate(c: Config, s: St, wall: nat, mono: nat, shape: int): (St, Outcome<Pending>)
  {
    if s.pending.Some? then (s, Failed(ErrTransaction))
    else if shape < 0 || shape >= |c.shapes| then (s, Failed(ErrShapeNotInCatalog))
    else if s.epoch.exhausted then (s, Failed(ErrUptimeExhausted))
    else if c.version == V5 then (s, Failed(ErrInvalidConfig))
    else if HeaderBytes(c.version) + c.shapes[shape].templateBytes > c.maxDatagram then (s, Failed(ErrBounds))
    else
      var marked := MarkDue(c, s, mono);
      if s.epoch.ready && !marked.refreshDue && !marked.refreshActive then (marked, Failed(ErrRefreshNotDue))
      else if shape != marked.nextTemplateIndex then (marked, Failed(ErrTemplateProgress))
      else ReserveTemplate(c, marked, wall, mono, shape)
  }

  /** `begun` is the appender's own answer to Begin. */
  function ReserveStream(c: Config, marked: St, wall: nat, mono: nat, shape: nat, capacity: nat, sampling: nat,
                         begun: bool): (St, Outcome<Pending>)
    requires shape < |c.shapes|
  {
    var (s1, reserved) := Reserve(c, marked, wall);
    if reserved.Failed? then (s1, Failed(reserved.error))
    else
      var header := HeaderFor(c, s1, reserved.value, sampling);
      if header.Failed? then (s1.(lastReservedWall := marked.lastReservedWall), Failed(header.error))
      else
        var p := Pending(s1.epoch.id, s1.nextToken + 1, header.value, shape, false, 0, mono, reserved.value, 0,
                         false, Some(Stream(sampling, 0, 0, capacity, 0)), PriorOf(marked));
        var s2 := s1.(nextToken := s1.nextToken + 1, pending := Some(p));
        if begun then (s2, Done(p)) else (Rollback(s2, p.prior), Failed(ErrAppender))
  }

  function BeginStream(c: Config, s: St, wall: nat, mono: nat, shape: int, capacity: nat, sampling: nat,
                       begun: bool): (St, Outcome<Pending>)
  {
    if s.pending.Some? then (s, Failed(ErrTransaction))
    else if shape < 0 || shape >= |c.shapes| then (s, Failed(ErrShapeNotInCatalog))
    else if s.epoch.exhausted then (s, Failed(ErrUptimeExhausted))
    else if sampling > MAX_SAMPLING || (c.version != V5 && sampling != 0) then (s, Failed(ErrInvalidConfig))
    else if !s.epoch.ready then (s, Failed(ErrNotReady))
    else
      var marked := MarkDue(c, s, mono);
      if marked.refreshDue || marked.refreshActive then (marked, Failed(ErrRefreshRequired))
      else ReserveStream(c, marked, wall, mono, shape, capacity, sampling, begun)
  }

  // ---- rollback -------------------------------------------------------------------------

  /** discardUnpublishedLocked. */
  function Discard(s: St): St
  {
    if s.epoch.ready then s
    else s.(nextTemplateIndex := 0, templateRound := 0,
            epoch := s.epoch.(startOrigin := None, sequence := 0),
            packetCount := 0, dataMessageCount := 0, refreshActive := false, refreshDue := false,
            lastRefreshMono := None, trace := [])
  }

  /** restoreEncodeReservationLocked. */
  function Rollback(s: St, prior: Prior): St
  {
    var rewound := s.(lastReservedWall := prior.reservedWall, pending := None);
    if !s.epoch.ready then Discard(rewound)
    else rewound.(epoch := s.epoch.(startOrigin := prior.startOrigin),
                  refreshActive := prior.refreshActive, refreshDue := prior.refreshDue,
                  nextTemplateIndex := prior.nextTemplateIndex, templateRound := prior.templateRound)
  }

  function Abort(s: St): St
    requires s.pending.Some?
  {
    Rollback(s, s.pending.value.prior)
  }

  // ---- filling a packet -----------------------------------------------------------------

  /** `size` is RecordSize's answer and `appender` the appender's own error, if any. */
  function AppendError(c: Config, p: Pending, size: Outcome<nat>, sampling: nat, appender: Option<Error>): Option<Error>
    requires p.stream.Some? && p.shape < |c.shapes|
  {
    var stream := p.stream.value;
    var shape := c.shapes[p.shape];
    if p.encoded then Some(ErrTransaction)
    else if c.version == V5 && (sampling > MAX_SAMPLING || sampling != stream.samplingInterval) then Some(ErrInvalidConfig)
    else if c.version != V5 && sampling != 0 then Some(ErrInvalidConfig)
    else if stream.records >= c.maxRecords then Some(ErrBounds)
    else if c.version == V5 && stream.records >= V5_MAX_RECORDS then Some(ErrBounds)
    else if size.Failed? then Some(size.error)
    else
      var set_ := DataSetSize(c.version, shape.minimum, shape.variable, stream.bytes + size.value, stream.records + 1);
      if set_ == None then Some(ErrBounds)
      else
        var length := HeaderBytes(c.version) + set_.value.length;
        if length > c.maxDatagram then Some(ErrBounds)
        else if length > stream.capacity then Some(ErrShortBuffer)
        else appender
  }

  /** The pending packet after one accepted record of `size` bytes. */
  function Appended(c: Config, p: Pending, size: nat): Pending
    requires p.stream.Some? && p.shape < |c.shapes|
  {
    var stream := p.stream.value;
    var shape := c.shapes[p.shape];
    var grown := stream.(records := stream.records + 1, bytes := stream.bytes + size);
    var length := match DataSetSize(c.version, shape.minimum, shape.variable, grown.bytes, grown.records)
      case Some(size) => HeaderBytes(c.version) + size.length
      case None => p.length;
    p.(stream := Some(grown), dataRecords := grown.records, length := length)
  }

  function Append(c: Config, s: St, size: Outcome<nat>, sampling: nat, appender: Option<Error>): (St, Option<Error>)
    requires s.pending.Some? && s.pending.value.stream.Some? && s.pending.value.shape < |c.shapes|
  {
    var err := AppendError(c, s.pending.value, size, sampling, appender);
    if err.Some? || size.Failed? then (s, err)
    else (s.(pending := Some(Appended(c, s.pending.value, size.value))), None)
  }

  /** `finished` is the appender's byte count, None when it reports an error. */
  function Finish(c: Config, s: St, finished: Option<int>): (St, Outcome<nat>)
    requires s.pending.Some? && s.pending.value.stream.Some? && s.pending.value.shape < |c.shapes|
  {
    var p := s.pending.value;
    var stream := p.stream.value;
    var shape := c.shapes[p.shape];
    if p.encoded then (s, Failed(ErrTransaction))
    else if stream.records == 0 then
      (Rollback(s, p.prior), Failed(if finished == None then ErrAppender else ErrEncoding))
    else
      match DataSetSize(c.version, shape.minimum, shape.variable, stream.bytes, stream.records)
      case None => (Rollback(s, p.prior), Failed(ErrBounds))
      case Some(size) =>
        var length := HeaderBytes(c.version) + size.length;
        if length > c.maxDatagram then (Rollback(s, p.prior), Failed(ErrBounds))
        else if length > stream.capacity then (Rollback(s, p.prior), Failed(ErrShortBuffer))
        else if finished == None then (Rollback(s, p.prior), Failed(ErrAppender))
        else if finished.value < 1 || finished.value != length then (Rollback(s, p.prior), Failed(ErrEncoding))
        else (s.(pending := Some(p.(stream := Some(stream.(length := length)), length := length, encoded := true))),
              Done(length))
  }

  /** Packet.Encode: `written` is the pure writer's byte count, None when it reports an error. */
  function Encode(s: St, written: Option<int>): (St, Outcome<nat>)
    requires s.pending.Some?
  {
    var p := s.pending.value;
    if p.stream.Some? || p.encoded then (s, Failed(ErrTransaction))
    else if written == None || written.value != p.length then (Rollback(s, p.prior), Failed(ErrEncoding))
    else (s.(pending := Some(p.(encoded := true))), Done(p.length))
  }

  // ---- commit ---------------------------------------------------------------------------

  function SequenceStep(v: Version, p: Pending): nat
  {
    if v == V9 then 1 else p.dataRecords
  }

  function CommitSequence(c: Config, s: St, p: Pending): St
  {
    var sequence := (s.epoch.sequence + SequenceStep(c.version, p)) % UINT32_MODULUS;
    s.(epoch := s.epoch.(sequence := sequence),
       packetCount := if c.version == V9 then (s.packetCount + 1) % UINT32_MODULUS else s.packetCount,
       dataMessageCount := if c.version == IPFIX && p.dataRecords != 0
                           then (s.dataMessageCount + 1) % UINT32_MODULUS else s.dataMessageCount)
  }

  function RoundDone(s: St, mono: nat): St
  {
    s.(refreshActive := false, refreshDue := false, packetCount := 0, dataMessageCount := 0,
       lastRefreshMono := Some(mono), templateRound := 0)
  }

  function CommitTemplate(c: Config, s: St, mono: nat): St
  {
    var next := s.nextTemplateIndex + 1;
    if next != |c.shapes| then s.(nextTemplateIndex := next)
    else
      var rounded := s.(nextTemplateIndex := 0, templateRound := (s.templateRound + 1) % 256);
      if !s.epoch.ready then
        (if rounded.templateRound == c.copies
         then RoundDone(rounded.(epoch := rounded.epoch.(ready := true)), mono) else rounded)
      else if s.refreshActive && rounded.templateRound == 1 then RoundDone(rounded, mono)
      else rounded
  }

  function SentOf(p: Pending): Sent
  {
    Sent(if p.template then Template(p.shape) else Data(p.shape, p.dataRecords), p.header.sequence, p.instant)
  }

  function CommitFull(c: Config, s: St, p: Pending): St
  {
    var s1 := CommitSequence(c, s, p);
    var s2 := if p.template then CommitTemplate(c, s1, p.mono) else s1;
    MarkDue(c, s2, p.mono).(pending := None, trace := s.trace + [SentOf(p)], handed := s.handed + [p.instant])
  }

  datatype CommitResult = CommitResult(write: WriteClass, committed: bool, ready: bool, refreshDue: bool,
                                       sequenceBefore: nat, sequenceAfter: nat, instant: nat, length: nat)

  function CommitState(c: Config, s: St, write: WriteClass): St
    requires s.pending.Some?
  {
    var p := s.pending.value;
    if write == WriteInvalid then Discard(s.(lastReservedWall := p.prior.reservedWall, pending := None))
    else if write != WriteFull then Discard(s.(pending := None, handed := s.handed + [p.instant]))
    else CommitFull(c, s, p)
  }

  function ResultOf(before: St, after: St, p: Pending, write: WriteClass): CommitResult
  {
    CommitResult(write, write == WriteFull, after.epoch.ready, after.refreshDue || after.refreshActive,
                 before.epoch.sequence, after.epoch.sequence, p.instant, p.length)
  }

  // ---- epochs ---------------------------------------------------------------------------

  function Restart(c: Config, s: St): St
  {
    St(NewEpoch(c, s.nextID + 1), s.nextID + 1, 0, 0, false, false, None, 0, 0, None, s.nextToken, None, [], [])
  }

  function AbortBootstrap(c: Config, s: St): (St, Option<Error>)
  {
    if s.epoch.ready || c.version == V5 then (s, Some(ErrInvalidConfig))
    else (s.(epoch := s.epoch.(sequence := 0, startOrigin := None), nextTemplateIndex := 0, templateRound := 0,
             refreshActive := false, refreshDue := false, packetCount := 0, dataMessageCount := 0,
             pending := None, trace := []), None)
  }
}
