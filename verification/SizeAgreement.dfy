/** The three size calculators (mapper, wire contract, destination) and the two places that append a
    record (state machine and appender) decide alike. */
module SizeAgreement {
  import opened Base
  import opened Sizes
  import opened Headers
  import SM = StateModel
  import W = Wire
  import WQ = WireRequests
  import WT = WireRoundTrip
  import SR = SourceRecords

  /** mappingDataBytesForMinimum: one record of `bytes` bytes in a packet of its own. */
  function MappingPacketBytes(v: Version, bytes: nat, minimum: nat): nat
  {
    if v == V5 then HeaderBytes(v) + bytes
    else HeaderBytes(v) + SET_HEADER_BYTES + bytes + Padding(SET_HEADER_BYTES + bytes, minimum)
  }

  /** minimumDataPacketBytes of the destination's catalog check. */
  function MinimumDataPacketBytes(v: Version, minimum: nat): nat
  {
    if v == V5 then HeaderBytes(v) + minimum
    else
      var raw := SET_HEADER_BYTES + minimum;
      HeaderBytes(v) + raw + (if raw % 4 != 0 && 4 - raw % 4 < minimum then 4 - raw % 4 else 0)
  }

  /** Padded packets grow with the record, however the padding falls. */
  lemma {:induction false} PaddedGrows(v: Version, a: nat, b: nat, minimum: nat)
    requires a <= b
    ensures MappingPacketBytes(v, a, minimum) <= MappingPacketBytes(v, b, minimum)
  {}

  /** mapResult's size accumulation. Every prefix is checked as it grows, yet a record is refused exactly
      when its whole size is: no record fails early that would have fitted. */
  method MapSizes(v: Version, lengths: seq<nat>, minimum: nat, recordLimit: nat,
                  maxDatagram: nat) returns (size: Option<nat>)
    requires lengths != []
    ensures size == if Sum(lengths) <= recordLimit && Sum(lengths) <= MAX_RECORD_BYTES
                       && MappingPacketBytes(v, Sum(lengths), minimum) <= maxDatagram
                    then Some(Sum(lengths)) else None
  {
    hide MappingPacketBytes;
    var mapped := 0;
    var i := 0;
    while i < |lengths|
      invariant i <= |lengths| && mapped == Sum(lengths[..i])
      invariant i > 0 ==>
        mapped <= recordLimit && mapped <= MAX_RECORD_BYTES && MappingPacketBytes(v, mapped, minimum) <= maxDatagram
    {
      assert lengths[..i + 1][..i] == lengths[..i];
      mapped := mapped + lengths[i];
      i := i + 1;
      PrefixSum(lengths, i);
      if mapped > recordLimit || mapped > MAX_RECORD_BYTES {
        return None;
      }
      PaddedGrows(v, mapped, Sum(lengths), minimum);
      if MappingPacketBytes(v, mapped, minimum) > maxDatagram {
        return None;
      }
    }
    assert lengths[..i] == lengths;
    return Some(mapped);
  }

  lemma {:induction false} PrefixSum(xs: seq<nat>, k: nat)
    requires k <= |xs|
    ensures Sum(xs[..k]) <= Sum(xs)
  {
    if k < |xs| {
      assert xs[..|xs| - 1][..k] == xs[..k];
      PrefixSum(xs[..|xs| - 1], k);
    } else {
      assert xs[..k] == xs;
    }
  }

  /** A record the shape can size: at least the minimum, exactly the minimum when nothing varies. */
  predicate Consistent(minimum: nat, variable: bool, bytes: nat)
  {
    0 < minimum <= bytes && (!variable ==> bytes == minimum)
  }

  /** The mapper's packet size is the wire contract's, and the destination's minimum is both on the
      smallest record, wherever the wire contract has a size at all. */
  lemma CalculatorsAgree(v: Version, minimum: nat, variable: bool, bytes: nat)
    requires Consistent(minimum, variable, bytes)
    ensures DataSetSize(v, minimum, variable, bytes, 1).Some? ==>
      HeaderBytes(v) + DataSetSize(v, minimum, variable, bytes, 1).value.length == MappingPacketBytes(v, bytes, minimum)
    ensures DataSetSize(v, minimum, variable, bytes, 1).Some?
      <==> MappingPacketBytes(v, bytes, minimum) <= HeaderBytes(v) + MAX_SET_BYTES
    ensures MinimumDataPacketBytes(v, minimum) == MappingPacketBytes(v, minimum, minimum)
  {}

  /** With one datagram cap for mapping and destination, a record passes minimumDataPacketFits exactly
      when the mapper's final size check passes. */
  lemma MappedRecordFits(c: SM.Config, shape: nat, bytes: nat)
    requires SM.ValidConfig(c) && shape < |c.shapes|
    requires Consistent(c.shapes[shape].minimum, c.shapes[shape].variable, bytes)
    ensures SR.MinimumMisfit(c, shape, SM.Done(bytes)) == None
      <==> MappingPacketBytes(c.version, bytes, c.shapes[shape].minimum) <= c.maxDatagram
  {
    hide MappingPacketBytes, DataSetSize;
    CalculatorsAgree(c.version, c.shapes[shape].minimum, c.shapes[shape].variable, bytes);
  }

  /** ... and then the first Append to a fresh packet never fails for size: only the appender's own
      answer is left. */
  lemma FirstAppendFits(c: SM.Config, p: SM.Pending, bytes: nat, sampling: nat, appender: Option<SM.Error>)
    requires SM.ValidConfig(c) && p.shape < |c.shapes| && p.stream.Some? && !p.encoded
    requires p.stream.value == SM.Stream(p.stream.value.samplingInterval, 0, 0, c.maxDatagram, 0)
    requires if c.version == V5 then sampling == p.stream.value.samplingInterval <= SM.MAX_SAMPLING else sampling == 0
    requires SR.MinimumMisfit(c, p.shape, SM.Done(bytes)) == None
    ensures SM.AppendError(c, p, SM.Done(bytes), sampling, appender) == appender
  {
    hide DataSetSize;
  }

  /** The state machine's view of a wire shape. */
  function ShapeOf(s: W.WireShape): SM.Shape
  {
    SM.Shape(W.TemplateBytes(s), W.Minimum(s.fields), W.HasVariable(s))
  }

  /** Once the state machine has admitted a record the appender has no size left to refuse: its answer
      depends on the record alone. */
  lemma AppenderFollowsState(c: SM.Config, p: SM.Pending, r: WQ.StreamRequest, accepted: seq<W.Record>,
                             record: W.Record, sampling: nat)
    requires SM.ValidConfig(c) && p.shape < |c.shapes| && c.shapes[p.shape] == ShapeOf(r.shape) && p.stream.Some?
    requires r.shape.version == c.version && r.budget == c.maxDatagram && r.limit == c.maxRecords
    requires p.stream.value.records == |accepted| && p.stream.value.bytes == W.RecordsSize(r.shape, accepted)
    requires W.RecordSize(r.shape, record).Ok?
    requires SM.AppendError(c, p, SM.Done(W.RecordSize(r.shape, record).value), sampling, None) == None
    ensures WQ.AppendError(r, accepted, p.stream.value.capacity, record)
         == if W.Writable(r.header, r.shape, record) then None else Some(WQ.TimeError(c.version))
  {
    hide DataSetSize, W.RecordSize, W.TimesAccepted, W.Minimum, W.HasVariable, W.RecordsSize, W.TemplateBytes;
  }

  /** maxIPFIXUnixNanos: the mapper's own limit, declared apart from the writer's. */
  const MAPPER_MAX_NANOS_IPFIX: nat := 2_085_978_495_999_999_999

  /** validateMappedTime on an absolute-time field. */
  predicate MappedTime(v: Version, milliseconds: bool, origin: Option<nat>, nanos: nat)
  {
    if v == IPFIX then milliseconds || nanos <= MAPPER_MAX_NANOS_IPFIX
    else
      && origin.Some? && nanos >= origin.value && (nanos - origin.value) % SM.NANOS_PER_MS == 0
      && (nanos - origin.value) / SM.NANOS_PER_MS <= MAX_UINT32
  }

  /** Elsewhere it admits exactly the times whose uptime the writers can carry, and any time in milliseconds. */
  lemma MappedTimeHasUptime(v: Version, milliseconds: bool, origin: Option<nat>, nanos: nat)
    ensures v != IPFIX ==>
      (MappedTime(v, milliseconds, origin, nanos) <==>
         origin.Some? && exists elapsed: nat ::
           elapsed < UINT32_MODULUS && ElapsedMilliseconds(nanos, origin.value) == Some(elapsed))
    ensures v == IPFIX && milliseconds ==> MappedTime(v, milliseconds, origin, nanos)
  {
    if origin.Some? && ElapsedMilliseconds(nanos, origin.value).Some? {
      assert ElapsedMilliseconds(nanos, origin.value).value >= 0;
    }
  }

  /** The mapper admits into an IPFIX nanosecond field exactly the times that have an NTP stamp. */
  lemma MappedTimeHasStamp(nanos: nat)
    ensures MappedTime(IPFIX, false, None, nanos) <==> W.NtpTimestamp(nanos).Some?
  {
    WT.NtpExact(nanos);
  }
}
