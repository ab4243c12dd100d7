/** What the batch writer and the incremental appender accept, as pure decisions, and the theorem that
    they accept the same packets. The buffers themselves are written in Appender.dfy. */
module WireRequests {
  import opened Base
  import opened Sizes
  import opened StateModel
  import opened Headers
  import opened Wire
  import opened WireDecoder
  import opened WireRoundTrip

  /** A streaming request; `limit` zero leaves the protocol's own record cap. */
  datatype StreamRequest = StreamRequest(header: Header, shape: WireShape, budget: nat, limit: nat)

  /** A batch request; `count` is the header's record count word. */
  datatype BatchRequest = BatchRequest(header: Header, count: nat, shape: WireShape, records: seq<Record>,
                                       templates: nat, templateBytes: nat, dataBytes: nat, budget: nat)

  /** validateShapeOrdering: in IPFIX no built-in field follows a custom one. */
  predicate CustomLast(s: WireShape)
  {
    s.version == IPFIX ==> forall i, j :: 0 <= i < j < |s.fields| && s.fields[i].custom ==> s.fields[j].custom
  }

  /** validateShapeBindings: the first v9 field whose absolute time has no place on the wire. */
  function BindingError(fields: seq<FieldSpec>): Option<WireError>
  {
    if fields == [] then None
    else
      var f := fields[0];
      if f.role == TimeReceived then Some(InvalidShape)
      else if f.role == FlowStart && !(f.id == 22 && f.length == 4 && f.encoding == U32) then Some(InvalidDescriptor)
      else if f.role == FlowEnd && !(f.id == 21 && f.length == 4 && f.encoding == U32) then Some(InvalidDescriptor)
      else BindingError(fields[1..])
  }

  /** The check each writer makes on a legal shape. */
  function ShapeError(s: WireShape): Option<WireError>
  {
    match s.version
    case V5 => None
    case V9 => BindingError(s.fields)
    case IPFIX => if CustomLast(s) then None else Some(InvalidDescriptor)
  }

  lemma {:induction false} BindingsDecided(fields: seq<FieldSpec>)
    ensures BindingError(fields) == None <==> forall k :: 0 <= k < |fields| ==> BoundField(V9, fields[k])
  {
    if fields != [] {
      BindingsDecided(fields[1..]);
      assert forall k :: 1 <= k < |fields| ==> fields[k] == fields[1..][k - 1];
    }
  }

  /** A writer's own check is exactly what separates a legal shape from one it can write. */
  lemma ShapeDecided(s: WireShape)
    requires LegalShape(s)
    ensures ShapeError(s) == None <==> ValidWireShape(s) && CustomLast(s)
  {
    match s.version
    case V5 =>
      forall k | 0 <= k < |s.fields|
        ensures BoundField(V5, s.fields[k])
      {
        V5FieldIsValid(k);
      }
    case V9 => BindingsDecided(s.fields);
    case IPFIX =>
  }

  function ProtocolCap(v: Version): nat { if v == V5 then V5_MAX_RECORDS else MAX_RECORDS }

  function RecordCap(r: StreamRequest): nat { if r.limit != 0 then r.limit else ProtocolCap(r.shape.version) }

  /** Bytes before the first record: the message header and, outside v5, a data set header. */
  function DataOffset(v: Version): nat { HeaderBytes(v) + if v == V5 then 0 else SET_HEADER_BYTES }

  function BeginError(v: Version, r: StreamRequest, capacity: nat): Option<WireError>
  {
    if !ValidHeader(r.header) then Some(InvalidHeader)
    else if r.shape.version != r.header.version then Some(InvalidShape)
    else if !PayloadFits(0, r.budget) then Some(OutOfBounds)
    else if r.limit > ProtocolCap(r.shape.version) then Some(OutOfBounds)
    else if r.shape.version != v then Some(InvalidShape)
    else if !WriterAccepts(r.header) then Some(InvalidHeader)
    else if ShapeError(r.shape).Some? then ShapeError(r.shape)
    else if !PayloadFits(DataOffset(v), r.budget) then Some(OutOfBounds)
    else if capacity < DataOffset(v) then Some(ShortBuffer)
    else None
  }

  function TimeError(v: Version): WireError { if v == IPFIX then TimeOutOfRange else InvalidValue }

  /** The size checks shared by Append and Finish. */
  function FitError(v: Version, minimum: nat, variable: bool, bytes: nat, count: nat, budget: nat,
                    capacity: nat): Option<WireError>
  {
    match DataSetSize(v, minimum, variable, bytes, count)
    case None => Some(OutOfBounds)
    case Some(size) =>
      if !PayloadFits(HeaderBytes(v) + size.length, budget) then Some(OutOfBounds)
      else if HeaderBytes(v) + size.length > capacity then Some(ShortBuffer)
      else None
  }

  ghost function AppendError(r: StreamRequest, accepted: seq<Record>, capacity: nat, record: Record): Option<WireError>
  {
    var s := r.shape;
    if |accepted| >= RecordCap(r) then Some(OutOfBounds)
    else
      match RecordSize(s, record)
      case Err(error) => Some(error)
      case Ok(size) =>
        if !Writable(r.header, s, record) then Some(TimeError(s.version))
        else FitError(s.version, Minimum(s.fields), HasVariable(s), RecordsSize(s, accepted) + size, |accepted| + 1,
                      r.budget, capacity)
  }

  function FinishError(r: StreamRequest, accepted: seq<Record>, capacity: nat): Option<WireError>
  {
    var s := r.shape;
    if accepted == [] then Some(PacketEmpty)
    else FitError(s.version, Minimum(s.fields), HasVariable(s), RecordsSize(s, accepted), |accepted|, r.budget, capacity)
  }

  // ---- batch ----------------------------------------------------------------------------

  /** The first record that is not sized, in order. */
  function FirstRecordError(s: WireShape, records: seq<Record>): Option<WireError>
  {
    if records == [] then None
    else
      match FirstRecordError(s, records[..|records| - 1])
      case Some(error) => Some(error)
      case None =>
        match RecordSize(s, records[|records| - 1])
        case Err(error) => Some(error)
        case Ok(_) => None
  }

  /** Preflight: the exact message length, or why there is none. */
  function Preflight(r: BatchRequest, capacity: nat): Result<nat>
  {
    var s, n := r.shape, |r.records|;
    if !ValidHeader(r.header) then Err(InvalidHeader)
    else if s.version != r.header.version then Err(InvalidShape)
    else if n > MAX_RECORDS || r.templates > MAX_RECORDS then Err(OutOfBounds)
    else if s.version == V5 && (n == 0 || n > V5_MAX_RECORDS) then Err(OutOfBounds)
    else if s.version == V5 && (r.templates != 0 || r.templateBytes != 0) then Err(InvalidShape)
    else if s.version == V9 && r.count != n + r.templates then Err(InvalidHeader)
    else if s.version == V5 && r.count != n then Err(InvalidHeader)
    else if s.version == IPFIX && r.count != 0 then Err(InvalidHeader)
    else if r.templateBytes > MAX_TEMPLATE_BYTES then Err(OutOfBounds)
    else if r.templateBytes != r.templates * TemplateBytes(s) then Err(InvalidShape)
    else if FirstRecordError(s, r.records).Some? then Err(FirstRecordError(s, r.records).value)
    else
      match DataSetSize(s.version, Minimum(s.fields), HasVariable(s), RecordsSize(s, r.records), n)
      case None => Err(OutOfBounds)
      case Some(size) =>
        if r.dataBytes != 0 && r.dataBytes != size.length then Err(OutOfBounds)
        else
          var message := HeaderBytes(s.version) + r.templateBytes + size.length;
          if message > MAX_UINT16 then Err(OutOfBounds)
          else if !PayloadFits(message, r.budget) then Err(OutOfBounds)
          else if message > capacity then Err(ShortBuffer)
          else Ok(message)
  }

  /** Write's whole decision. */
  ghost function BatchLength(v: Version, r: BatchRequest, capacity: nat): Result<nat>
  {
    if Preflight(r, capacity).Err? then Preflight(r, capacity)
    else if !WriterAccepts(r.header) then Err(InvalidHeader)
    else if r.shape.version != v then Err(InvalidShape)
    else if ShapeError(r.shape).Some? then Err(ShapeError(r.shape).value)
    else if exists k :: 0 <= k < |r.records| && !Writable(r.header, r.shape, r.records[k]) then Err(TimeError(v))
    else Preflight(r, capacity)
  }

  function TemplateSets(s: WireShape, count: nat): seq<Byte>
  {
    if count == 0 then [] else TemplateSets(s, count - 1) + TemplateSet(s)
  }

  ghost function BatchMessage(r: BatchRequest, n: nat): seq<Byte>
    requires AllFit(r.shape, r.records)
  {
    var s := r.shape;
    EncodeHeader(r.header, SecondWord(s.version, n, r.count)) + TemplateSets(s, r.templates)
    + match SetSizeOf(s, RecordsSize(s, r.records), |r.records|)
      case Some(size) => if r.records == [] then [] else DataSet(r.header, s, r.records, size)
      case None => []
  }

  // ---- laws -----------------------------------------------------------------------------

  lemma {:induction false} FirstErrorIsFirst(s: WireShape, records: seq<Record>)
    ensures FirstRecordError(s, records) == None <==> forall k :: 0 <= k < |records| ==> RecordSize(s, records[k]).Ok?
  {
    hide RecordSize;
    if records != [] {
      FirstErrorIsFirst(s, records[..|records| - 1]);
    }
  }

  ghost predicate AllOk(s: WireShape, records: seq<Record>)
  {
    forall k :: 0 <= k < |records| ==> RecordSize(s, records[k]).Ok?
  }

  lemma OneMore(n: nat, m: nat)
    ensures (n + 1) * m == n * m + m
  {}

  /** Encoded sizes respect the shape's minimum, exactly when nothing is variable. */
  lemma {:induction false} SizesConsistent(h: Header, s: WireShape, records: seq<Record>)
    requires ValidWireShape(s) && h.version == s.version && AllOk(s, records)
    ensures RecordsSize(s, records) >= |records| * Minimum(s.fields)
    ensures !HasVariable(s) ==> RecordsSize(s, records) == |records| * Minimum(s.fields)
  {
    hide ValidWireShape, RecordSize, Minimum, HasVariable;
    if records != [] {
      var last := |records| - 1;
      SizesConsistent(h, s, records[..last]);
      RecordBytes(h, s, records[last]);
      OneMore(last, Minimum(s.fields));
    }
  }

  lemma {:induction false} PrefixSmaller(h: Header, s: WireShape, records: seq<Record>, k: nat)
    requires ValidWireShape(s) && h.version == s.version && AllOk(s, records) && k <= |records|
    ensures RecordsSize(s, records[..k]) <= RecordsSize(s, records)
    ensures k < |records| ==> RecordsSize(s, records[..k]) + Minimum(s.fields) <= RecordsSize(s, records)
  {
    hide ValidWireShape, RecordSize, Minimum;
    if k < |records| {
      var last := |records| - 1;
      RecordBytes(h, s, records[last]);
      PrefixSmaller(h, s, records[..last], k);
      assert records[..last][..k] == records[..k];
    } else {
      assert records[..k] == records;
    }
  }

  /** A prefix of an accepted batch passes the size checks of every incremental step. */
  lemma PrefixFits(h: Header, s: WireShape, records: seq<Record>, k: nat, budget: nat, capacity: nat)
    requires ValidWireShape(s) && h.version == s.version && AllOk(s, records) && 0 < k <= |records|
    requires FitError(s.version, Minimum(s.fields), HasVariable(s), RecordsSize(s, records), |records|, budget, capacity) == None
    ensures FitError(s.version, Minimum(s.fields), HasVariable(s), RecordsSize(s, records[..k]), k, budget, capacity) == None
  {
    hide ValidWireShape, RecordSize, Minimum, HasVariable, DataSetSize, RecordsSize;
    ShapeIDFits(s);
    PrefixSmaller(h, s, records, k);
    SizesConsistent(h, s, records[..k]);
    if k == |records| {
      assert records[..k] == records;
    }
    PaddedMonotone(s.version, Minimum(s.fields), HasVariable(s), RecordsSize(s, records[..k]), k,
                   RecordsSize(s, records), |records|);
  }

  /** A data-only batch of these records. */
  function BatchOf(r: StreamRequest, records: seq<Record>): BatchRequest
  {
    BatchRequest(r.header, if r.shape.version == IPFIX then 0 else |records|, r.shape, records, 0, 0, 0, r.budget)
  }

  /** Every incremental call of the packet succeeds. */
  ghost predicate StreamAccepts(v: Version, r: StreamRequest, records: seq<Record>, capacity: nat)
  {
    && BeginError(v, r, capacity) == None
    && (forall k :: 0 <= k < |records| ==> AppendError(r, records[..k], capacity, records[k]) == None)
    && FinishError(r, records, capacity) == None
  }

  ghost predicate AllWritable(h: Header, s: WireShape, records: seq<Record>)
  {
    forall k :: 0 <= k < |records| ==> Writable(h, s, records[k])
  }

  /** What it takes for a whole non-empty packet to be written, read without either path's order. */
  ghost predicate PacketFits(v: Version, r: StreamRequest, records: seq<Record>, capacity: nat)
  {
    var s := r.shape;
    && ValidHeader(r.header) && WriterAccepts(r.header) && r.header.version == s.version == v && ShapeError(s) == None
    && AllWritable(r.header, s, records)
    && |records| <= ProtocolCap(v)
    && FitError(v, Minimum(s.fields), HasVariable(s), RecordsSize(s, records), |records|, r.budget, capacity) == None
  }

  lemma {:induction false} BatchMeansFits(v: Version, r: StreamRequest, records: seq<Record>, capacity: nat)
    requires records != []
    ensures BatchLength(v, BatchOf(r, records), capacity).Ok? <==> PacketFits(v, r, records, capacity)
    ensures PacketFits(v, r, records, capacity) ==>
      SetSizeOf(r.shape, RecordsSize(r.shape, records), |records|).Some?
      && BatchLength(v, BatchOf(r, records), capacity).value
         == HeaderBytes(v) + SetSizeOf(r.shape, RecordsSize(r.shape, records), |records|).value.length
  {
    hide ValidHeader, WriterAccepts, DataSetSize, Minimum, HasVariable, RecordsSize, RecordSize, ShapeError,
         TimesAccepted;
    FirstErrorIsFirst(r.shape, records);
    assert 0 * TemplateBytes(r.shape) == 0;
  }

  lemma StreamMeansFits(v: Version, r: StreamRequest, records: seq<Record>, capacity: nat)
    requires records != [] && LegalShape(r.shape) && StreamAccepts(v, r, records, capacity)
    ensures PacketFits(v, r, records, capacity) && |records| <= RecordCap(r) && r.limit <= ProtocolCap(v)
  {
    hide ValidHeader, WriterAccepts, DataSetSize, Minimum, HasVariable, RecordsSize, RecordSize, ShapeError,
         TimesAccepted,
         LegalShape, ValidWireShape, FitError;
    var last := |records| - 1;
    assert AppendError(r, records[..last], capacity, records[last]) == None;
    forall k | 0 <= k < |records|
      ensures Writable(r.header, r.shape, records[k])
    {
      assert AppendError(r, records[..k], capacity, records[k]) == None;
    }
  }

  lemma FitsMeansStream(v: Version, r: StreamRequest, records: seq<Record>, capacity: nat)
    requires records != [] && LegalShape(r.shape)
    requires PacketFits(v, r, records, capacity) && |records| <= RecordCap(r) && r.limit <= ProtocolCap(v)
    ensures StreamAccepts(v, r, records, capacity)
  {
    hide ValidHeader, WriterAccepts, DataSetSize, Minimum, HasVariable, RecordsSize, RecordSize, ShapeError,
         TimesAccepted,
         LegalShape, ValidWireShape;
    ShapeDecided(r.shape);
    OpeningFits(v, r, records, capacity);
    hide FitError;
    forall k | 0 <= k < |records|
      ensures AppendError(r, records[..k], capacity, records[k]) == None
    {
      PrefixFits(r.header, r.shape, records, k + 1, r.budget, capacity);
      PrefixGrows(r.shape, records, k);
    }
  }

  lemma PrefixGrows(s: WireShape, records: seq<Record>, k: nat)
    requires k < |records|
    ensures RecordsSize(s, records[..k + 1]) == RecordsSize(s, records[..k]) + SizeOf(s, records[k])
  {
    assert records[..k + 1][..k] == records[..k];
  }

  lemma OpeningFits(v: Version, r: StreamRequest, records: seq<Record>, capacity: nat)
    requires records != [] && LegalShape(r.shape) && PacketFits(v, r, records, capacity)
    ensures PayloadFits(0, r.budget) && PayloadFits(DataOffset(v), r.budget) && DataOffset(v) <= capacity
  {
    hide ValidHeader, WriterAccepts, RecordsSize, ShapeError, LegalShape, ValidWireShape, HasVariable, Minimum;
    ShapeDecided(r.shape);
    ShapeIDFits(r.shape);
    PaddingIsShort(v, Minimum(r.shape.fields), HasVariable(r.shape), RecordsSize(r.shape, records), |records|);
  }

  /** Streaming refines batch, acceptance: for a non-empty packet every incremental call succeeds exactly
      when the batch writer accepts the same records and they respect the request's record cap. */
  lemma StreamIffBatch(v: Version, r: StreamRequest, records: seq<Record>, capacity: nat)
    requires records != [] && LegalShape(r.shape)
    ensures StreamAccepts(v, r, records, capacity) <==>
      BatchLength(v, BatchOf(r, records), capacity).Ok? && |records| <= RecordCap(r) && r.limit <= ProtocolCap(v)
  {
    hide StreamAccepts, BatchLength, PacketFits, RecordCap, LegalShape, ValidWireShape;
    BatchMeansFits(v, r, records, capacity);
    if StreamAccepts(v, r, records, capacity) {
      StreamMeansFits(v, r, records, capacity);
    }
    if PacketFits(v, r, records, capacity) && |records| <= RecordCap(r) && r.limit <= ProtocolCap(v) {
      FitsMeansStream(v, r, records, capacity);
    }
  }

  /** Streaming refines batch, bytes: the data-only batch message is the stream's message. */
  lemma SameMessage(v: Version, r: StreamRequest, records: seq<Record>, capacity: nat)
    requires records != [] && BatchLength(v, BatchOf(r, records), capacity).Ok?
    ensures AllFit(r.shape, records) && SetSizeOf(r.shape, RecordsSize(r.shape, records), |records|).Some?
    ensures BatchMessage(BatchOf(r, records), BatchLength(v, BatchOf(r, records), capacity).value)
         == DataMessage(r.header, r.shape, records, SetSizeOf(r.shape, RecordsSize(r.shape, records), |records|).value)
  {
    hide BatchLength, RecordSize, TimesAccepted, RecordsSize, DataSet, EncodeHeader, DataSetSize;
    BatchMeansFits(v, r, records, capacity);
    assert EncodeHeader(r.header, SecondWord(v, BatchLength(v, BatchOf(r, records), capacity).value, |records|)) + []
        == EncodeHeader(r.header, SecondWord(v, BatchLength(v, BatchOf(r, records), capacity).value, |records|));
  }
}
