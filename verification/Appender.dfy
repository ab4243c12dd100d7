/** The two ways of filling a caller's buffer: the incremental appender and the batch writer. One class
    stands for the three protocols' appenders, which differ only in the header, the set framing and the
    record checks. */
module Appenders {
  import opened Base
  import opened Sizes
  import opened StateModel
  import opened Headers
  import opened Wire
  import opened WireDecoder
  import opened WireRoundTrip
  import opened WireRequests

  /** The bytes of `buffer` with `bytes` put at `at`. */
  function Patched(buffer: seq<Byte>, at: nat, bytes: seq<Byte>): (patched: seq<Byte>)
    requires at + |bytes| <= |buffer|
    ensures |patched| == |buffer|
  {
    buffer[..at] + bytes + buffer[at + |bytes|..]
  }

  /** Copies bytes into the buffer. */
  method Put(dst: array<Byte>, at: nat, bytes: seq<Byte>)
    requires at + |bytes| <= dst.Length
    modifies dst
    ensures dst[..] == Patched(old(dst[..]), at, bytes)
  {
    var i := 0;
    while i < |bytes|
      invariant i <= |bytes|
      invariant dst[..] == Patched(old(dst[..]), at, bytes[..i])
    {
      dst[at + i] := bytes[i];
      i := i + 1;
    }
    assert bytes[..i] == bytes;
  }

  lemma PatchAfterPatch(buffer: seq<Byte>, at: nat, a: seq<Byte>, b: seq<Byte>)
    requires at + |a| + |b| <= |buffer|
    ensures Patched(Patched(buffer, at, a), at + |a|, b) == Patched(buffer, at, a + b)
  {}

  lemma {:induction false} PatchNothing(buffer: seq<Byte>, at: nat)
    requires at <= |buffer|
    ensures Patched(buffer, at, []) == buffer
  {}

  /** writeDataRecord: the record's values, one field after another. */
  method WriteRecord(dst: array<Byte>, at: nat, h: Header, s: WireShape, r: Record)
    requires |s.fields| == |r.values| && at + |EncodeRecord(h, s, r)| <= dst.Length
    modifies dst
    ensures dst[..] == Patched(old(dst[..]), at, EncodeRecord(h, s, r))
  {
    hide EncodeValue, EncodeValues;
    var offset := at;
    ghost var before := dst[..];
    var i := 0;
    NoValues(h);
    PatchNothing(before, at);
    while i < |s.fields|
      invariant i <= |s.fields|
      invariant offset == at + |EncodeValues(h, s.fields[..i], r.values[..i])| <= dst.Length
      invariant dst[..] == Patched(before, at, EncodeValues(h, s.fields[..i], r.values[..i]))
    {
      OneMoreValue(h, s.fields, r.values, i);
      var bytes := EncodeValue(h, s.fields[i], r.values[i]);
      PatchAfterPatch(before, at, EncodeValues(h, s.fields[..i], r.values[..i]), bytes);
      Put(dst, offset, bytes);
      offset := offset + |bytes|;
      i := i + 1;
    }
    assert s.fields[..i] == s.fields && r.values[..i] == r.values;
  }

  lemma NoValues(h: Header)
    ensures EncodeValues(h, [], []) == []
  {}

  lemma {:induction false} OneMoreValue(h: Header, fields: seq<FieldSpec>, values: seq<WireValue>, i: nat)
    requires |fields| == |values| && i < |fields|
    ensures EncodeValues(h, fields[..i + 1], values[..i + 1])
         == EncodeValues(h, fields[..i], values[..i]) + EncodeValue(h, fields[i], values[i])
    ensures |EncodeValues(h, fields[..i + 1], values[..i + 1])| <= |EncodeValues(h, fields, values)|
    decreases |fields| - i
  {
    hide EncodeValue;
    assert fields[..i + 1][..i] == fields[..i] && values[..i + 1][..i] == values[..i];
    if i + 1 < |fields| {
      OneMoreValue(h, fields, values, i + 1);
    } else {
      assert fields[..i + 1] == fields && values[..i + 1] == values;
    }
  }

  // ---- record checks --------------------------------------------------------------------

  lemma {:induction false} TimeOfNext(role: Role, fields: seq<FieldSpec>, values: seq<WireValue>, i: nat)
    requires |fields| == |values| && i < |fields|
    ensures TimeOf(role, fields[..i + 1], values[..i + 1])
         == if fields[i].role == role && values[i].TimeV? then Some(values[i].nanos) else TimeOf(role, fields[..i], values[..i])
  {
    assert fields[..i + 1][..i] == fields[..i] && values[..i + 1][..i] == values[..i];
  }

  /** validateRecord and validateRecordTime: one pass over the fields. */
  method CheckTimes(h: Header, s: WireShape, r: Record) returns (ok: bool)
    requires |s.fields| == |r.values|
    ensures ok == TimesAccepted(h, s, r)
  {
    hide TimeOf, WithinUptime, NtpTimestamp;
    var first: Option<nat>, last: Option<nat> := None, None;
    NoTimes(FlowStart);
    NoTimes(FlowEnd);
    var i := 0;
    while i < |s.fields|
      invariant i <= |s.fields|
      invariant s.version == IPFIX ==>
        forall k :: 0 <= k < i && s.fields[k].encoding == NtpTime && r.values[k].TimeV? ==> NtpTimestamp(r.values[k].nanos).Some?
      invariant s.version != IPFIX ==>
        forall k :: 0 <= k < i && (s.fields[k].role == FlowStart || s.fields[k].role == FlowEnd) && r.values[k].TimeV? ==>
          WithinUptime(h, r.values[k].nanos)
      invariant first == TimeOf(FlowStart, s.fields[..i], r.values[..i])
      invariant last == TimeOf(FlowEnd, s.fields[..i], r.values[..i])
    {
      var f, v := s.fields[i], r.values[i];
      TimeOfNext(FlowStart, s.fields, r.values, i);
      TimeOfNext(FlowEnd, s.fields, r.values, i);
      if s.version == IPFIX {
        if f.encoding == NtpTime && v.TimeV? && NtpTimestamp(v.nanos) == None {
          return false;
        }
      } else if (f.role == FlowStart || f.role == FlowEnd) && v.TimeV? && !WithinUptime(h, v.nanos) {
        return false;
      }
      if v.TimeV? {
        if f.role == FlowStart {
          first := Some(v.nanos);
        } else if f.role == FlowEnd {
          last := Some(v.nanos);
        }
      }
      i := i + 1;
    }
    assert s.fields[..i] == s.fields && r.values[..i] == r.values;
    if s.version == IPFIX {
      return true;
    }
    if first.Some? && last.Some? && first.value > last.value {
      return false;
    }
    return !(s.version == V5 && |r.values| == 20) || (MaskOk(r.values[17]) && MaskOk(r.values[18]));
  }

  lemma NoTimes(role: Role)
    ensures TimeOf(role, [], []) == None
  {}

  // ---- the incremental appender ---------------------------------------------------------

  /** What Begin leaves at the front of the buffer: zero counts and lengths. */
  function Opening(h: Header, s: WireShape): (bytes: seq<Byte>)
    ensures |bytes| == HeaderBytes(h.version) + if s.version == V5 then 0 else 4
  {
    EncodeHeader(h, 0) + if s.version == V5 then [] else BE(s.id, 2) + BE(0, 2)
  }

  /** The front of the buffer once these records have been taken. */
  ghost function Filled(h: Header, s: WireShape, records: seq<Record>): seq<Byte>
    requires AllFit(s, records)
  {
    Opening(h, s) + EncodeRecords(h, s, records)
  }

  lemma WritableFits(h: Header, s: WireShape, records: seq<Record>)
    requires AllWritable(h, s, records)
    ensures AllFit(s, records) && AllSized(s, records) && AllOk(s, records)
  {}

  /** One more accepted record extends the filled front by exactly its bytes. */
  lemma FilledNext(h: Header, s: WireShape, accepted: seq<Record>, record: Record, buffer: seq<Byte>, size: nat)
    requires ValidWireShape(s) && h.version == s.version && AllWritable(h, s, accepted) && Writable(h, s, record)
    requires AllFit(s, accepted) && size == SizeOf(s, record)
    requires DataOffset(s.version) + RecordsSize(s, accepted) + size <= |buffer|
    requires buffer[..DataOffset(s.version) + RecordsSize(s, accepted)] == Filled(h, s, accepted)
    ensures AllWritable(h, s, accepted + [record]) && AllFit(s, accepted + [record])
    ensures RecordsSize(s, accepted + [record]) == RecordsSize(s, accepted) + size
    ensures |EncodeRecord(h, s, record)| == size
    ensures var at := DataOffset(s.version) + RecordsSize(s, accepted);
      && Patched(buffer, at, EncodeRecord(h, s, record))[..at + size] == Filled(h, s, accepted + [record])
      && Patched(buffer, at, EncodeRecord(h, s, record))[at + size..] == buffer[at + size..]
  {
    hide ValidWireShape, EncodeRecord, RecordSize, TimesAccepted, EncodeHeader, Opening, Patched;
    assert (accepted + [record])[..|accepted|] == accepted;
    RecordBytes(h, s, record);
    PatchAtFront(buffer, Filled(h, s, accepted), EncodeRecord(h, s, record));
    assert Filled(h, s, accepted) + EncodeRecord(h, s, record) == Filled(h, s, accepted + [record]);
  }

  lemma PatchAtFront(buffer: seq<Byte>, front: seq<Byte>, bytes: seq<Byte>)
    requires |front| + |bytes| <= |buffer| && buffer[..|front|] == front
    ensures Patched(buffer, |front|, bytes)[..|front| + |bytes|] == front + bytes
    ensures Patched(buffer, |front|, bytes)[|front| + |bytes|..] == buffer[|front| + |bytes|..]
  {}

  lemma FitsInBuffer(s: WireShape, bytes: nat, count: nat, budget: nat, capacity: nat)
    requires ValidWireShape(s) && count > 0
    requires FitError(s.version, Minimum(s.fields), HasVariable(s), bytes, count, budget, capacity) == None
    ensures DataOffset(s.version) + bytes <= capacity
    ensures SetSizeOf(s, bytes, count).Some?
    ensures HeaderBytes(s.version) + SetSizeOf(s, bytes, count).value.length <= MAX_UINT16
  {
    hide ValidWireShape, Minimum, HasVariable;
    ShapeIDFits(s);
    PaddingIsShort(s.version, Minimum(s.fields), HasVariable(s), bytes, count);
  }

  lemma HeaderPatched(h: Header, a: nat, b: nat)
    ensures Patched(EncodeHeader(h, a), 2, BE(b, 2)) == EncodeHeader(h, b)
  {
    hide BE;
  }

  lemma PatchHead(head: seq<Byte>, tail: seq<Byte>, at: nat, bytes: seq<Byte>)
    requires at + |bytes| <= |head|
    ensures Patched(head + tail, at, bytes) == Patched(head, at, bytes) + tail
  {}

  lemma PatchTail(head: seq<Byte>, tail: seq<Byte>, at: nat, bytes: seq<Byte>)
    requires at + |bytes| <= |tail|
    ensures Patched(head + tail, |head| + at, bytes) == head + Patched(tail, at, bytes)
  {}

  /** A data set header; none in v5. */
  function SetHeader(s: WireShape, length: nat): (bytes: seq<Byte>)
    ensures |bytes| == if s.version == V5 then 0 else 4
  {
    if s.version == V5 then [] else BE(s.id, 2) + BE(length, 2)
  }

  lemma SetHeaderPatched(s: WireShape, length: nat)
    requires s.version != V5
    ensures Patched(SetHeader(s, 0), 2, BE(length, 2)) == SetHeader(s, length)
  {
    hide BE;
  }

  /** Finish's first two patches: the header's second word and, outside v5, the set length. */
  function Counted(buffer: seq<Byte>, s: WireShape, size: SetSize, count: nat): (patched: seq<Byte>)
    requires DataOffset(s.version) <= |buffer|
    ensures |patched| == |buffer|
  {
    var second := SecondWord(s.version, HeaderBytes(s.version) + size.length, count);
    var counted := Patched(buffer, 2, BE(second, 2));
    if s.version == V5 then counted else Patched(counted, HeaderBytes(s.version) + 2, BE(size.length, 2))
  }

  lemma CountedParts(h: Header, s: WireShape, size: SetSize, count: nat, rest: seq<Byte>)
    requires h.version == s.version
    ensures Counted(EncodeHeader(h, 0) + (SetHeader(s, 0) + rest), s, size, count)
         == EncodeHeader(h, SecondWord(s.version, HeaderBytes(s.version) + size.length, count))
            + (SetHeader(s, size.length) + rest)
  {
    hide BE, EncodeHeader, Patched, SetHeader;
    var second := SecondWord(s.version, HeaderBytes(s.version) + size.length, count);
    HeaderPatched(h, 0, second);
    PatchHead(EncodeHeader(h, 0), SetHeader(s, 0) + rest, 2, BE(second, 2));
    if s.version != V5 {
      PatchTail(EncodeHeader(h, second), SetHeader(s, 0) + rest, 2, BE(size.length, 2));
      PatchHead(SetHeader(s, 0), rest, 2, BE(size.length, 2));
      SetHeaderPatched(s, size.length);
    } else {
      NoSetHeader(s, size.length, rest);
    }
  }

  lemma NoSetHeader(s: WireShape, length: nat, rest: seq<Byte>)
    requires s.version == V5
    ensures SetHeader(s, 0) + rest == rest == SetHeader(s, length) + rest
  {}

  /** How long the filled front is, and where the message ends. */
  lemma FrontLength(h: Header, s: WireShape, accepted: seq<Record>, size: SetSize)
    requires ValidWireShape(s) && h.version == s.version && AllWritable(h, s, accepted) && AllFit(s, accepted)
    requires Accepted(s, accepted, size)
    ensures |EncodeRecords(h, s, accepted)| == RecordsSize(s, accepted)
    ensures |Filled(h, s, accepted)| == DataOffset(s.version) + RecordsSize(s, accepted)
    ensures |Filled(h, s, accepted)| + size.padding == HeaderBytes(s.version) + size.length
    ensures s.version == V5 ==> size.padding == 0
  {
    hide ValidWireShape, EncodeHeader, EncodeRecords, RecordSize, TimesAccepted, RecordsSize, Minimum, HasVariable,
         BE, DataSetSize;
    ShapeIDFits(s);
    WritableFits(h, s, accepted);
    EncodedRecordsLength(h, s, accepted);
    PaddingIsShort(s.version, Minimum(s.fields), HasVariable(s), RecordsSize(s, accepted), |accepted|);
  }

  /** Patches and padding turn the filled front into the whole data message and touch nothing beyond. */
  lemma FinishedParts(h: Header, s: WireShape, accepted: seq<Record>, size: SetSize, rest: seq<Byte>)
    requires h.version == s.version && AllFit(s, accepted) && size.padding <= |rest|
    requires s.version == V5 ==> size.padding == 0
    ensures DataOffset(s.version) <= |Filled(h, s, accepted)|
    ensures Patched(Counted(Filled(h, s, accepted) + rest, s, size, |accepted|), |Filled(h, s, accepted)|, Zeros(size.padding))
         == DataMessage(h, s, accepted, size) + rest[size.padding..]
  {
    hide EncodeHeader, EncodeRecords, BE, Counted, SetHeader, Patched, DataMessage;
    var head := EncodeHeader(h, SecondWord(s.version, HeaderBytes(s.version) + size.length, |accepted|));
    var records := EncodeRecords(h, s, accepted);
    OpeningParts(h, s, records, rest);
    CountedParts(h, s, size, |accepted|, records + rest);
    PaddedParts(head, SetHeader(s, size.length), records, rest, Zeros(size.padding));
    MessageParts(h, s, accepted, size, rest[size.padding..]);
  }

  lemma FinishedMessage(h: Header, s: WireShape, accepted: seq<Record>, size: SetSize, buffer: seq<Byte>)
    requires ValidWireShape(s) && h.version == s.version && AllWritable(h, s, accepted) && AllFit(s, accepted)
    requires Accepted(s, accepted, size) && HeaderBytes(s.version) + size.length <= |buffer|
    requires var filled := DataOffset(s.version) + RecordsSize(s, accepted);
      filled <= |buffer| && buffer[..filled] == Filled(h, s, accepted)
    ensures DataOffset(s.version) + RecordsSize(s, accepted) + size.padding == HeaderBytes(s.version) + size.length
    ensures Patched(Counted(buffer, s, size, |accepted|), DataOffset(s.version) + RecordsSize(s, accepted), Zeros(size.padding))
         == DataMessage(h, s, accepted, size) + buffer[HeaderBytes(s.version) + size.length..]
  {
    hide ValidWireShape, EncodeHeader, AllWritable, Accepted, Filled, Patched, Counted, DataMessage, RecordsSize;
    FrontLength(h, s, accepted, size);
    var rest := buffer[|Filled(h, s, accepted)|..];
    assert buffer == Filled(h, s, accepted) + rest;
    FinishedParts(h, s, accepted, size, rest);
    assert rest[size.padding..] == buffer[HeaderBytes(s.version) + size.length..];
  }

  lemma PaddedParts(head: seq<Byte>, framing: seq<Byte>, records: seq<Byte>, rest: seq<Byte>, pad: seq<Byte>)
    requires |pad| <= |rest|
    ensures Patched(head + (framing + (records + rest)), |head| + |framing| + |records|, pad)
         == head + (framing + (records + (pad + rest[|pad|..])))
  {
    hide Patched;
    PatchTail(head, framing + (records + rest), |framing| + |records|, pad);
    PatchTail(framing, records + rest, |records|, pad);
    PatchTail(records, rest, 0, pad);
    PatchFront(rest, pad);
  }

  lemma PatchFront(buffer: seq<Byte>, bytes: seq<Byte>)
    requires |bytes| <= |buffer|
    ensures Patched(buffer, 0, bytes) == bytes + buffer[|bytes|..]
  {}

  lemma OpeningParts(h: Header, s: WireShape, records: seq<Byte>, rest: seq<Byte>)
    ensures Opening(h, s) + records + rest == EncodeHeader(h, 0) + (SetHeader(s, 0) + (records + rest))
  {
    hide EncodeHeader, BE;
  }

  lemma MessageParts(h: Header, s: WireShape, accepted: seq<Record>, size: SetSize, rest: seq<Byte>)
    requires AllFit(s, accepted) && (s.version == V5 ==> size.padding == 0)
    ensures EncodeHeader(h, SecondWord(s.version, HeaderBytes(s.version) + size.length, |accepted|))
            + (SetHeader(s, size.length) + (EncodeRecords(h, s, accepted) + (Zeros(size.padding) + rest)))
         == DataMessage(h, s, accepted, size) + rest
  {
    hide EncodeHeader, BE, EncodeRecords;
  }

  class Appender {
    const version: Version
    var dst: array?<Byte>
    var request: Option<StreamRequest>
    var recordCap: nat
    var records: nat
    var recordBytes: nat
    var begun: bool
    var done: bool
    ghost var accepted: seq<Record>

    ghost function Buffer(): set<object>
      reads this
    {
      if dst == null then {} else {dst}
    }

    /** The accepted records are counted, sized and, until Finish, already in the buffer. */
    ghost predicate Holding(r: StreamRequest, buffer: seq<Byte>)
      reads this
    {
      && r.header.version == r.shape.version == version && ValidWireShape(r.shape)
      && recordCap == RecordCap(r) && records == |accepted| <= recordCap
      && recordBytes == RecordsSize(r.shape, accepted) && AllWritable(r.header, r.shape, accepted)
      && (accepted != [] ==> FinishError(r, accepted, |buffer|) == None)
      && DataOffset(version) + recordBytes <= |buffer|
      && (!done ==> buffer[..DataOffset(version) + recordBytes] == Filled(r.header, r.shape, accepted))
    }

    ghost predicate Valid()
      reads this, Buffer()
    {
      && (begun ==> dst != null && request.Some? && Holding(request.value, dst[..]))
      && (done ==> begun)
    }

    constructor (version: Version)
      ensures Valid() && !begun && this.version == version
    {
      this.version := version;
      dst, request, recordCap, records, recordBytes, begun, done, accepted := null, None, 0, 0, 0, false, false, [];
    }

    method Reset()
      modifies this
      ensures Valid() && !begun && !done && dst == null
    {
      dst, request, recordCap, records, recordBytes, begun, done, accepted := null, None, 0, 0, 0, false, false, [];
    }

    /** A refused Begin leaves the active packet and both buffers as they were. */
    method Begin(buffer: array<Byte>, r: StreamRequest) returns (err: Option<WireError>)
      requires Valid() && LegalShape(r.shape)
      modifies this, buffer
      ensures err == BeginError(version, r, buffer.Length)
      ensures err == None ==>
        && Valid() && begun && !done && dst == buffer && request == Some(r) && accepted == []
        && buffer[..] == Patched(old(buffer[..]), 0, Opening(r.header, r.shape))
      ensures err != None ==> unchanged(this) && unchanged(buffer)
    {
      hide LegalShape, ValidWireShape, EncodeHeader, ValidHeader, WriterAccepts, ShapeError;
      ShapeDecided(r.shape);
      err := BeginError(version, r, buffer.Length);
      if err != None {
        return;
      }
      Put(buffer, 0, Opening(r.header, r.shape));
      dst, request, recordCap := buffer, Some(r), RecordCap(r);
      records, recordBytes, begun, done, accepted := 0, 0, true, false, [];
      assert Filled(r.header, r.shape, []) == Opening(r.header, r.shape);
    }

    /** A refused Append changes neither the appender nor the buffer. */
    method Append(record: Record) returns (err: Option<WireError>)
      requires Valid()
      modifies this, Buffer()
      ensures Valid()
      ensures err == if !old(begun) then Some(NotBegun) else if old(done) then Some(AlreadyFinished)
                     else WireRequests.AppendError(old(request.value), old(accepted), old(dst.Length), record)
      ensures err == None ==>
        begun && !done && dst == old(dst) && request == old(request) && accepted == old(accepted) + [record]
      ensures err == None ==>
        dst[DataOffset(version) + recordBytes..] == old(dst[..])[DataOffset(version) + recordBytes..]
      ensures err != None ==> unchanged(this) && unchanged(Buffer())
    {
      hide ValidWireShape, EncodeHeader, RecordSize, TimesAccepted, EncodeRecord, EncodeRecords, Opening, FitError,
           RecordsSize,
           Minimum, HasVariable, Patched, Filled, AllWritable;
      if !begun {
        return Some(NotBegun);
      }
      if done {
        return Some(AlreadyFinished);
      }
      var r := request.value;
      if records >= recordCap {
        return Some(OutOfBounds);
      }
      var size := RecordSize(r.shape, record);
      if size.Err? {
        return Some(size.error);
      }
      SizedFits(r.shape, record);
      WritableFits(r.header, r.shape, accepted);
      var timely := CheckTimes(r.header, r.shape, record);
      if !timely {
        return Some(TimeError(r.shape.version));
      }
      err := FitError(r.shape.version, Minimum(r.shape.fields), HasVariable(r.shape), recordBytes + size.value, records + 1,
                      r.budget, dst.Length);
      if err != None {
        return;
      }
      FitsInBuffer(r.shape, recordBytes + size.value, records + 1, r.budget, dst.Length);
      FilledNext(r.header, r.shape, accepted, record, dst[..], size.value);
      WriteRecord(dst, DataOffset(version) + recordBytes, r.header, r.shape, record);
      records, recordBytes, accepted := records + 1, recordBytes + size.value, accepted + [record];
    }

    /** Finish writes the final counts and padding; a refused Finish changes nothing. */
    method Finish() returns (r: Result<nat>)
      requires Valid()
      modifies this`done, Buffer()
      ensures Valid()
      ensures r.Err? <==> !old(begun) || old(done) || FinishError(old(request.value), old(accepted), old(dst.Length)).Some?
      ensures r.Err? ==>
        && r.error == (if !begun then NotBegun else if old(done) then AlreadyFinished
                       else FinishError(request.value, accepted, dst.Length).value)
        && unchanged(this) && unchanged(Buffer())
      ensures r.Ok? ==> done && Completed(r.value, old(dst[..]), dst[..])
    {
      hide ValidWireShape, EncodeHeader, EncodeRecords, RecordsSize, Minimum, HasVariable, Patched, Counted,
           DataMessage, Filled,
           AllWritable, DataSetSize, Accepted;
      if !begun {
        return Err(NotBegun);
      }
      if done {
        return Err(AlreadyFinished);
      }
      if records == 0 {
        return Err(PacketEmpty);
      }
      var s := request.value.shape;
      var size := DataSetSize(s.version, Minimum(s.fields), HasVariable(s), recordBytes, records);
      if size == None {
        return Err(OutOfBounds);
      }
      var total := HeaderBytes(version) + size.value.length;
      if !PayloadFits(total, request.value.budget) {
        return Err(OutOfBounds);
      }
      if total > dst.Length {
        return Err(ShortBuffer);
      }
      AcceptedSize(request.value, accepted, size.value);
      FinishedMessage(request.value.header, s, accepted, size.value, dst[..]);
      WriteEnd(dst, s, size.value, records, DataOffset(version) + recordBytes, total);
      done := true;
      return Ok(total);
    }

    /** The buffer now starts with the message of the accepted records and is otherwise untouched. */
    ghost predicate Completed(n: nat, before: seq<Byte>, after: seq<Byte>)
      reads this
    {
      && request.Some? && AllFit(request.value.shape, accepted) && n <= |before|
      && var s := request.value.shape;
         var size := SetSizeOf(s, RecordsSize(s, accepted), |accepted|);
      && size.Some? && n == HeaderBytes(s.version) + size.value.length
      && after == DataMessage(request.value.header, s, accepted, size.value) + before[n..]
    }
  }

  lemma AcceptedSize(r: StreamRequest, accepted: seq<Record>, size: SetSize)
    requires AllWritable(r.header, r.shape, accepted) && accepted != []
    requires SetSizeOf(r.shape, RecordsSize(r.shape, accepted), |accepted|) == Some(size)
    ensures Accepted(r.shape, accepted, size) && AllFit(r.shape, accepted)
  {}

  /** The final writes of Finish: count or length, set length, padding. */
  method WriteEnd(dst: array<Byte>, s: WireShape, size: SetSize, count: nat, end: nat, total: nat)
    requires DataOffset(s.version) <= end <= dst.Length && end + size.padding <= dst.Length
    requires total == HeaderBytes(s.version) + size.length
    modifies dst
    ensures dst[..] == Patched(Counted(old(dst[..]), s, size, count), end, Zeros(size.padding))
  {
    hide BE;
    Put(dst, 2, BE(SecondWord(s.version, total, count), 2));
    if s.version != V5 {
      Put(dst, HeaderBytes(s.version) + 2, BE(size.length, 2));
    }
    PutZeros(dst, end, size.padding);
  }

  method PutZeros(dst: array<Byte>, at: nat, count: nat)
    requires at + count <= dst.Length
    modifies dst
    ensures dst[..] == Patched(old(dst[..]), at, Zeros(count))
  {
    var i := 0;
    while i < count
      invariant i <= count
      invariant dst[..] == Patched(old(dst[..]), at, Zeros(i))
    {
      dst[at + i] := 0;
      i := i + 1;
    }
  }

  lemma AllOkIsSized(s: WireShape, records: seq<Record>)
    requires AllOk(s, records)
    ensures AllSized(s, records) && AllFit(s, records)
  {
    hide ValuesLength, FirstValueError;
  }

  lemma SizedFits(s: WireShape, r: Record)
    ensures RecordSize(s, r).Ok? ==> |r.values| == |s.fields|
  {
    hide ValuesLength, FirstValueError;
  }

  // ---- the batch writer -----------------------------------------------------------------

  /** Total encoded length of the records, or the first error. */
  method MeasureRecords(s: WireShape, records: seq<Record>) returns (r: Result<nat>)
    ensures r.Err? <==> FirstRecordError(s, records).Some?
    ensures r.Err? ==> r.error == FirstRecordError(s, records).value
    ensures r.Ok? ==> r.value == RecordsSize(s, records)
  {
    hide RecordSize;
    var total := 0;
    var i := 0;
    while i < |records|
      invariant i <= |records|
      invariant FirstRecordError(s, records[..i]) == None && total == RecordsSize(s, records[..i])
    {
      FirstErrorNext(s, records, i);
      var size := RecordSize(s, records[i]);
      if size.Err? {
        return Err(size.error);
      }
      PrefixGrows(s, records, i);
      total := total + size.value;
      i := i + 1;
    }
    assert records[..i] == records;
    return Ok(total);
  }

  lemma {:induction false} FirstErrorNext(s: WireShape, records: seq<Record>, i: nat)
    requires i < |records| && FirstRecordError(s, records[..i]) == None
    ensures RecordSize(s, records[i]).Err? ==> FirstRecordError(s, records) == Some(RecordSize(s, records[i]).error)
    ensures RecordSize(s, records[i]).Ok? ==> FirstRecordError(s, records[..i + 1]) == None
    decreases |records|
  {
    hide RecordSize;
    var last := |records| - 1;
    assert records[..i + 1][..i] == records[..i];
    if i < last {
      assert records[..last][..i] == records[..i];
      FirstErrorNext(s, records[..last], i);
    } else {
      assert records[..i + 1] == records;
    }
  }

  /** Preflight on a caller's buffer. */
  method CheckRequest(r: BatchRequest, capacity: nat) returns (result: Result<nat>)
    ensures result == Preflight(r, capacity)
  {
    hide RecordSize, RecordsSize, FirstRecordError, Minimum, HasVariable, DataSetSize, TemplateBytes;
    var s, n := r.shape, |r.records|;
    if !ValidHeader(r.header) {
      return Err(InvalidHeader);
    }
    if s.version != r.header.version {
      return Err(InvalidShape);
    }
    if n > MAX_RECORDS || r.templates > MAX_RECORDS {
      return Err(OutOfBounds);
    }
    if s.version == V5 && (n == 0 || n > V5_MAX_RECORDS) {
      return Err(OutOfBounds);
    }
    if s.version == V5 && (r.templates != 0 || r.templateBytes != 0) {
      return Err(InvalidShape);
    }
    if r.count != (match s.version case V9 => n + r.templates case V5 => n case IPFIX => 0) {
      return Err(InvalidHeader);
    }
    if r.templateBytes > MAX_TEMPLATE_BYTES {
      return Err(OutOfBounds);
    }
    if r.templateBytes != r.templates * TemplateBytes(s) {
      return Err(InvalidShape);
    }
    var bytes := MeasureRecords(s, r.records);
    if bytes.Err? {
      return bytes;
    }
    var size := DataSetSize(s.version, Minimum(s.fields), HasVariable(s), bytes.value, n);
    if size == None || (r.dataBytes != 0 && r.dataBytes != size.value.length) {
      return Err(OutOfBounds);
    }
    var message := HeaderBytes(s.version) + r.templateBytes + size.value.length;
    if message > MAX_UINT16 || !PayloadFits(message, r.budget) {
      return Err(OutOfBounds);
    }
    if message > capacity {
      return Err(ShortBuffer);
    }
    return Ok(message);
  }

  method CheckAllTimes(h: Header, s: WireShape, records: seq<Record>) returns (ok: bool)
    requires AllSized(s, records)
    ensures ok == AllWritable(h, s, records)
  {
    hide RecordSize, TimesAccepted;
    for i := 0 to |records|
      invariant forall k :: 0 <= k < i ==> Writable(h, s, records[k])
    {
      ok := CheckTimes(h, s, records[i]);
      if !ok {
        assert !Writable(h, s, records[i]);
        return;
      }
    }
    return true;
  }

  method PutRecords(dst: array<Byte>, at: nat, h: Header, s: WireShape, records: seq<Record>) returns (end: nat)
    requires AllFit(s, records) && at + |EncodeRecords(h, s, records)| <= dst.Length
    modifies dst
    ensures end == at + |EncodeRecords(h, s, records)|
    ensures dst[..] == Patched(old(dst[..]), at, EncodeRecords(h, s, records))
  {
    hide EncodeRecord, Patched;
    end := at;
    ghost var before := dst[..];
    PatchNothing(before, at);
    var i := 0;
    while i < |records|
      invariant i <= |records|
      invariant end == at + |EncodeRecords(h, s, records[..i])| <= dst.Length
      invariant dst[..] == Patched(before, at, EncodeRecords(h, s, records[..i]))
    {
      OneMoreRecord(h, s, records, i);
      PatchAfterPatch(before, at, EncodeRecords(h, s, records[..i]), EncodeRecord(h, s, records[i]));
      WriteRecord(dst, end, h, s, records[i]);
      end := end + |EncodeRecord(h, s, records[i])|;
      i := i + 1;
    }
    assert records[..i] == records;
  }

  lemma {:induction false} OneMoreRecord(h: Header, s: WireShape, records: seq<Record>, i: nat)
    requires AllFit(s, records) && i < |records|
    ensures EncodeRecords(h, s, records[..i + 1]) == EncodeRecords(h, s, records[..i]) + EncodeRecord(h, s, records[i])
    ensures |EncodeRecords(h, s, records[..i + 1])| <= |EncodeRecords(h, s, records)|
    decreases |records| - i
  {
    hide EncodeRecord;
    assert records[..i + 1][..i] == records[..i];
    if i + 1 < |records| {
      OneMoreRecord(h, s, records, i + 1);
    } else {
      assert records[..i + 1] == records;
    }
  }

  method PutTemplates(dst: array<Byte>, at: nat, s: WireShape, count: nat) returns (end: nat)
    requires at + |TemplateSets(s, count)| <= dst.Length
    modifies dst
    ensures end == at + |TemplateSets(s, count)| && dst[..] == Patched(old(dst[..]), at, TemplateSets(s, count))
  {
    hide TemplateSet, Patched;
    end := at;
    ghost var before := dst[..];
    PatchNothing(before, at);
    var i := 0;
    while i < count
      invariant i <= count
      invariant end == at + |TemplateSets(s, i)| <= dst.Length
      invariant dst[..] == Patched(before, at, TemplateSets(s, i))
    {
      TemplatesShorter(s, i + 1, count);
      PatchAfterPatch(before, at, TemplateSets(s, i), TemplateSet(s));
      Put(dst, end, TemplateSet(s));
      end := end + |TemplateSet(s)|;
      i := i + 1;
    }
  }

  lemma {:induction false} TemplatesShorter(s: WireShape, i: nat, count: nat)
    requires i <= count
    ensures |TemplateSets(s, i)| <= |TemplateSets(s, count)|
  {
    hide TemplateSet;
    if i < count {
      TemplatesShorter(s, i, count - 1);
    }
  }

  /** The whole message, front to back, and nothing beyond it. */
  method PutMessage(dst: array<Byte>, r: BatchRequest, n: nat, size: SetSize)
    requires AllFit(r.shape, r.records) && n <= dst.Length && |BatchMessage(r, n)| == n
    requires SetSizeOf(r.shape, RecordsSize(r.shape, r.records), |r.records|) == Some(size)
    modifies dst
    ensures dst[..] == Patched(old(dst[..]), 0, BatchMessage(r, n))
  {
    hide EncodeHeader, TemplateSets, EncodeRecords, Patched, SetSizeOf, RecordsSize, BE, AllFit,
         BatchMessage;
    var s := r.shape;
    ghost var before := dst[..];
    var header := EncodeHeader(r.header, SecondWord(s.version, n, r.count));
    BatchParts(r, n, size);
    Put(dst, 0, header);
    var end := PutTemplates(dst, |header|, s, r.templates);
    PatchAfterPatch(before, 0, header, TemplateSets(s, r.templates));
    if r.records != [] {
      ghost var front := header + TemplateSets(s, r.templates);
      var framing := SetHeader(s, size.length);
      Put(dst, end, framing);
      PatchAfterPatch(before, 0, front, framing);
      ghost var filled := end + |framing|;
      end := PutRecords(dst, end + |framing|, r.header, s, r.records);
      PatchAfterPatch(before, 0, front + framing, EncodeRecords(r.header, s, r.records));
      PutZeros(dst, end, if s.version == V5 then 0 else size.padding);
      PatchAfterPatch(before, 0, front + framing + EncodeRecords(r.header, s, r.records),
                      Zeros(if s.version == V5 then 0 else size.padding));
    }
  }

  lemma BatchParts(r: BatchRequest, n: nat, size: SetSize)
    requires AllFit(r.shape, r.records)
    requires SetSizeOf(r.shape, RecordsSize(r.shape, r.records), |r.records|) == Some(size)
    ensures var front := EncodeHeader(r.header, SecondWord(r.shape.version, n, r.count)) + TemplateSets(r.shape, r.templates);
      BatchMessage(r, n) == if r.records == [] then front
                            else front + SetHeader(r.shape, size.length) + EncodeRecords(r.header, r.shape, r.records)
                                 + Zeros(if r.shape.version == V5 then 0 else size.padding)
  {
    hide EncodeHeader, TemplateSets, EncodeRecords, SetSizeOf, RecordsSize, BE;
  }

  lemma BatchMessageLength(v: Version, r: BatchRequest, capacity: nat)
    requires LegalShape(r.shape) && BatchLength(v, r, capacity).Ok?
    ensures AllFit(r.shape, r.records) && SetSizeOf(r.shape, RecordsSize(r.shape, r.records), |r.records|).Some?
    ensures BatchLength(v, r, capacity).value <= capacity
    ensures |BatchMessage(r, BatchLength(v, r, capacity).value)| == BatchLength(v, r, capacity).value
  {
    hide ValidWireShape, EncodeHeader, RecordSize, TimesAccepted, RecordsSize, Minimum, HasVariable, BE, TemplateSets,
         EncodeRecords,
         ValidHeader, WriterAccepts, ShapeError, LegalShape;
    ShapeDecided(r.shape);
    var n := BatchLength(v, r, capacity).value;
    FirstErrorIsFirst(r.shape, r.records);
    var size := SetSizeOf(r.shape, RecordsSize(r.shape, r.records), |r.records|).value;
    BatchParts(r, n, size);
    EncodedRecordsLength(r.header, r.shape, r.records);
    TemplateSetsLength(r.shape, r.templates);
    ShapeIDFits(r.shape);
    PaddingIsShort(r.shape.version, Minimum(r.shape.fields), HasVariable(r.shape), RecordsSize(r.shape, r.records), |r.records|);
  }

  lemma {:induction false} TemplateSetsLength(s: WireShape, count: nat)
    requires ValidWireShape(s)
    ensures s.version != V5 ==> |TemplateSets(s, count)| == count * TemplateBytes(s)
    ensures count == 0 ==> TemplateSets(s, count) == []
  {
    hide TemplateSet, ValidWireShape, TemplateBytes;
    if count > 0 && s.version != V5 {
      TemplateSetsLength(s, count - 1);
      TemplateSetIsSet(s);
      OneTemplateLength(s);
      OneMore(count - 1, TemplateBytes(s));
    }
  }

  lemma OneTemplateLength(s: WireShape)
    requires ValidWireShape(s) && s.version != V5
    ensures |TemplateSet(s)| == TemplateBytes(s)
  {
    hide ValidWireShape, BE, TemplateSet;
    TemplateSetIsSet(s);
  }

  /** Write: a refused request leaves the buffer untouched; an accepted one starts it with the message. */
  method Write(v: Version, dst: array<Byte>, r: BatchRequest) returns (result: Result<nat>)
    requires LegalShape(r.shape)
    modifies dst
    ensures result == BatchLength(v, r, dst.Length)
    ensures result.Err? ==> unchanged(dst)
    ensures result.Ok? ==>
      && AllFit(r.shape, r.records) && result.value <= dst.Length
      && dst[..] == BatchMessage(r, result.value) + old(dst[..])[result.value..]
  {
    hide LegalShape, ValidWireShape, BatchMessage, ValidHeader, WriterAccepts, ShapeError, RecordSize, RecordsSize,
         Minimum, HasVariable,
         DataSetSize, TimesAccepted, FirstRecordError;
    var n := CheckRequest(r, dst.Length);
    if n.Err? {
      return n;
    }
    if !WriterAccepts(r.header) {
      return Err(InvalidHeader);
    }
    if r.shape.version != v {
      return Err(InvalidShape);
    }
    if ShapeError(r.shape).Some? {
      return Err(ShapeError(r.shape).value);
    }
    FirstErrorIsFirst(r.shape, r.records);
    AllOkIsSized(r.shape, r.records);
    var timely := CheckAllTimes(r.header, r.shape, r.records);
    if !timely {
      return Err(TimeError(v));
    }
    BatchMessageLength(v, r, dst.Length);
    PutMessage(dst, r, n.value, MessageSize(r));
    return n;
  }

  function MessageSize(r: BatchRequest): SetSize
  {
    match DataSetSize(r.shape.version, Minimum(r.shape.fields), HasVariable(r.shape), RecordsSize(r.shape, r.records),
                      |r.records|)
    case Some(size) => size
    case None => SetSize(0, 0)
  }
}
