/** From bytes on the wire back to typed values: what a collector reads of every field of every record a
    writer accepted. */
module WireValues {
  import opened Base
  import opened Sizes
  import opened StateModel
  import opened Headers
  import opened Wire
  import opened WireDecoder
  import opened WireRoundTrip
  import WR = WireRequests

  lemma {:induction false} ContentsAt(h: Header, fields: seq<FieldSpec>, values: seq<WireValue>, j: nat)
    requires |fields| == |values| && j < |fields|
    ensures |Contents(h, fields, values)| == |fields|
    ensures Contents(h, fields, values)[j] == Content(h, fields[j], values[j])
  {
    hide Content;
    ContentsLength(h, fields, values);
    if j > 0 {
      ContentsAt(h, fields[1..], values[1..], j - 1);
    }
  }

  lemma {:induction false} ContentsLength(h: Header, fields: seq<FieldSpec>, values: seq<WireValue>)
    requires |fields| == |values|
    ensures |Contents(h, fields, values)| == |fields|
  {
    if fields != [] {
      ContentsLength(h, fields[1..], values[1..]);
    }
  }

  lemma {:induction false} AllContentsAt(h: Header, s: WireShape, records: seq<Record>, k: nat)
    requires AllFit(s, records) && k < |records|
    ensures |AllContents(h, s, records)| == |records|
    ensures AllContents(h, s, records)[k] == Contents(h, s.fields, records[k].values)
  {
    hide Contents;
    ContentsCount(h, s, records);
    if k > 0 {
      AllContentsAt(h, s, records[1..], k - 1);
    }
  }

  lemma {:induction false} EveryLength(fields: seq<FieldSpec>, values: seq<WireValue>, j: nat)
    requires |fields| == |values| && j < |fields| && ValuesLength(fields, values).Ok?
    ensures ValueLength(fields[j], values[j]).Ok?
  {
    hide ValueLength;
    if j > 0 {
      EveryLength(fields[1..], values[1..], j - 1);
    }
  }

  /** Every field of a writable record passed the checks the value theorem needs. */
  lemma FieldAccepted(h: Header, s: WireShape, r: Record, j: nat)
    requires ValidWireShape(s) && h.version == s.version && Writable(h, s, r) && j < |s.fields|
    ensures ValidField(h.version, s.fields[j]) && BoundField(h.version, s.fields[j])
    ensures ValueLength(s.fields[j], r.values[j]).Ok? && TimeFits(h, s.fields[j], r.values[j])
  {
    hide ValuesLength, WithinUptime, NtpTimestamp, TimeOf, FirstValueError;
    EveryLength(s.fields, r.values, j);
  }

  /** What a collector makes of one field of one record, and when that is the value given. */
  ghost predicate ReadsBack(h: Header, s: WireShape, records: seq<Record>, read: seq<Fields>, k: nat, j: nat)
    requires AllFit(s, records) && k < |records| && j < |s.fields|
  {
    && |read| == |records| && |read[k]| == |s.fields|
    && (Plain(DecodeContent(h, s.fields[j], read[k][j])) == Plain(records[k].values[j])
        <==> !Lossy(h, s.fields[j], records[k].values[j]))
  }

  lemma ContentsReadBack(h: Header, s: WireShape, records: seq<Record>, k: nat, j: nat)
    requires ValidWireShape(s) && h.version == s.version && AllFit(s, records) && WR.AllWritable(h, s, records)
    requires k < |records| && j < |s.fields|
    ensures ReadsBack(h, s, records, AllContents(h, s, records), k, j)
  {
    hide ValidWireShape, Writable, AllContents, Contents, Content, DecodeContent, Lossy, TimeFits;
    AllContentsAt(h, s, records, k);
    ContentsAt(h, s.fields, records[k].values, j);
    FieldAccepted(h, s, records[k], j);
    ValueRoundTrip(h, s.fields[j], records[k].values[j]);
  }

  /** Typed round trip of a v9 or IPFIX data message: field j of record k reads back as the value written
      exactly when the field can carry it. */
  lemma DataValuesRoundTrip(h: Header, s: WireShape, templates: Templates, records: seq<Record>, size: SetSize,
                            k: nat, j: nat)
    requires ValidWireShape(s) && h.version == s.version && s.version != V5 && Accepted(s, records, size)
    requires HeaderBytes(s.version) + size.length <= MAX_UINT16 && |records| <= MAX_UINT16
    requires GoodHeader(h, SecondWord(s.version, HeaderBytes(s.version) + size.length, |records|))
    requires s.id in templates && templates[s.id] == SpecsOf(s.version, s.fields)
    requires WR.AllWritable(h, s, records) && k < |records| && j < |s.fields|
    ensures AllFit(s, records) && Collect(s.version, templates, DataMessage(h, s, records, size)).Some?
    ensures ReadsBack(h, s, records, Collect(s.version, templates, DataMessage(h, s, records, size)).value.records, k, j)
  {
    hide ValidWireShape, Collect, DataMessage, Accepted, GoodHeader, WR.AllWritable, ReadsBack, SpecsOf;
    DataRoundTrip(h, s, templates, records, size);
    ContentsReadBack(h, s, records, k, j);
  }

  /** The same for v5, which needs no template. */
  lemma V5ValuesRoundTrip(h: Header, s: WireShape, records: seq<Record>, size: SetSize, k: nat, j: nat)
    requires ValidWireShape(s) && h.version == s.version == V5 && Accepted(s, records, size)
    requires |records| <= V5_MAX_RECORDS && GoodHeader(h, |records|)
    requires WR.AllWritable(h, s, records) && k < |records| && j < |s.fields|
    ensures AllFit(s, records) && Collect(V5, map[], DataMessage(h, s, records, size)).Some?
    ensures ReadsBack(h, s, records, Collect(V5, map[], DataMessage(h, s, records, size)).value.records, k, j)
  {
    hide ValidWireShape, Collect, DataMessage, Accepted, GoodHeader, WR.AllWritable, ReadsBack;
    V5RoundTrip(h, s, records, size);
    ContentsReadBack(h, s, records, k, j);
  }

  // ---- a loss the contract lets through -------------------------------------------------

  const NARROW_FIELD := FieldSpec(FlowStart, 22, 4, U32, false, false, 0, 0)
  const NARROW_SHAPE := WireShape(IPFIX, Family4, 256, [NARROW_FIELD])
  const NARROW_HEADER := Header(IPFIX, 0, 0, 0, 0, 0, 0, 0, 0, None)

  function NarrowRecord(): Record { Record(Family4, [TimeV(UINT32_MODULUS + 1)]) }

  lemma NarrowContent()
    ensures DecodeContent(NARROW_HEADER, NARROW_FIELD, Content(NARROW_HEADER, NARROW_FIELD, TimeV(UINT32_MODULUS + 1)))
         == TimeV(1)
  {
    hide BE, Value, Pow256;
    Widths();
    ValueOfBE(UINT32_MODULUS + 1, 4);
  }

  lemma NarrowSizes()
    ensures Minimum(NARROW_SHAPE.fields) == 4 && !HasVariable(NARROW_SHAPE)
    ensures SpecifiersBytes(IPFIX, NARROW_SHAPE.fields) == 4
    ensures RecordSize(NARROW_SHAPE, NarrowRecord()) == Ok(4)
  {
    var fields, values := NARROW_SHAPE.fields, NarrowRecord().values;
    assert fields[0] == NARROW_FIELD && fields[1..] == [] && values[1..] == [];
    assert ValueLength(NARROW_FIELD, values[0]) == Ok(4);
    assert ValuesLength(fields[1..], values[1..]) == Ok(0);
    assert FirstValueError(values[1..], Family4) == None;
  }

  /** A whole input a writer accepts and the wire alters: an IPFIX shape that carries the flow start in
      four bytes, and a record whose flow start does not fit them. */
  lemma NarrowTimeIsAltered()
    ensures ValidHeader(NARROW_HEADER) && WriterAccepts(NARROW_HEADER)
    ensures ValidWireShape(NARROW_SHAPE) && Writable(NARROW_HEADER, NARROW_SHAPE, NarrowRecord())
    ensures var r := WR.StreamRequest(NARROW_HEADER, NARROW_SHAPE, 0, 0);
      && WR.BeginError(IPFIX, r, 64) == None && WR.AppendError(r, [], 64, NarrowRecord()) == None
      && WR.FinishError(r, [NarrowRecord()], 64) == None
    ensures DecodeContent(NARROW_HEADER, NARROW_FIELD, Contents(NARROW_HEADER, NARROW_SHAPE.fields, NarrowRecord().values)[0])
         == TimeV(1)
    ensures Lossy(NARROW_HEADER, NARROW_FIELD, NarrowRecord().values[0])
  {
    NarrowContent();
    NarrowSizes();
    Widths();
    hide BE, Value, DecodeContent, Content, RecordSize, Minimum, HasVariable, SpecifiersBytes;
    assert RecordsSize(NARROW_SHAPE, [NarrowRecord()]) == RecordsSize(NARROW_SHAPE, []) + 4;
  }
}
