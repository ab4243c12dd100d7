/** Whole messages read back: templates, data sets, headers, and every typed value the wire can carry. */
module WireRoundTrip {
  import opened Base
  import opened Sizes
  import opened StateModel
  import opened Headers
  import opened Wire
  import opened WireDecoder

  // ---- templates ------------------------------------------------------------------------

  lemma {:induction false} SpecifiersFromFront(v: Version, fields: seq<FieldSpec>)
    requires fields != []
    ensures Specifiers(v, fields) == SpecifierOf(v, fields[0]) + Specifiers(v, fields[1..])
  {
    hide SpecifierOf;
    var last := |fields| - 1;
    if last > 0 {
      SpecifiersFromFront(v, fields[..last]);
      assert fields[..last][1..] == fields[1..][..last - 1];
    }
  }

  lemma {:induction false} SpecifiersLength(v: Version, fields: seq<FieldSpec>)
    ensures |Specifiers(v, fields)| == SpecifiersBytes(v, fields)
  {
    hide BE;
    if fields != [] {
      SpecifiersFromFront(v, fields);
      SpecifiersLength(v, fields[1..]);
    }
  }

  /** One specifier: the enterprise bit says whether a PEN follows. */
  lemma SpecifierFields(v: Version, f: FieldSpec, rest: seq<Byte>)
    requires ValidField(v, f)
    ensures var bytes, enterprise := SpecifierOf(v, f) + rest, v == IPFIX && f.custom;
      && At(bytes, 0, 2) == (if enterprise then f.id + 0x8000 else f.id) && At(bytes, 2, 2) == f.length
      && (v == IPFIX ==> f.id < 0x8000)
      && (enterprise ==> At(bytes, 4, 4) == f.pen && bytes[8..] == rest)
      && (!enterprise ==> bytes[4..] == rest)
  {
    hide BE, Pow256, At;
    var bytes, enterprise := SpecifierOf(v, f) + rest, v == IPFIX && f.custom;
    Widths();
    assert bytes[0..2] == BE(if enterprise then f.id + 0x8000 else f.id, 2);
    assert bytes[2..4] == BE(f.length, 2);
    AtField(bytes, 0, if enterprise then f.id + 0x8000 else f.id, 2);
    AtField(bytes, 2, f.length, 2);
    if enterprise {
      assert bytes[4..8] == BE(f.pen, 4);
      AtField(bytes, 4, f.pen, 4);
    }
  }

  lemma SpecStep(v: Version, f: FieldSpec, count: nat, tail: seq<Byte>)
    requires ValidField(v, f)
    ensures SplitSpecs(v, count + 1, SpecifierOf(v, f) + tail) ==
      match SplitSpecs(v, count, tail)
      case None => None
      case Some((specs, rest)) => Some(([SpecOf(v, f)] + specs, rest))
  {
    hide ValidField, At, SpecifierOf;
    SpecifierFields(v, f, tail);
    SpecifierLength(v, f);
  }

  lemma {:induction false} SpecsRoundTrip(v: Version, fields: seq<FieldSpec>, rest: seq<Byte>)
    requires forall k :: 0 <= k < |fields| ==> ValidField(v, fields[k])
    ensures SplitSpecs(v, |fields|, Specifiers(v, fields) + rest) == Some((SpecsOf(v, fields), rest))
  {
    hide ValidField, SpecifierOf, SplitSpecs, Specifiers, SpecOf;
    if fields == [] {
      NoSpecifiers(v, rest);
    } else {
      var tail := Specifiers(v, fields[1..]) + rest;
      SpecifiersFromFront(v, fields);
      SpecStep(v, fields[0], |fields| - 1, tail);
      SpecsRoundTrip(v, fields[1..], rest);
      assert Specifiers(v, fields) + rest == SpecifierOf(v, fields[0]) + tail;
    }
  }

  lemma NoSpecifiers(v: Version, rest: seq<Byte>)
    ensures SplitSpecs(v, 0, Specifiers(v, []) + rest) == Some(([], rest))
  {
    assert Specifiers(v, []) + rest == rest;
  }

  lemma SpecifierLength(v: Version, f: FieldSpec)
    ensures |SpecifierOf(v, f)| == SpecifierBytes(v, f)
  {}

  // ---- sets -----------------------------------------------------------------------------

  /** A set on the wire: identifier, own length, content. */
  function SetBytes(id: nat, content: seq<Byte>): seq<Byte>
  {
    BE(id, 2) + BE(4 + |content|, 2) + content
  }

  lemma OneSet(id: nat, content: seq<Byte>)
    requires id <= MAX_UINT16 && 4 + |content| <= MAX_UINT16
    ensures SplitSets(SetBytes(id, content)) == Some([(id, content)])
  {
    hide BE, Pow256, At;
    var bytes := SetBytes(id, content);
    Widths();
    assert bytes[0..2] == BE(id, 2) && bytes[2..4] == BE(4 + |content|, 2);
    AtField(bytes, 0, id, 2);
    AtField(bytes, 2, 4 + |content|, 2);
    assert bytes[4..4 + |content|] == content;
    assert bytes[4 + |content|..] == [];
    assert SplitSets(bytes[4 + |content|..]) == Some([]);
    assert [(id, content)] + [] == [(id, content)];
  }

  lemma OneCollectedSet(v: Version, templates: Templates, id: nat, content: seq<Byte>)
    ensures CollectSets(v, templates, [(id, content)]) == CollectSet(v, templates, id, content)
  {
    hide CollectSet;
    if CollectSet(v, templates, id, content).Some? {
      var (known, records) := CollectSet(v, templates, id, content).value;
      assert CollectSets(v, known, []) == Some((known, []));
      assert records + [] == records;
    }
  }

  lemma OneTemplateSet(v: Version, id: nat, content: seq<Byte>)
    ensures TemplateSetCount(v, [(id, content)]) == if HoldsTemplates(v, id) then 1 else 0
  {
    assert TemplateSetCount(v, [(id, content)][1..]) == 0;
  }

  // ---- messages -------------------------------------------------------------------------

  ghost predicate GoodHeader(h: Header, second: nat)
  {
    ValidHeader(h) && WriterAccepts(h) && HeaderInRange(h, second)
  }

  function TemplateContent(s: WireShape): seq<Byte>
  {
    BE(s.id, 2) + BE(|s.fields|, 2) + Specifiers(s.version, s.fields)
  }

  lemma TemplateSetIsSet(s: WireShape)
    requires ValidWireShape(s) && s.version != V5
    ensures TemplateSet(s) == SetBytes(TemplateSetID(s.version), TemplateContent(s))
    ensures 4 + |TemplateContent(s)| == TemplateBytes(s)
  {
    hide BE, ValidField, BoundField;
    SpecifiersLength(s.version, s.fields);
  }

  lemma TemplateCollected(s: WireShape, templates: Templates)
    requires ValidWireShape(s) && s.version != V5
    ensures HoldsTemplates(s.version, TemplateSetID(s.version))
    ensures CollectSet(s.version, templates, TemplateSetID(s.version), TemplateContent(s))
         == Some((templates[s.id := SpecsOf(s.version, s.fields)], []))
  {
    hide BE, Pow256, At, ValidField, BoundField, Specifiers, SpecsOf;
    var content := TemplateContent(s);
    Widths();
    assert content[0..2] == BE(s.id, 2) && content[2..4] == BE(|s.fields|, 2);
    AtField(content, 0, s.id, 2);
    AtField(content, 2, |s.fields|, 2);
    SpecsRoundTrip(s.version, s.fields, []);
    assert content[4..] == Specifiers(s.version, s.fields) + [];
  }

  /** A collector reads a template message as exactly the shape it announces; the set is the one its
      protocol keeps for templates. */
  lemma TemplateRoundTrip(h: Header, s: WireShape, templates: Templates)
    requires ValidWireShape(s) && s.version != V5 && h.version == s.version
    requires GoodHeader(h, SecondWord(s.version, HeaderBytes(s.version) + TemplateBytes(s), 1))
    ensures Collect(s.version, templates, TemplateMessage(h, s)).Some?
    ensures var read := Collect(s.version, templates, TemplateMessage(h, s)).value;
      && read.templates == templates[s.id := SpecsOf(s.version, s.fields)] && read.records == []
      && read.heading.sequence == h.sequence
    ensures |TemplateMessage(h, s)| >= HeadingBytes(s.version) + 2
    ensures At(TemplateMessage(h, s), HeadingBytes(s.version), 2) == if s.version == IPFIX then 2 else 0
  {
    hide BE, Pow256, ValidWireShape, DecodeHeader, EncodeHeader, SplitSets, CollectSet, CollectSets, Specifiers,
         SpecsOf, TemplateSetCount, At;
    var second := SecondWord(s.version, HeaderBytes(s.version) + TemplateBytes(s), 1);
    HeaderRoundTrip(h, second, TemplateSet(s));
    TemplateSetIsSet(s);
    ShapeIDFits(s);
    OneSet(TemplateSetID(s.version), TemplateContent(s));
    OneCollectedSet(s.version, templates, TemplateSetID(s.version), TemplateContent(s));
    TemplateCollected(s, templates);
    var message := TemplateMessage(h, s);
    var at := HeaderBytes(s.version);
    assert message[at..] == TemplateSet(s);
    OneTemplateSet(s.version, TemplateSetID(s.version), TemplateContent(s));
    assert message[at..at + 2] == TemplateSet(s)[..2] == BE(TemplateSetID(s.version), 2);
    Widths();
    AtField(message, at, TemplateSetID(s.version), 2);
  }

  lemma ShapeIDFits(s: WireShape)
    requires ValidWireShape(s)
    ensures s.id <= MAX_UINT16 && TemplateBytes(s) <= MAX_TEMPLATE_BYTES && 0 < Minimum(s.fields)
    ensures s.version != V5 ==> s.id >= 256
    ensures s.version == V5 ==> s.fields == V5_FIELDS
  {}

  lemma {:induction false} EncodedRecordsLength(h: Header, s: WireShape, records: seq<Record>)
    requires h.version == s.version && ValidWireShape(s) && AllSized(s, records)
    ensures |EncodeRecords(h, s, records)| == RecordsSize(s, records)
  {
    hide ValidWireShape, EncodeRecord, RecordSize;
    if records != [] {
      RecordBytes(h, s, records[|records| - 1]);
      EncodedRecordsLength(h, s, records[..|records| - 1]);
    }
  }

  lemma {:induction false} ContentsCount(h: Header, s: WireShape, records: seq<Record>)
    requires AllFit(s, records)
    ensures |AllContents(h, s, records)| == |records|
  {
    if records != [] {
      ContentsCount(h, s, records[1..]);
    }
  }

  /** Alignment padding is always shorter than the smallest record, so it is never read as one; a set ends
      unaligned only where the padding would not be. */
  lemma PaddingIsShort(v: Version, minimum: nat, variable: bool, bytes: nat, count: nat)
    requires minimum > 0 && DataSetSize(v, minimum, variable, bytes, count).Some?
    ensures var size := DataSetSize(v, minimum, variable, bytes, count).value;
      && size.padding < minimum && size.padding < 4
      && (count > 0 ==> size.length == (if v == V5 then 0 else SET_HEADER_BYTES) + bytes + size.padding)
      && (size.padding > 0 ==> size.length % 4 == 0) && (v == V5 ==> size.padding == 0)
      && (v != V5 && count > 0 && size.length % 4 != 0 ==> 4 - size.length % 4 >= minimum)
      && size.length <= MAX_SET_BYTES
  {}

  /** The data part of a message whose size was accepted. */
  ghost predicate Accepted(s: WireShape, records: seq<Record>, size: SetSize)
  {
    && records != [] && AllSized(s, records)
    && SetSizeOf(s, RecordsSize(s, records), |records|) == Some(size)
  }

  lemma DataSetIsSet(h: Header, s: WireShape, records: seq<Record>, size: SetSize)
    requires ValidWireShape(s) && h.version == s.version && s.version != V5 && Accepted(s, records, size)
    ensures AllFit(s, records)
    ensures DataSet(h, s, records, size) == SetBytes(s.id, EncodeRecords(h, s, records) + Zeros(size.padding))
    ensures 4 + |EncodeRecords(h, s, records) + Zeros(size.padding)| == size.length <= MAX_UINT16
  {
    hide BE, ValidWireShape, RecordSize, EncodeRecords, RecordsSize, DataSetSize, HasVariable;
    ShapeIDFits(s);
    EncodedRecordsLength(h, s, records);
    PaddingIsShort(s.version, Minimum(s.fields), HasVariable(s), RecordsSize(s, records), |records|);
    var content := EncodeRecords(h, s, records) + Zeros(size.padding);
    assert BE(s.id, 2) + BE(size.length, 2) + EncodeRecords(h, s, records) + Zeros(size.padding)
        == BE(s.id, 2) + BE(size.length, 2) + content;
  }

  lemma DataCollected(h: Header, s: WireShape, templates: Templates, records: seq<Record>, size: SetSize)
    requires ValidWireShape(s) && h.version == s.version && s.version != V5 && Accepted(s, records, size)
    requires s.id in templates && templates[s.id] == SpecsOf(s.version, s.fields)
    ensures AllFit(s, records)
    ensures CollectSet(s.version, templates, s.id, EncodeRecords(h, s, records) + Zeros(size.padding))
         == Some((templates, AllContents(h, s, records)))
  {
    hide ValidWireShape, RecordSize, EncodeRecords, AllContents, SplitRecords, RecordsSize, DataSetSize, HasVariable,
         SpecsOf,
         MinimumOf, Minimum;
    ShapeIDFits(s);
    PaddingIsShort(s.version, Minimum(s.fields), HasVariable(s), RecordsSize(s, records), |records|);
    RecordsRoundTrip(h, s, records, size.padding);
  }

  /** A collector that knows the template reads a v9 or IPFIX data message as exactly its records. */
  lemma {:induction false} DataRoundTrip(h: Header, s: WireShape, templates: Templates, records: seq<Record>,
                                         size: SetSize)
    requires ValidWireShape(s) && h.version == s.version && s.version != V5 && Accepted(s, records, size)
    requires HeaderBytes(s.version) + size.length <= MAX_UINT16 && |records| <= MAX_UINT16
    requires GoodHeader(h, SecondWord(s.version, HeaderBytes(s.version) + size.length, |records|))
    requires s.id in templates && templates[s.id] == SpecsOf(s.version, s.fields)
    ensures AllFit(s, records) && Collect(s.version, templates, DataMessage(h, s, records, size)).Some?
    ensures var read := Collect(s.version, templates, DataMessage(h, s, records, size)).value;
      read.templates == templates && read.records == AllContents(h, s, records) && read.heading.sequence == h.sequence
    ensures var message := DataMessage(h, s, records, size);
      && size.padding <= |message| && forall k :: |message| - size.padding <= k < |message| ==> message[k] == 0
  {
    hide BE, Pow256, ValidWireShape, DecodeHeader, EncodeHeader, SplitSets, CollectSet, CollectSets, SpecsOf, DataSet,
         EncodeRecords, AllContents, RecordSize, RecordsSize, DataSetSize, TemplateSetCount;
    var second := SecondWord(s.version, HeaderBytes(s.version) + size.length, |records|);
    DataSetIsSet(h, s, records, size);
    var content := EncodeRecords(h, s, records) + Zeros(size.padding);
    HeaderRoundTrip(h, second, DataSet(h, s, records, size));
    ShapeIDFits(s);
    OneSet(s.id, content);
    OneCollectedSet(s.version, templates, s.id, content);
    DataCollected(h, s, templates, records, size);
    OneTemplateSet(s.version, s.id, content);
    ContentsCount(h, s, records);
    var message := DataMessage(h, s, records, size);
    assert message[HeaderBytes(s.version)..] == DataSet(h, s, records, size);
  }

  /** Decoding undoes encoding: the template message teaches a collector everything it needs to read
      the data messages of that shape, whatever it knew before. */
  lemma TemplateThenData(h0: Header, h: Header, s: WireShape, templates: Templates, records: seq<Record>, size: SetSize)
    requires ValidWireShape(s) && h.version == h0.version == s.version && s.version != V5 && Accepted(s, records, size)
    requires HeaderBytes(s.version) + size.length <= MAX_UINT16 && |records| <= MAX_UINT16
    requires GoodHeader(h0, SecondWord(s.version, HeaderBytes(s.version) + TemplateBytes(s), 1))
    requires GoodHeader(h, SecondWord(s.version, HeaderBytes(s.version) + size.length, |records|))
    ensures AllFit(s, records)
    ensures Collect(s.version, templates, TemplateMessage(h0, s)).Some?
    ensures var learnt := Collect(s.version, templates, TemplateMessage(h0, s)).value.templates;
      var read := Collect(s.version, learnt, DataMessage(h, s, records, size));
      read.Some? && read.value.records == AllContents(h, s, records) && read.value.templates == learnt
  {
    hide ValidWireShape, GoodHeader, Accepted, Collect, TemplateMessage, DataMessage, AllContents, SpecsOf;
    TemplateRoundTrip(h0, s, templates);
    DataRoundTrip(h, s, templates[s.id := SpecsOf(s.version, s.fields)], records, size);
  }

  /** Bytes of the v5 fields from the i-th on. */
  function V5Bytes(i: nat): nat
    decreases |V5_FIELDS| - i
  {
    if i >= |V5_FIELDS| then 0 else V5_FIELDS[i].length + V5Bytes(i + 1)
  }

  lemma {:induction false} V5BytesAreMinimum(i: nat)
    requires i <= |V5_FIELDS|
    ensures Minimum(V5_FIELDS[i..]) == V5Bytes(i)
    decreases |V5_FIELDS| - i
  {
    if i < |V5_FIELDS| {
      assert !V5_FIELDS[i].variable;
      V5BytesAreMinimum(i + 1);
      assert V5_FIELDS[i..][1..] == V5_FIELDS[i + 1..];
    }
  }

  lemma V5BytesTotal()
    ensures V5Bytes(0) == 48
  {
    assert V5Bytes(18) == 3 && V5Bytes(16) == 6;
    assert V5Bytes(14) == 9 && V5Bytes(12) == 11;
    assert V5Bytes(10) == 14 && V5Bytes(8) == 20;
    assert V5Bytes(6) == 28 && V5Bytes(4) == 34;
    assert V5Bytes(2) == 40;
  }

  lemma V5FieldIsValid(k: nat)
    requires k < |V5_FIELDS|
    ensures ValidField(V5, V5_FIELDS[k]) && BoundField(V5, V5_FIELDS[k])
    ensures V5_FIELDS[k].role == if k == 7 then FlowStart else if k == 8 then FlowEnd
                                 else if k == 11 || k == 19 then Constant else Ordinary
  {}

  /** The fixed v5 profile is a valid shape of 48-byte records; First and Last, the eighth and ninth fields, are its
      only times and the two pads its only constants. */
  lemma V5ShapeIsValid()
    ensures ValidWireShape(WireShape(V5, Family4, 1, V5_FIELDS)) && Minimum(V5_FIELDS) == 48
    ensures forall k :: 0 <= k < |V5_FIELDS| ==>
      V5_FIELDS[k].role == if k == 7 then FlowStart else if k == 8 then FlowEnd
                           else if k == 11 || k == 19 then Constant else Ordinary
  {
    hide ValidField, BoundField, Minimum, V5Bytes;
    V5BytesTotal();
    V5BytesAreMinimum(0);
    assert V5_FIELDS[0..] == V5_FIELDS;
    forall k | 0 <= k < |V5_FIELDS|
      ensures ValidField(V5, V5_FIELDS[k]) && BoundField(V5, V5_FIELDS[k])
      ensures V5_FIELDS[k].role == if k == 7 then FlowStart else if k == 8 then FlowEnd
                                   else if k == 11 || k == 19 then Constant else Ordinary
    {
      V5FieldIsValid(k);
    }
  }

  lemma {:induction false} SpecsAt(v: Version, fields: seq<FieldSpec>)
    ensures |SpecsOf(v, fields)| == |fields|
    ensures forall k :: 0 <= k < |fields| ==> SpecsOf(v, fields)[k] == SpecOf(v, fields[k])
  {
    hide SpecOf;
    if fields != [] {
      SpecsAt(v, fields[1..]);
      forall k | 0 < k < |fields|
        ensures SpecsOf(v, fields)[k] == SpecOf(v, fields[k])
      {
        assert fields[k] == fields[1..][k - 1];
      }
    }
  }

  lemma V5SpecIsField(k: nat)
    ensures |V5_SPECS| == |V5_FIELDS|
    ensures k < |V5_FIELDS| ==> V5_SPECS[k] == SpecOf(V5, V5_FIELDS[k])
  {}

  /** The record a v5 collector expects is the one the writer's fixed field table lays out. */
  lemma {:induction false} V5SpecsAreFields()
    ensures V5_SPECS == SpecsOf(V5, V5_FIELDS)
  {
    hide V5_SPECS, V5_FIELDS, SpecsOf, SpecOf;
    SpecsAt(V5, V5_FIELDS);
    V5SpecIsField(0);
    forall k | 0 <= k < |V5_FIELDS|
      ensures V5_SPECS[k] == SpecsOf(V5, V5_FIELDS)[k]
    {
      V5SpecIsField(k);
    }
  }

  /** NetFlow v5 needs no template: its 48-byte records read back as they were written. */
  lemma {:induction false} V5RoundTrip(h: Header, s: WireShape, records: seq<Record>, size: SetSize)
    requires ValidWireShape(s) && h.version == s.version == V5 && Accepted(s, records, size)
    requires |records| <= V5_MAX_RECORDS && GoodHeader(h, |records|)
    ensures AllFit(s, records) && Collect(V5, map[], DataMessage(h, s, records, size)).Some?
    ensures var read := Collect(V5, map[], DataMessage(h, s, records, size)).value;
      read.records == AllContents(h, s, records) && read.heading.sequence == h.sequence
  {
    hide BE, Pow256, ValidWireShape, DecodeHeader, EncodeHeader, SpecsOf, EncodeRecords, AllContents, RecordSize,
         RecordsSize,
         DataSetSize, SplitRecords, Minimum, MinimumOf;
    ShapeIDFits(s);
    V5SpecsAreFields();
    HeaderRoundTrip(h, |records|, EncodeRecords(h, s, records));
    RecordsRoundTrip(h, s, records, 0);
    ContentsCount(h, s, records);
    var message := DataMessage(h, s, records, size);
    assert message[HeaderBytes(V5)..] == EncodeRecords(h, s, records) + Zeros(0);
  }

  // ---- times ----------------------------------------------------------------------------

  /** Nearest-nanosecond reading of an NTP stamp. */
  function NtpDecode(stamp: nat): int
  {
    (stamp - NTP_UNIX_SECONDS * UINT32_MODULUS) / UINT32_MODULUS * NANOS_PER_SECOND
    + (stamp % UINT32_MODULUS * NANOS_PER_SECOND + UINT32_MODULUS / 2) / UINT32_MODULUS
  }

  function NtpFractionOf(nanos: nat): nat { (nanos * UINT32_MODULUS + 500_000_000) / NANOS_PER_SECOND }

  /** The rounded fraction of a whole number of nanoseconds never reaches a second: no carry. */
  lemma NtpFraction(nanos: nat)
    requires nanos < NANOS_PER_SECOND
    ensures NtpFractionOf(nanos) < UINT32_MODULUS && nanos * UINT32_MODULUS + 500_000_000 <= MAX_UINT64
    ensures (NtpFractionOf(nanos) * NANOS_PER_SECOND + UINT32_MODULUS / 2) / UINT32_MODULUS == nanos
  {}

  lemma JoinAndSplit(high: nat, low: nat)
    requires low < UINT32_MODULUS
    ensures (high * UINT32_MODULUS + low) / UINT32_MODULUS == high
    ensures (high * UINT32_MODULUS + low) % UINT32_MODULUS == low
  {}

  function NtpSeconds(nanos: nat): nat { nanos / NANOS_PER_SECOND + NTP_EPOCH_OFFSET }

  lemma NtpParts(nanos: nat)
    requires nanos <= MAX_NANOS_IPFIX
    ensures NtpSeconds(nanos) <= MAX_UINT32 && NtpFractionOf(nanos % NANOS_PER_SECOND) < UINT32_MODULUS
    ensures NtpTimestamp(nanos) == Some(NtpSeconds(nanos) * UINT32_MODULUS + NtpFractionOf(nanos % NANOS_PER_SECOND))
  {
    NtpFraction(nanos % NANOS_PER_SECOND);
  }

  /** ntpTimestamp is total on its range, never carries, fits 64 bits without overflow, and the nearest
      nanosecond is the one encoded. */
  lemma NtpExact(nanos: nat)
    ensures NtpTimestamp(nanos).Some? <==> nanos <= MAX_NANOS_IPFIX
    ensures nanos <= MAX_NANOS_IPFIX ==>
      && NtpTimestamp(nanos).value <= MAX_UINT64 && NtpDecode(NtpTimestamp(nanos).value) == nanos
      && NtpTimestamp(nanos).value / UINT32_MODULUS == nanos / NANOS_PER_SECOND + NTP_UNIX_SECONDS
  {
    if nanos <= MAX_NANOS_IPFIX {
      var remainder := nanos % NANOS_PER_SECOND;
      NtpFraction(remainder);
      NtpParts(nanos);
      hide NtpTimestamp, NtpCompose, NtpFractionOf;
      JoinAndSplit(NtpSeconds(nanos), NtpFractionOf(remainder));
      JoinAndSplit(nanos / NANOS_PER_SECOND, NtpFractionOf(remainder));
    }
  }

  /** Later instants have later stamps. */
  lemma NtpIncreases(a: nat, b: nat)
    requires a < b <= MAX_NANOS_IPFIX
    ensures NtpTimestamp(a).Some? && NtpTimestamp(b).Some? && NtpTimestamp(a).value < NtpTimestamp(b).value
  {
    NtpParts(a);
    NtpParts(b);
    hide NtpTimestamp, NtpCompose, NtpFractionOf;
    if a / NANOS_PER_SECOND == b / NANOS_PER_SECOND {
      NtpFraction(a % NANOS_PER_SECOND);
      NtpFraction(b % NANOS_PER_SECOND);
    }
  }

  // ---- typed values ---------------------------------------------------------------------

  /** The signed number in `bytes`. */
  function SignedValue(bytes: seq<Byte>): int
  {
    var n := Value(bytes);
    if 2 * n < Pow256(|bytes|) then n else n - Pow256(|bytes|)
  }

  /** A collector's reading of one field content, knowing the field's abstract data type and, for v5
      and v9, the uptime origin the message header implies. */
  function DecodeContent(h: Header, f: FieldSpec, content: seq<Byte>): RawValue
  {
    if h.version != IPFIX && (f.role == FlowStart || f.role == FlowEnd) then
      TimeV(Value(content) * NANOS_PER_MS + match h.origin case Some(origin) => origin case None => 0)
    else
      match f.encoding
      case U8 => if Absolute(f.role) then TimeV(Value(content)) else UintV(Value(content))
      case U16 => if Absolute(f.role) then TimeV(Value(content)) else UintV(Value(content))
      case U32 => if Absolute(f.role) then TimeV(Value(content)) else UintV(Value(content))
      case U64 => if Absolute(f.role) then TimeV(Value(content)) else UintV(Value(content))
      case I8 => IntV(SignedValue(content))
      case I16 => IntV(SignedValue(content))
      case I32 => IntV(SignedValue(content))
      case I64 => IntV(SignedValue(content))
      case IPv4Address => AddressV(false, content)
      case IPv6Address => AddressV(true, content)
      case MacAddress => MacV(content)
      case Text => TextV(content)
      case OctetArray => OctetsV(content)
      case NtpTime => var nanos := NtpDecode(Value(content)); if nanos >= 0 then TimeV(nanos) else TimeV(0)
      case MilliTime => TimeV(Value(content) * NANOS_PER_MS)
  }

  /** The same number whether it was given as signed or unsigned. */
  function Plain(v: RawValue): RawValue { if v.IntV? && v.i >= 0 then UintV(v.i) else v }

  function UnsignedWidth(e: Encoding): Option<nat>
  {
    match e
    case U8 => Some(1)
    case U16 => Some(2)
    case U32 => Some(4)
    case U64 => Some(8)
    case _ => None
  }

  /** What the wire cannot carry: sub-millisecond times in a millisecond field, and an absolute time in
      an IPFIX unsigned field too narrow for it. */
  predicate Lossy(h: Header, f: FieldSpec, v: WireValue)
  {
    h.version == IPFIX && v.TimeV?
    && ((f.encoding == MilliTime && v.nanos % NANOS_PER_MS != 0)
        || (UnsignedWidth(f.encoding).Some? && v.nanos >= Pow256(UnsignedWidth(f.encoding).value)))
  }

  lemma UnsignedBack(n: nat, width: nat)
    ensures Value(BE(n, width)) == n <==> n < Pow256(width)
  {
    hide BE, Value, Pow256;
    ValueOfBE(n, width);
    if n < Pow256(width) {
      SmallModulo(n, Pow256(width));
    }
  }

  /** Two's complement in one number: a negative value wraps once. */
  lemma WrapsOnce(i: int, p: nat)
    requires p > 0 && 0 <= i + p && i < p
    ensures i % p == if i >= 0 then i else i + p
  {
    UniqueRemainder(i, p, if i >= 0 then 0 else -1, if i >= 0 then i else i + p);
  }

  lemma EvenPower(width: nat)
    requires width > 0
    ensures Pow256(width) == Pow256(width) / 2 * 2
  {
    assert Pow256(width) == 2 * (128 * Pow256(width - 1));
  }

  lemma SignedBack(i: int, width: nat)
    requires 0 < width && -(Pow256(width) / 2) <= i < Pow256(width) / 2
    ensures SignedValue(BE(TwosComplement(i, width), width)) == i
  {
    hide BE, Value, Pow256;
    EvenPower(width);
    WrapsOnce(i, Pow256(width));
    UnsignedBack(TwosComplement(i, width), width);
  }

  lemma UptimeBack(h: Header, f: FieldSpec, v: WireValue)
    requires h.version != IPFIX && (f.role == FlowStart || f.role == FlowEnd) && v.TimeV? && WithinUptime(h, v.nanos)
    ensures DecodeContent(h, f, Content(h, f, v)) == v
  {
    hide BE, Value, Pow256;
    var elapsed := ElapsedMilliseconds(v.nanos, h.origin.value).value;
    Widths();
    UnsignedBack(elapsed, 4);
  }

  lemma UnsignedValueBack(h: Header, f: FieldSpec, v: WireValue)
    requires UnsignedWidth(f.encoding).Some? && ValidField(h.version, f) && BoundField(h.version, f)
    requires ValueLength(f, v).Ok?
    requires h.version == IPFIX || !Absolute(f.role)
    ensures Plain(DecodeContent(h, f, Content(h, f, v))) == Plain(v) <==> !Lossy(h, f, v)
  {
    hide BE, Value, Pow256;
    Widths();
    UnsignedBack(ValueUint(v), UnsignedWidth(f.encoding).value);
  }

  lemma SignedValueBack(h: Header, f: FieldSpec, v: WireValue)
    requires f.encoding in {I8, I16, I32, I64} && ValidField(h.version, f) && BoundField(h.version, f)
    requires ValueLength(f, v).Ok?
    ensures DecodeContent(h, f, Content(h, f, v)) == v
  {
    hide BE, Value, Pow256, SignedValue, TwosComplement;
    match f.encoding
    case I8 => SignedBack(v.i, 1);
    case I16 => SignedBack(v.i, 2);
    case I32 => SignedBack(v.i, 4);
    case I64 => SignedBack(v.i, 8);
  }

  lemma TimeValueBack(h: Header, f: FieldSpec, v: WireValue)
    requires f.encoding in {NtpTime, MilliTime} && ValidField(h.version, f) && ValueLength(f, v).Ok?
    requires f.encoding == NtpTime ==> v.TimeV? && NtpTimestamp(v.nanos).Some?
    ensures Plain(DecodeContent(h, f, Content(h, f, v))) == Plain(v) <==> !Lossy(h, f, v)
  {
    hide BE, Value, Pow256, NtpTimestamp, NtpDecode;
    Widths();
    if f.encoding == NtpTime {
      NtpExact(v.nanos);
      UnsignedBack(NtpTimestamp(v.nanos).value, 8);
    } else {
      UnsignedBack(v.nanos / NANOS_PER_MS, 8);
    }
  }

  /** The time checks each writer makes on one field. */
  predicate TimeFits(h: Header, f: FieldSpec, v: WireValue)
  {
    && (f.encoding == NtpTime ==> v.TimeV? && NtpTimestamp(v.nanos).Some?)
    && (h.version != IPFIX && (f.role == FlowStart || f.role == FlowEnd) ==> v.TimeV? && WithinUptime(h, v.nanos))
  }

  /** An accepted value reads back as itself unless the field cannot carry it, and the condition is
      exact: sub-millisecond times in dateTimeMilliseconds, and absolute times in an IPFIX unsigned
      field too narrow for them, are accepted and silently altered. */
  lemma ValueRoundTrip(h: Header, f: FieldSpec, v: WireValue)
    requires ValidField(h.version, f) && BoundField(h.version, f) && ValueLength(f, v).Ok? && TimeFits(h, f, v)
    ensures Plain(DecodeContent(h, f, Content(h, f, v))) == Plain(v) <==> !Lossy(h, f, v)
  {
    if h.version != IPFIX && (f.role == FlowStart || f.role == FlowEnd) {
      UptimeBack(h, f, v);
    } else if UnsignedWidth(f.encoding).Some? {
      UnsignedValueBack(h, f, v);
    } else if f.encoding in {I8, I16, I32, I64} {
      SignedValueBack(h, f, v);
    } else if f.encoding in {NtpTime, MilliTime} {
      TimeValueBack(h, f, v);
    } else {
      OctetsBack(h, f, v);
    }
  }

  lemma OctetsBack(h: Header, f: FieldSpec, v: WireValue)
    requires f.encoding in {IPv4Address, IPv6Address, MacAddress, Text, OctetArray}
    requires ValidField(h.version, f) && BoundField(h.version, f) && ValueLength(f, v).Ok?
    requires h.version == IPFIX || (f.role != FlowStart && f.role != FlowEnd)
    ensures DecodeContent(h, f, Content(h, f, v)) == v
    ensures !Lossy(h, f, v)
  {
    hide BE, Pow256;
  }

  // ---- every content is somebody's ------------------------------------------------------

  lemma {:induction false} BytesBack(bytes: seq<Byte>)
    ensures BE(Value(bytes), |bytes|) == bytes && Value(bytes) < Pow256(|bytes|)
  {
    if bytes != [] {
      var init, last := bytes[..|bytes| - 1], bytes[|bytes| - 1];
      BytesBack(init);
      UniqueRemainder(Value(bytes), 256, Value(init), last);
      assert Value(bytes) / 256 == Value(init) && Value(bytes) % 256 == last;
      assert init + [last] == bytes;
    }
  }

  /** A field a collector reads without the header: no uptime, no pad, no NTP stamp (which is rounded). */
  predicate PlainField(h: Header, f: FieldSpec)
  {
    && f.role != Constant && f.encoding != NtpTime
    && (h.version != IPFIX ==> f.role != FlowStart && f.role != FlowEnd)
    && (Absolute(f.role) ==> UnsignedWidth(f.encoding).Some? || f.encoding == MilliTime)
  }

  /** As many bytes as the field can have. */
  predicate ContentFits(f: FieldSpec, content: seq<Byte>)
  {
    if f.variable then |content| <= f.maxLength && |content| + 3 <= MAX_UINT16 else |content| == f.length
  }

  lemma UnsignedReached(h: Header, f: FieldSpec, content: seq<Byte>)
    requires ValidField(h.version, f) && PlainField(h, f) && UnsignedWidth(f.encoding).Some? && ContentFits(f, content)
    ensures var v := DecodeContent(h, f, content);
      (v.TimeV? ==> v.nanos <= MAX_INT64) ==> WellTyped(v) && ValueLength(f, v).Ok? && Content(h, f, v) == content
  {
    hide BE, Value, Pow256;
    BytesBack(content);
    Widths();
  }

  lemma SignedReached(h: Header, f: FieldSpec, content: seq<Byte>)
    requires ValidField(h.version, f) && PlainField(h, f) && f.encoding in {I8, I16, I32, I64} && ContentFits(f, content)
    ensures var v := DecodeContent(h, f, content);
      WellTyped(v) && ValueLength(f, v).Ok? && Content(h, f, v) == content
  {
    hide BE, Value, Pow256;
    BytesBack(content);
    Widths();
    EvenPower(|content|);
    WrapsOnce(SignedValue(content), Pow256(|content|));
  }

  lemma OctetsReached(h: Header, f: FieldSpec, content: seq<Byte>)
    requires ValidField(h.version, f) && PlainField(h, f) && ContentFits(f, content)
    requires f.encoding in {IPv4Address, IPv6Address, MacAddress, Text, OctetArray}
    ensures var v := DecodeContent(h, f, content);
      WellTyped(v) && ValueLength(f, v).Ok? && Content(h, f, v) == content
  {
    hide BE, Value, Pow256;
  }

  lemma MilliReached(h: Header, f: FieldSpec, content: seq<Byte>)
    requires ValidField(h.version, f) && PlainField(h, f) && f.encoding == MilliTime && ContentFits(f, content)
    ensures var v := DecodeContent(h, f, content);
      (v.TimeV? ==> v.nanos <= MAX_INT64) ==> WellTyped(v) && ValueLength(f, v).Ok? && Content(h, f, v) == content
  {
    hide BE, Value, Pow256;
    BytesBack(content);
    Widths();
  }

  /** The other way round: every content a field can have is the encoding of the value a collector reads from it,
      and that value is accepted, but for times past the signed 64-bit range. Text is taken as valid UTF-8. */
  lemma ContentRoundTrip(h: Header, f: FieldSpec, content: seq<Byte>)
    requires ValidField(h.version, f) && PlainField(h, f) && ContentFits(f, content)
    ensures var v := DecodeContent(h, f, content);
      (v.TimeV? ==> v.nanos <= MAX_INT64) ==> WellTyped(v) && ValueLength(f, v).Ok? && Content(h, f, v) == content
  {
    hide DecodeContent, ValueLength, Content, ContentFits, WellTyped;
    if UnsignedWidth(f.encoding).Some? {
      UnsignedReached(h, f, content);
    } else if f.encoding in {I8, I16, I32, I64} {
      SignedReached(h, f, content);
    } else if f.encoding == MilliTime {
      MilliReached(h, f, content);
    } else {
      OctetsReached(h, f, content);
    }
  }

  /** In v5 and v9 every flow time up to the header's own uptime is the encoding of an accepted instant. */
  lemma UptimeContentRoundTrip(h: Header, f: FieldSpec, content: seq<Byte>)
    requires h.version != IPFIX && (f.role == FlowStart || f.role == FlowEnd) && BoundField(h.version, f) && !f.variable
    requires h.origin.Some? && |content| == 4 && Value(content) <= Uptime(h) <= MAX_UINT32
    ensures var v := DecodeContent(h, f, content);
      && v.TimeV? && WithinUptime(h, v.nanos)
      && (v.nanos <= MAX_INT64 ==> ValueLength(f, v).Ok? && Content(h, f, v) == content)
  {
    hide BE, Value, Pow256;
    BytesBack(content);
    assert ElapsedMilliseconds(h.origin.value + Value(content) * NANOS_PER_MS, h.origin.value) == Some(Value(content));
  }

  /** A number is the same whether it was given as signed or unsigned. */
  lemma SameNumberSameBytes(h: Header, f: FieldSpec, n: nat)
    requires UnsignedWidth(f.encoding).Some? && f.role == Ordinary && !f.variable && WellTyped(UintV(n)) && WellTyped(IntV(n))
    ensures ValueLength(f, IntV(n)) == ValueLength(f, UintV(n)) && Content(h, f, IntV(n)) == Content(h, f, UintV(n))
  {}

  /** A value of this family and within the general bounds. */
  predicate InBounds(v: WireValue, family: Family)
  {
    && (v.AddressV? ==> v.six == (family == Family6)) && (v.TimeV? ==> v.nanos <= MAX_INT64)
    && (v.TextV? ==> |v.text| <= 0x10_0000) && (v.OctetsV? ==> |v.octets| <= 0x10_0000)
  }

  lemma {:induction false} AllInBounds(values: seq<WireValue>, family: Family)
    ensures FirstValueError(values, family) == None <==> forall k :: 0 <= k < |values| ==> InBounds(values[k], family)
  {
    if values != [] {
      AllInBounds(values[1..], family);
      assert ValueError(values[0], family) == None <==> InBounds(values[0], family);
      if FirstValueError(values, family) == None {
        forall k | 0 < k < |values|
          ensures InBounds(values[k], family)
        {
          assert values[k] == values[1..][k - 1];
        }
      }
      hide ValueError, InBounds;
    }
  }

  lemma {:induction false} AllHaveLengths(fields: seq<FieldSpec>, values: seq<WireValue>)
    requires |fields| == |values|
    ensures ValuesLength(fields, values).Ok? <==> forall k :: 0 <= k < |fields| ==> ValueLength(fields[k], values[k]).Ok?
  {
    hide ValueLength;
    if fields != [] {
      AllHaveLengths(fields[1..], values[1..]);
      if ValuesLength(fields, values).Ok? {
        forall k | 0 < k < |fields|
          ensures ValueLength(fields[k], values[k]).Ok?
        {
          assert fields[k] == fields[1..][k - 1] && values[k] == values[1..][k - 1];
        }
      }
    }
  }

  /** A record has a size exactly when it is of the shape's family and length, every value within the general bounds
      and every field able to take its own. */
  lemma SizedIffTaken(s: WireShape, r: Record)
    requires ValidWireShape(s)
    ensures RecordSize(s, r).Ok? <==>
      && r.family == s.family && |r.values| == |s.fields|
      && forall k :: 0 <= k < |s.fields| ==> InBounds(r.values[k], r.family) && ValueLength(s.fields[k], r.values[k]).Ok?
  {
    assert 1 <= |s.fields| <= 64;
    hide ValidWireShape, ValueLength, InBounds, ValuesLength, FirstValueError;
    AllInBounds(r.values, r.family);
    if |r.values| == |s.fields| {
      AllHaveLengths(s.fields, r.values);
    }
  }

  /** A time field takes every instant up to the signed 64-bit limit, however narrow it is. */
  lemma AnyTimeIsTaken(f: FieldSpec, v: WireValue)
    requires (Absolute(f.role) && UnsignedWidth(f.encoding).Some?) || f.encoding == NtpTime || f.encoding == MilliTime
    requires !f.variable && f.role != Constant
    ensures ValueLength(f, v).Ok? <==> v.TimeV? && v.nanos < 0x8000_0000_0000_0000
  {}
}
