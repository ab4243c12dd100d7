/** A reference collector, written from the protocols alone: template specifiers, sets, and records
    split while the remaining bytes reach the template's minimum. It undoes what the writers emit. */
module WireDecoder {
  import opened Base
  import opened Sizes
  import opened StateModel
  import opened Headers
  import opened Wire

  // What the specifications fix, written out here and not taken from the writers.

  /** The field length that announces a length prefix (section 7 of RFC 7011). */
  const OPEN_LENGTH: nat := 65535

  /** The set that holds templates: 2 in IPFIX (section 3.3.2 of RFC 7011), 0 in v9 (section 5.2 of RFC 3954). */
  const IPFIX_TEMPLATES: nat := 2
  const V9_TEMPLATES: nat := 0

  predicate HoldsTemplates(v: Version, id: nat) { id == if v == IPFIX then IPFIX_TEMPLATES else V9_TEMPLATES }

  /** Seconds from 1900 to 1970: seventy years, seventeen of them leap years. */
  const NTP_UNIX_SECONDS: nat := (70 * 365 + 17) * 86400

  /** One field specifier of a template, as a collector stores it. */
  datatype Spec = Spec(id: nat, length: nat, pen: Option<nat>)

  /** A record as its raw field contents. */
  type Fields = seq<seq<Byte>>

  function Take(bytes: seq<Byte>, n: nat): Option<(seq<Byte>, seq<Byte>)>
  {
    if |bytes| < n then None else Some((bytes[..n], bytes[n..]))
  }

  function MinimumOf(v: Version, specs: seq<Spec>): nat
  {
    if specs == [] then 0
    else (if v == IPFIX && specs[0].length == OPEN_LENGTH then 1 else specs[0].length) + MinimumOf(v, specs[1..])
  }

  function SplitField(v: Version, spec: Spec, bytes: seq<Byte>): (r: Option<(seq<Byte>, seq<Byte>)>)
    ensures r.Some? ==>
      |r.value.1| + (if v == IPFIX && spec.length == OPEN_LENGTH then 1 else spec.length) <= |bytes|
  {
    if v != IPFIX || spec.length != OPEN_LENGTH then Take(bytes, spec.length)
    else if |bytes| == 0 then None
    else if bytes[0] < 255 then Take(bytes[1..], bytes[0])
    else if |bytes| < 3 then None
    else Take(bytes[3..], Value(bytes[1..3]))
  }

  function SplitRecord(v: Version, specs: seq<Spec>, bytes: seq<Byte>): (r: Option<(Fields, seq<Byte>)>)
    ensures r.Some? ==> |r.value.1| + MinimumOf(v, specs) <= |bytes|
  {
    if specs == [] then Some(([], bytes))
    else
      match SplitField(v, specs[0], bytes)
      case None => None
      case Some((content, rest)) =>
        match SplitRecord(v, specs[1..], rest)
        case None => None
        case Some((contents, left)) => Some(([content] + contents, left))
  }

  /** Records of one data set; a remainder shorter than the minimum is padding. */
  function SplitRecords(v: Version, specs: seq<Spec>, bytes: seq<Byte>): Option<seq<Fields>>
    requires MinimumOf(v, specs) > 0
    decreases |bytes|
  {
    if |bytes| < MinimumOf(v, specs) then Some([])
    else
      match SplitRecord(v, specs, bytes)
      case None => None
      case Some((contents, rest)) =>
        match SplitRecords(v, specs, rest)
        case None => None
        case Some(records) => Some([contents] + records)
  }

  function SplitSpecs(v: Version, count: nat, bytes: seq<Byte>): Option<(seq<Spec>, seq<Byte>)>
  {
    if count == 0 then Some(([], bytes))
    else if |bytes| < 4 then None
    else
      var id, length := At(bytes, 0, 2), At(bytes, 2, 2);
      var enterprise := v == IPFIX && id >= 0x8000;
      if enterprise && |bytes| < 8 then None
      else
        var spec := if enterprise then Spec(id - 0x8000, length, Some(At(bytes, 4, 4))) else Spec(id, length, None);
        match SplitSpecs(v, count - 1, bytes[if enterprise then 8 else 4..])
        case None => None
        case Some((specs, rest)) => Some(([spec] + specs, rest))
  }

  /** The sets of a message body: identifier and content. */
  function SplitSets(bytes: seq<Byte>): Option<seq<(nat, seq<Byte>)>>
    decreases |bytes|
  {
    if |bytes| < 4 then Some([])
    else
      var id, length := At(bytes, 0, 2), At(bytes, 2, 2);
      if length < 4 || length > |bytes| then None
      else
        match SplitSets(bytes[length..])
        case None => None
        case Some(sets) => Some([(id, bytes[4..length])] + sets)
  }

  type Templates = map<nat, seq<Spec>>

  datatype Collected = Collected(heading: Heading, templates: Templates, records: seq<Fields>)

  /** One set against the templates known so far. */
  function CollectSet(v: Version, templates: Templates, id: nat, content: seq<Byte>): Option<(Templates, seq<Fields>)>
  {
    if HoldsTemplates(v, id) then
      if |content| < 4 then None
      else
        match SplitSpecs(v, At(content, 2, 2), content[4..])
        case None => None
        case Some((specs, _)) => Some((templates[At(content, 0, 2) := specs], []))
    else if id !in templates || MinimumOf(v, templates[id]) == 0 then None
    else
      match SplitRecords(v, templates[id], content)
      case None => None
      case Some(records) => Some((templates, records))
  }

  function CollectSets(v: Version, templates: Templates, sets: seq<(nat, seq<Byte>)>): Option<(Templates, seq<Fields>)>
    decreases |sets|
  {
    if sets == [] then Some((templates, []))
    else
      match CollectSet(v, templates, sets[0].0, sets[0].1)
      case None => None
      case Some((known, records)) =>
        match CollectSets(v, known, sets[1..])
        case None => None
        case Some((final, more)) => Some((final, records + more))
  }

  /** The v5 record: twenty fields of fixed widths, numbered in order. */
  const V5_SPECS: seq<Spec> := [
    Spec(1, 4, None), Spec(2, 4, None), Spec(3, 4, None), Spec(4, 2, None), Spec(5, 2, None),
    Spec(6, 4, None), Spec(7, 4, None), Spec(8, 4, None), Spec(9, 4, None), Spec(10, 2, None),
    Spec(11, 2, None), Spec(12, 1, None), Spec(13, 1, None), Spec(14, 1, None), Spec(15, 1, None),
    Spec(16, 2, None), Spec(17, 2, None), Spec(18, 1, None), Spec(19, 1, None), Spec(20, 2, None)]

  /** Template sets among the sets of a message; the writers put one template in each. */
  function TemplateSetCount(v: Version, sets: seq<(nat, seq<Byte>)>): nat
  {
    if sets == [] then 0 else (if HoldsTemplates(v, sets[0].0) then 1 else 0) + TemplateSetCount(v, sets[1..])
  }

  /** A whole message. An IPFIX message must be as long as it says, a v5 message hold its record count, and a v9
      message its count of template and data records (section 5.1 of RFC 3954). */
  function Collect(v: Version, templates: Templates, message: seq<Byte>): Option<Collected>
  {
    match DecodeHeader(v, message)
    case None => None
    case Some(heading) =>
      var body := message[HeadingBytes(v)..];
      if v == IPFIX && heading.second != |message| then None
      else if v == V5 then
        if MinimumOf(V5, V5_SPECS) == 0 then None
        else
          match SplitRecords(V5, V5_SPECS, body)
          case None => None
          case Some(records) => if |records| != heading.second then None else Some(Collected(heading, templates, records))
      else
        match SplitSets(body)
        case None => None
        case Some(sets) =>
          match CollectSets(v, templates, sets)
          case None => None
          case Some((known, records)) =>
            if v == V9 && heading.second != TemplateSetCount(v, sets) + |records| then None
            else Some(Collected(heading, known, records))
  }

  // ---- what the writer's shape looks like to a collector --------------------------------

  function SpecOf(v: Version, f: FieldSpec): Spec
  {
    Spec(f.id, f.length, if v == IPFIX && f.custom then Some(f.pen) else None)
  }

  function SpecsOf(v: Version, fields: seq<FieldSpec>): (specs: seq<Spec>)
    ensures |specs| == |fields|
  {
    if fields == [] then [] else [SpecOf(v, fields[0])] + SpecsOf(v, fields[1..])
  }

  function Contents(h: Header, fields: seq<FieldSpec>, values: seq<WireValue>): Fields
    requires |fields| == |values|
  {
    if fields == [] then [] else [Content(h, fields[0], values[0])] + Contents(h, fields[1..], values[1..])
  }

  ghost function AllContents(h: Header, s: WireShape, records: seq<Record>): seq<Fields>
    requires AllFit(s, records)
  {
    if records == [] then []
    else [Contents(h, s.fields, records[0].values)] + AllContents(h, s, records[1..])
  }

  // ---- field and record round trips -----------------------------------------------------

  ghost predicate ValidFields(v: Version, fields: seq<FieldSpec>)
  {
    forall k :: 0 <= k < |fields| ==> ValidField(v, fields[k]) && BoundField(v, fields[k])
  }

  lemma {:induction false} MinimumAgrees(v: Version, fields: seq<FieldSpec>)
    requires ValidFields(v, fields)
    ensures MinimumOf(v, SpecsOf(v, fields)) == Minimum(fields)
  {
    if fields != [] {
      MinimumAgrees(v, fields[1..]);
      assert SpecsOf(v, fields)[1..] == SpecsOf(v, fields[1..]);
    }
  }

  lemma TakeBack(content: seq<Byte>, rest: seq<Byte>)
    ensures Take(content + rest, |content|) == Some((content, rest))
  {}

  /** The one- or three-byte prefix is unambiguous. */
  lemma PrefixRoundTrip(content: seq<Byte>, rest: seq<Byte>, spec: Spec)
    requires |content| <= MAX_UINT16 && spec.length == OPEN_LENGTH
    ensures SplitField(IPFIX, spec, Prefix(|content|) + content + rest) == Some((content, rest))
  {
    hide BE, Value;
    var bytes := Prefix(|content|) + content + rest;
    if |content| < 255 {
      assert bytes[1..] == content + rest;
    } else {
      assert bytes[1..3] == BE(|content|, 2);
      assert bytes[3..] == content + rest;
      Widths();
      ValueOfBE(|content|, 2);
      SmallModulo(|content|, Pow256(2));
    }
    TakeBack(content, rest);
  }

  lemma FieldRoundTrip(h: Header, f: FieldSpec, v: WireValue, rest: seq<Byte>)
    requires ValidField(h.version, f) && BoundField(h.version, f) && ValueLength(f, v).Ok?
    ensures SplitField(h.version, SpecOf(h.version, f), EncodeValue(h, f, v) + rest) == Some((Content(h, f, v), rest))
  {
    hide BE, Content, ValueLength, Prefix;
    var content := Content(h, f, v);
    ContentLength(h, f, v);
    if f.variable {
      PrefixRoundTrip(content, rest, SpecOf(h.version, f));
    } else {
      assert EncodeValue(h, f, v) == content;
      TakeBack(content, rest);
    }
  }

  lemma ContentLength(h: Header, f: FieldSpec, v: WireValue)
    requires ValidField(h.version, f) && BoundField(h.version, f) && ValueLength(f, v).Ok?
    ensures |Content(h, f, v)| <= MAX_UINT16
    ensures if f.variable then h.version == IPFIX && f.length == VARIABLE_LENGTH
            else |Content(h, f, v)| == f.length && (h.version == IPFIX ==> f.length != VARIABLE_LENGTH)
  {
    hide BE, Pow256, ElapsedMilliseconds;
  }

  lemma {:induction false} EncodeFromFront(h: Header, fields: seq<FieldSpec>, values: seq<WireValue>)
    requires |fields| == |values| > 0
    ensures EncodeValues(h, fields, values) == EncodeValue(h, fields[0], values[0]) + EncodeValues(h, fields[1..], values[1..])
  {
    hide EncodeValue;
    var last := |fields| - 1;
    if last > 0 {
      EncodeFromFront(h, fields[..last], values[..last]);
      assert fields[..last][1..] == fields[1..][..last - 1];
      assert values[..last][1..] == values[1..][..last - 1];
    }
  }

  lemma SplitStep(v: Version, spec: Spec, specs: seq<Spec>, bytes: seq<Byte>, content: seq<Byte>, tail: seq<Byte>)
    requires SplitField(v, spec, bytes) == Some((content, tail))
    ensures SplitRecord(v, [spec] + specs, bytes) ==
      match SplitRecord(v, specs, tail)
      case None => None
      case Some((contents, left)) => Some(([content] + contents, left))
  {
    assert ([spec] + specs)[1..] == specs;
  }

  lemma NoFields(h: Header, rest: seq<Byte>)
    ensures SplitRecord(h.version, SpecsOf(h.version, []), EncodeValues(h, [], []) + rest) == Some((Contents(h, [], []), rest))
  {
    assert EncodeValues(h, [], []) + rest == rest;
  }

  lemma {:induction false} RecordRoundTrip(h: Header, fields: seq<FieldSpec>, values: seq<WireValue>, rest: seq<Byte>)
    requires |fields| == |values| && ValidFields(h.version, fields) && ValuesLength(fields, values).Ok?
    ensures SplitRecord(h.version, SpecsOf(h.version, fields), EncodeValues(h, fields, values) + rest)
         == Some((Contents(h, fields, values), rest))
  {
    hide ValidField, BoundField, ValueLength, EncodeValue, EncodeValues, SplitField, SplitRecord, Content;
    if fields == [] {
      NoFields(h, rest);
    } else {
      var v := h.version;
      var tail := EncodeValues(h, fields[1..], values[1..]) + rest;
      EncodeFromFront(h, fields, values);
      FieldRoundTrip(h, fields[0], values[0], tail);
      RecordRoundTrip(h, fields[1..], values[1..], rest);
      assert EncodeValues(h, fields, values) + rest == EncodeValue(h, fields[0], values[0]) + tail;
      SplitStep(v, SpecOf(v, fields[0]), SpecsOf(v, fields[1..]), EncodeValues(h, fields, values) + rest,
                Content(h, fields[0], values[0]), tail);
    }
  }

  lemma {:induction false} RecordsFromFront(h: Header, s: WireShape, records: seq<Record>)
    requires AllFit(s, records) && records != []
    ensures EncodeRecords(h, s, records) == EncodeRecord(h, s, records[0]) + EncodeRecords(h, s, records[1..])
  {
    hide EncodeRecord;
    var last := |records| - 1;
    if last > 0 {
      RecordsFromFront(h, s, records[..last]);
      assert records[..last][1..] == records[1..][..last - 1];
    }
  }

  ghost predicate AllSized(s: WireShape, records: seq<Record>)
  {
    forall k :: 0 <= k < |records| ==> |records[k].values| == |s.fields| && RecordSize(s, records[k]).Ok?
  }

  /** Reading records while the rest reaches the minimum gives back every record and stops at the
      padding, which is always shorter. */
  lemma {:induction false} RecordsRoundTrip(h: Header, s: WireShape, records: seq<Record>, padding: nat)
    requires h.version == s.version && ValidWireShape(s) && AllSized(s, records) && padding < Minimum(s.fields)
    ensures MinimumOf(h.version, SpecsOf(h.version, s.fields)) > 0
    ensures SplitRecords(h.version, SpecsOf(h.version, s.fields), EncodeRecords(h, s, records) + Zeros(padding))
         == Some(AllContents(h, s, records))
  {
    hide ValidField, BoundField, ValuesLength, EncodeValues, Minimum, MinimumOf, SpecsOf, SplitRecord, Contents,
         EncodeRecord;
    var v, specs := h.version, SpecsOf(h.version, s.fields);
    MinimumAgrees(v, s.fields);
    if records == [] {
      assert EncodeRecords(h, s, records) + Zeros(padding) == Zeros(padding);
    } else {
      RecordsStep(h, s, records, Zeros(padding));
      RecordsRoundTrip(h, s, records[1..], padding);
    }
  }

  lemma {:induction false} RecordsStep(h: Header, s: WireShape, records: seq<Record>, rest: seq<Byte>)
    requires h.version == s.version && ValidWireShape(s) && AllSized(s, records) && records != []
    ensures var specs, bytes := SpecsOf(h.version, s.fields), EncodeRecords(h, s, records) + rest;
      && |bytes| >= MinimumOf(h.version, specs)
      && SplitRecord(h.version, specs, bytes)
         == Some((Contents(h, s.fields, records[0].values), EncodeRecords(h, s, records[1..]) + rest))
  {
    hide ValidField, BoundField, ValuesLength, EncodeValues, Minimum, MinimumOf, SpecsOf, SplitRecord, Contents;
    var first := records[0];
    RecordsFromFront(h, s, records);
    RecordBytes(h, s, first);
    MinimumAgrees(h.version, s.fields);
    RecordRoundTrip(h, s.fields, first.values, EncodeRecords(h, s, records[1..]) + rest);
    assert EncodeRecords(h, s, records) + rest
        == EncodeRecord(h, s, first) + (EncodeRecords(h, s, records[1..]) + rest);
  }
}
