/** The wire contract: typed values, field descriptors, shapes, encoded sizes, and the exact bytes of
    records, template sets, data sets and whole messages. */
module Wire {
  import opened Base
  import opened Sizes
  import opened StateModel
  import opened Headers

  const MAX_FIELDS: nat := 64
  const MAX_VALUE_BYTES: nat := 0x10_0000
  const VARIABLE_LENGTH: nat := 65535
  const NTP_EPOCH_OFFSET: nat := 2_208_988_800
  const MAX_NANOS_IPFIX: nat := 2_085_978_495_999_999_999

  datatype Encoding = U8 | U16 | U32 | U64 | I8 | I16 | I32 | I64 | IPv4Address | IPv6Address | MacAddress
                    | OctetArray | Text | NtpTime | MilliTime

  /** The canonical fields the writers treat specially; `Constant` is NetFlow v5's two pad fields. */
  datatype Role = Ordinary | FlowStart | FlowEnd | TimeReceived | Constant

  datatype FieldSpec = FieldSpec(role: Role, id: nat, length: nat, encoding: Encoding, custom: bool, variable: bool,
                                 maxLength: nat, pen: nat)

  datatype Family = Family4 | Family6

  datatype WireShape = WireShape(version: Version, family: Family, id: nat, fields: seq<FieldSpec>)

  datatype RawValue =
    | UintV(n: nat)
    | IntV(i: int)
    | TextV(text: seq<Byte>)
    | OctetsV(octets: seq<Byte>)
    | AddressV(six: bool, address: seq<Byte>)
    | MacV(mac: seq<Byte>)
    | TimeV(nanos: nat)

  predicate WellTyped(v: RawValue)
  {
    match v
    case UintV(n) => n <= MAX_UINT64
    case IntV(i) => -0x8000_0000_0000_0000 <= i <= MAX_INT64
    case TextV(_) => true
    case OctetsV(_) => true
    case AddressV(six, address) => |address| == if six then 16 else 4
    case MacV(mac) => |mac| == 6
    case TimeV(nanos) => nanos <= MAX_UINT64
  }

  type WireValue = v: RawValue | WellTyped(v) witness UintV(0)

  datatype Record = Record(family: Family, values: seq<WireValue>)

  datatype WireError = InvalidValue | RecordValueLimit | InvalidFamily | OutOfBounds | ShortBuffer | InvalidHeader
                     | InvalidShape | InvalidDescriptor | TimeOutOfRange | NotBegun | AlreadyFinished | PacketEmpty

  datatype Result<+T> = Ok(value: T) | Err(error: WireError)

  // ---- descriptors ----------------------------------------------------------------------

  function NaturalLength(e: Encoding): nat
  {
    match e
    case U8 => 1
    case I8 => 1
    case U16 => 2
    case I16 => 2
    case U32 => 4
    case I32 => 4
    case U64 => 8
    case I64 => 8
    case IPv4Address => 4
    case IPv6Address => 16
    case MacAddress => 6
    case NtpTime => 8
    case MilliTime => 8
    case OctetArray => 0
    case Text => 0
  }

  predicate Absolute(role: Role) { role == FlowStart || role == FlowEnd || role == TimeReceived }

  /** FieldDescriptor.Validate, the part that decides widths and identities. */
  predicate ValidField(v: Version, f: FieldSpec)
  {
    && 0 < f.id <= MAX_UINT16 && f.length <= MAX_UINT16 && 0 < f.length && f.maxLength <= MAX_UINT16 && f.pen <= MAX_UINT32
    && (f.custom ==> f.role == Ordinary && v != V5 && f.encoding != NtpTime && f.encoding != MilliTime)
    && (f.role == Constant ==> v == V5 && ((f.id == 12 && f.length == 1 && f.encoding == U8)
                                           || (f.id == 20 && f.length == 2 && f.encoding == U16)))
    && (f.encoding == NtpTime || f.encoding == MilliTime ==> v == IPFIX)
    && (f.encoding == MilliTime ==> (f.role == FlowStart && f.id == 152) || (f.role == FlowEnd && f.id == 153))
    && (v == V9 ==> (f.custom <==> f.id > 255))
    && (v == IPFIX ==> f.id <= 32767 && (f.custom <==> f.pen != 0)
                       && (!f.custom && (f.id == 152 || f.id == 153) ==> f.encoding == MilliTime))
    && (v != IPFIX ==> f.pen == 0)
    && (if f.variable
        then v == IPFIX && f.custom && f.length == VARIABLE_LENGTH && f.maxLength > 0
             && (f.encoding == OctetArray || f.encoding == Text)
        else f.maxLength == 0 && (v == IPFIX ==> f.length != VARIABLE_LENGTH)
             && (NaturalLength(f.encoding) != 0 ==> f.length == NaturalLength(f.encoding)))
  }

  function MinimumLength(f: FieldSpec): nat { if f.variable then 1 else f.length }

  function Minimum(fields: seq<FieldSpec>): nat
  {
    if fields == [] then 0 else MinimumLength(fields[0]) + Minimum(fields[1..])
  }

  function SpecifierBytes(v: Version, f: FieldSpec): nat { if v == IPFIX && f.custom then 8 else 4 }

  function SpecifiersBytes(v: Version, fields: seq<FieldSpec>): nat
  {
    if fields == [] then 0 else SpecifierBytes(v, fields[0]) + SpecifiersBytes(v, fields[1..])
  }

  function TemplateBytes(s: WireShape): nat
  {
    if s.version == V5 then 0 else 8 + SpecifiersBytes(s.version, s.fields)
  }

  predicate HasVariable(s: WireShape) { exists k :: 0 <= k < |s.fields| && s.fields[k].variable }

  /** The one NetFlow v5 record layout. */
  const V5_FIELDS: seq<FieldSpec> := [
    V5Field(Ordinary, 1, 4, IPv4Address), V5Field(Ordinary, 2, 4, IPv4Address), V5Field(Ordinary, 3, 4, IPv4Address),
    V5Field(Ordinary, 4, 2, U16), V5Field(Ordinary, 5, 2, U16), V5Field(Ordinary, 6, 4, U32), V5Field(Ordinary, 7, 4, U32),
    V5Field(FlowStart, 8, 4, U32), V5Field(FlowEnd, 9, 4, U32), V5Field(Ordinary, 10, 2, U16), V5Field(Ordinary, 11, 2, U16),
    V5Field(Constant, 12, 1, U8), V5Field(Ordinary, 13, 1, U8), V5Field(Ordinary, 14, 1, U8), V5Field(Ordinary, 15, 1, U8),
    V5Field(Ordinary, 16, 2, U16), V5Field(Ordinary, 17, 2, U16), V5Field(Ordinary, 18, 1, U8), V5Field(Ordinary, 19, 1, U8),
    V5Field(Constant, 20, 2, U16)]

  function V5Field(role: Role, id: nat, length: nat, encoding: Encoding): FieldSpec
  {
    FieldSpec(role, id, length, encoding, false, false, 0, 0)
  }

  /** Shape.Validate: what every shape a writer is given already satisfies. */
  ghost predicate LegalShape(s: WireShape)
  {
    && 1 <= |s.fields| <= MAX_FIELDS && s.id <= MAX_UINT16
    && (forall k :: 0 <= k < |s.fields| ==> ValidField(s.version, s.fields[k]))
    && 0 < Minimum(s.fields) <= MAX_RECORD_BYTES
    && TemplateBytes(s) <= MAX_TEMPLATE_BYTES
    && (if s.version == V5 then s.family == Family4 && s.id == 1 && s.fields == V5_FIELDS else s.id >= 256)
  }

  /** A legal shape whose flow times the protocol can carry. */
  ghost predicate ValidWireShape(s: WireShape)
  {
    LegalShape(s) && forall k :: 0 <= k < |s.fields| ==> BoundField(s.version, s.fields[k])
  }

  /** In v9 and v5 flow times are 32-bit uptimes, in v9 under their own identifiers. */
  predicate BoundField(v: Version, f: FieldSpec)
  {
    v != IPFIX ==>
      && f.role != TimeReceived
      && (f.role == FlowStart || f.role == FlowEnd ==> f.length == 4 && f.encoding == U32)
      && (v == V9 ==> (f.role == FlowStart ==> f.id == 22) && (f.role == FlowEnd ==> f.id == 21))
  }

  // ---- values ---------------------------------------------------------------------------

  /** validateValueForFamily. */
  function ValueError(v: WireValue, family: Family): Option<WireError>
  {
    match v
    case TextV(text) => if |text| > MAX_VALUE_BYTES then Some(RecordValueLimit) else None
    case OctetsV(octets) => if |octets| > MAX_VALUE_BYTES then Some(RecordValueLimit) else None
    case TimeV(nanos) => if nanos > MAX_INT64 then Some(TimeOutOfRange) else None
    case AddressV(six, _) => if six == (family == Family4) then Some(InvalidValue) else None
    case _ => None
  }

  predicate UnsignedFits(v: WireValue, width: nat)
  {
    match v
    case UintV(n) => n < Pow256(width)
    case IntV(i) => 0 <= i < Pow256(width)
    case _ => false
  }

  predicate SignedFits(v: WireValue, width: nat)
    requires width > 0
  {
    v.IntV? && -(Pow256(width) / 2) <= v.i < Pow256(width) / 2
  }

  /** The switch of ValueLength: does a fixed-length field take this value? */
  predicate FixedFits(f: FieldSpec, v: WireValue)
  {
    match f.encoding
    case U8 => if Absolute(f.role) then v.TimeV? && v.nanos <= MAX_INT64 else UnsignedFits(v, 1)
    case U16 => if Absolute(f.role) then v.TimeV? && v.nanos <= MAX_INT64 else UnsignedFits(v, 2)
    case U32 => if Absolute(f.role) then v.TimeV? && v.nanos <= MAX_INT64 else UnsignedFits(v, 4)
    case U64 => if Absolute(f.role) then v.TimeV? && v.nanos <= MAX_INT64 else UnsignedFits(v, 8)
    case I8 => SignedFits(v, 1)
    case I16 => SignedFits(v, 2)
    case I32 => SignedFits(v, 4)
    case I64 => SignedFits(v, 8)
    case IPv4Address => v.AddressV? && !v.six
    case IPv6Address => v.AddressV? && v.six
    case MacAddress => v.MacV?
    case Text => v.TextV? && |v.text| == f.length
    case OctetArray => v.OctetsV? && |v.octets| == f.length
    case NtpTime => v.TimeV? && v.nanos <= MAX_INT64
    case MilliTime => v.TimeV? && v.nanos <= MAX_INT64
  }

  function PrefixLength(length: nat): nat { if length >= 255 then 3 else 1 }

  function ValueLength(f: FieldSpec, v: WireValue): Result<nat>
  {
    if Absolute(f.role) && !v.TimeV? then Err(InvalidValue)
    else if f.role == Constant then (if v != UintV(0) then Err(InvalidValue) else Ok(f.length))
    else if f.variable then
      if (f.encoding == Text && !v.TextV?) || (f.encoding == OctetArray && !v.OctetsV?) then Err(InvalidValue)
      else if f.encoding != Text && f.encoding != OctetArray then Err(InvalidDescriptor)
      else
        var length := if v.TextV? then |v.text| else |v.octets|;
        if length > f.maxLength then Err(OutOfBounds)
        else if PrefixLength(length) + length > MAX_UINT16 then Err(OutOfBounds)
        else Ok(PrefixLength(length) + length)
    else if FixedFits(f, v) then Ok(f.length)
    else Err(InvalidValue)
  }

  /** recordLengthFor: the first field that refuses its value decides. */
  function ValuesLength(fields: seq<FieldSpec>, values: seq<WireValue>): Result<nat>
    requires |fields| == |values|
  {
    if fields == [] then Ok(0)
    else
      match ValueLength(fields[0], values[0])
      case Err(error) => Err(error)
      case Ok(first) =>
        match ValuesLength(fields[1..], values[1..])
        case Err(error) => Err(error)
        case Ok(rest) => Ok(first + rest)
  }

  function FirstValueError(values: seq<WireValue>, family: Family): Option<WireError>
  {
    if values == [] then None
    else if ValueError(values[0], family).Some? then ValueError(values[0], family)
    else FirstValueError(values[1..], family)
  }

  /** Shape.RecordSize. */
  function RecordSize(s: WireShape, r: Record): Result<nat>
  {
    if |r.values| == 0 || |r.values| > MAX_FIELDS then Err(RecordValueLimit)
    else if FirstValueError(r.values, r.family).Some? then Err(FirstValueError(r.values, r.family).value)
    else if r.family != s.family then Err(InvalidFamily)
    else if |r.values| != |s.fields| then Err(InvalidValue)
    else ValuesLength(s.fields, r.values)
  }

  // ---- times ----------------------------------------------------------------------------

  /** ntpTimestamp: seconds since 1900 and a binary fraction rounded to nearest. */
  function NtpTimestamp(nanos: nat): Option<nat>
  {
    if nanos > MAX_NANOS_IPFIX then None
    else NtpCompose(nanos / NANOS_PER_SECOND + NTP_EPOCH_OFFSET,
                    (nanos % NANOS_PER_SECOND * UINT32_MODULUS + 500_000_000) / NANOS_PER_SECOND)
  }

  /** A fraction that rounds up to a whole second carries. */
  function NtpCompose(seconds: nat, fraction: nat): Option<nat>
  {
    var carried := fraction >= UINT32_MODULUS;
    var s := if carried then seconds + 1 else seconds;
    if s > MAX_UINT32 then None
    else Some(s * UINT32_MODULUS + (if carried then fraction - UINT32_MODULUS else fraction) % UINT32_MODULUS)
  }

  /** The values of the flow start and end fields, where a shape has them: the last one counts. */
  function TimeOf(role: Role, fields: seq<FieldSpec>, values: seq<WireValue>): Option<nat>
    requires |fields| == |values|
  {
    if fields == [] then None
    else
      var last := |fields| - 1;
      if fields[last].role == role && values[last].TimeV? then Some(values[last].nanos)
      else TimeOf(role, fields[..last], values[..last])
  }

  /** A flow time the v5 and v9 headers can carry: on the grid, not before the origin, not after export. */
  predicate WithinUptime(h: Header, nanos: nat)
  {
    && h.origin.Some? && ElapsedMilliseconds(nanos, h.origin.value).Some?
    && ElapsedMilliseconds(nanos, h.origin.value).value <= Uptime(h) <= MAX_UINT32
  }

  /** validateRecord and validateRecordTime. */
  ghost predicate TimesAccepted(h: Header, s: WireShape, r: Record)
    requires |s.fields| == |r.values|
  {
    if s.version == IPFIX then
      forall k :: 0 <= k < |s.fields| && s.fields[k].encoding == NtpTime && r.values[k].TimeV? ==>
        NtpTimestamp(r.values[k].nanos).Some?
    else
      && (forall k :: 0 <= k < |s.fields| && (s.fields[k].role == FlowStart || s.fields[k].role == FlowEnd)
                      && r.values[k].TimeV? ==>
            WithinUptime(h, r.values[k].nanos))
      && (var first, last := TimeOf(FlowStart, s.fields, r.values), TimeOf(FlowEnd, s.fields, r.values);
          first.Some? && last.Some? ==> first.value <= last.value)
      && (s.version == V5 && |r.values| == 20 ==> MaskOk(r.values[17]) && MaskOk(r.values[18]))
  }

  predicate MaskOk(v: WireValue) { (v.UintV? && v.n <= 32) || (v.IntV? && 0 <= v.i <= 32) }

  // ---- bytes of a record ----------------------------------------------------------------

  /** valueUint: what the unsigned encodings truncate. */
  function ValueUint(v: WireValue): nat
  {
    match v
    case UintV(n) => n
    case TimeV(nanos) => nanos
    case IntV(i) => if i >= 0 then i else MAX_UINT64
    case _ => MAX_UINT64
  }

  /** Two's complement in `width` bytes. */
  function TwosComplement(i: int, width: nat): nat { i % Pow256(width) }

  function ValueInt(v: WireValue): int { if v.IntV? then v.i else 0 }

  function OctetsOf(v: WireValue): seq<Byte>
  {
    match v
    case TextV(text) => text
    case OctetsV(octets) => octets
    case AddressV(_, address) => address
    case MacV(mac) => mac
    case _ => []
  }

  /** writeValue without the length prefix. */
  function Content(h: Header, f: FieldSpec, v: WireValue): seq<Byte>
  {
    if h.version != IPFIX && (f.role == FlowStart || f.role == FlowEnd) then
      BE(if h.origin.Some? && ElapsedMilliseconds(ValueUint(v), h.origin.value).Some?
         then ElapsedMilliseconds(ValueUint(v), h.origin.value).value else 0, 4)
    else
      match f.encoding
      case U8 => BE(ValueUint(v), 1)
      case U16 => BE(ValueUint(v), 2)
      case U32 => BE(ValueUint(v), 4)
      case U64 => BE(ValueUint(v), 8)
      case I8 => BE(TwosComplement(ValueInt(v), 1), 1)
      case I16 => BE(TwosComplement(ValueInt(v), 2), 2)
      case I32 => BE(TwosComplement(ValueInt(v), 4), 4)
      case I64 => BE(TwosComplement(ValueInt(v), 8), 8)
      case NtpTime => BE(match NtpTimestamp(ValueUint(v)) case Some(t) => t case None => 0, 8)
      case MilliTime => BE(ValueUint(v) / NANOS_PER_MS, 8)
      case _ => OctetsOf(v)
  }

  /** The variable-length prefix: one byte below 255, else the 255 marker and two bytes. */
  function Prefix(length: nat): seq<Byte>
  {
    if length < 255 then [length] else [255] + BE(length, 2)
  }

  function EncodeValue(h: Header, f: FieldSpec, v: WireValue): seq<Byte>
  {
    (if f.variable then Prefix(|Content(h, f, v)|) else []) + Content(h, f, v)
  }

  function EncodeValues(h: Header, fields: seq<FieldSpec>, values: seq<WireValue>): seq<Byte>
    requires |fields| == |values|
  {
    if fields == [] then []
    else
      var last := |fields| - 1;
      EncodeValues(h, fields[..last], values[..last]) + EncodeValue(h, fields[last], values[last])
  }

  function EncodeRecord(h: Header, s: WireShape, r: Record): seq<Byte>
    requires |s.fields| == |r.values|
  {
    EncodeValues(h, s.fields, r.values)
  }

  /** A record the writer of this header and shape takes. */
  ghost predicate Writable(h: Header, s: WireShape, r: Record)
  {
    RecordSize(s, r).Ok? && |r.values| == |s.fields| && TimesAccepted(h, s, r)
  }

  function SizeOf(s: WireShape, r: Record): nat
  {
    match RecordSize(s, r)
    case Ok(n) => n
    case Err(_) => 0
  }

  lemma ValueBytes(h: Header, s: WireShape, f: FieldSpec, v: WireValue)
    requires ValidField(s.version, f) && BoundField(s.version, f) && h.version == s.version && ValueLength(f, v).Ok?
    ensures |EncodeValue(h, f, v)| == ValueLength(f, v).value
    ensures ValueLength(f, v).value >= MinimumLength(f) && (!f.variable ==> ValueLength(f, v).value == f.length)
  {
    hide BE, Pow256;
  }

  lemma {:induction false} LengthFromFront(fields: seq<FieldSpec>, values: seq<WireValue>)
    requires |fields| == |values| > 0
    ensures var last := |fields| - 1;
      ValuesLength(fields, values).Ok? ==>
        && ValuesLength(fields[..last], values[..last]).Ok? && ValueLength(fields[last], values[last]).Ok?
        && ValuesLength(fields, values).value
           == ValuesLength(fields[..last], values[..last]).value + ValueLength(fields[last], values[last]).value
  {
    hide ValueLength;
    var last := |fields| - 1;
    if last > 0 && ValuesLength(fields, values).Ok? {
      LengthFromFront(fields[1..], values[1..]);
      assert fields[1..][..last - 1] == fields[..last][1..];
      assert values[1..][..last - 1] == values[..last][1..];
    }
  }

  /** The bytes of a record are as many as RecordSize promised, and at least the shape's minimum. */
  lemma {:induction false} ValuesBytes(h: Header, s: WireShape, fields: seq<FieldSpec>, values: seq<WireValue>)
    requires |fields| == |values| && h.version == s.version && ValuesLength(fields, values).Ok?
    requires forall k :: 0 <= k < |fields| ==> ValidField(s.version, fields[k]) && BoundField(s.version, fields[k])
    ensures |EncodeValues(h, fields, values)| == ValuesLength(fields, values).value
  {
    hide ValidField, BoundField, ValueLength, EncodeValue;
    if fields != [] {
      var last := |fields| - 1;
      LengthFromFront(fields, values);
      ValuesBytes(h, s, fields[..last], values[..last]);
      ValueBytes(h, s, fields[last], values[last]);
    }
  }

  lemma {:induction false} MinimumHolds(v: Version, fields: seq<FieldSpec>, values: seq<WireValue>)
    requires |fields| == |values| && ValuesLength(fields, values).Ok?
    requires forall k :: 0 <= k < |fields| ==> ValidField(v, fields[k])
    ensures Minimum(fields) <= ValuesLength(fields, values).value
    ensures (forall k :: 0 <= k < |fields| ==> !fields[k].variable) ==>
      Minimum(fields) == ValuesLength(fields, values).value
  {
    if fields != [] {
      MinimumHolds(v, fields[1..], values[1..]);
    }
  }

  /** A writable record occupies exactly its size. */
  lemma RecordBytes(h: Header, s: WireShape, r: Record)
    requires ValidWireShape(s) && h.version == s.version && RecordSize(s, r).Ok?
    ensures |r.values| == |s.fields| && |EncodeRecord(h, s, r)| == RecordSize(s, r).value
    ensures RecordSize(s, r).value >= Minimum(s.fields)
    ensures (!HasVariable(s) ==> RecordSize(s, r).value == Minimum(s.fields))
  {
    hide ValidField, BoundField, ValuesLength, EncodeValues, Minimum;
    ValuesBytes(h, s, s.fields, r.values);
    MinimumHolds(s.version, s.fields, r.values);
  }

  // ---- bytes of a message ---------------------------------------------------------------

  function SpecifierOf(v: Version, f: FieldSpec): seq<Byte>
  {
    if v == IPFIX && f.custom then BE(f.id + 0x8000, 2) + BE(f.length, 2) + BE(f.pen, 4)
    else BE(f.id, 2) + BE(f.length, 2)
  }

  function Specifiers(v: Version, fields: seq<FieldSpec>): seq<Byte>
  {
    if fields == [] then [] else Specifiers(v, fields[..|fields| - 1]) + SpecifierOf(v, fields[|fields| - 1])
  }

  function TemplateSetID(v: Version): nat { if v == IPFIX then 2 else 0 }

  /** writeTemplateSet. */
  function TemplateSet(s: WireShape): seq<Byte>
  {
    BE(TemplateSetID(s.version), 2) + BE(TemplateBytes(s), 2) + BE(s.id, 2) + BE(|s.fields|, 2)
    + Specifiers(s.version, s.fields)
  }

  function Zeros(n: nat): seq<Byte> { seq(n, _ => 0) }

  ghost predicate AllFit(s: WireShape, records: seq<Record>)
  {
    forall k :: 0 <= k < |records| ==> |records[k].values| == |s.fields|
  }

  ghost function EncodeRecords(h: Header, s: WireShape, records: seq<Record>): seq<Byte>
    requires AllFit(s, records)
  {
    if records == [] then []
    else EncodeRecords(h, s, records[..|records| - 1]) + EncodeRecord(h, s, records[|records| - 1])
  }

  function RecordsSize(s: WireShape, records: seq<Record>): nat
  {
    if records == [] then 0 else RecordsSize(s, records[..|records| - 1]) + SizeOf(s, records[|records| - 1])
  }

  ghost function SetSizeOf(s: WireShape, bytes: nat, count: nat): Option<SetSize>
  {
    DataSetSize(s.version, Minimum(s.fields), HasVariable(s), bytes, count)
  }

  /** The data part of a message: bare records in v5, one padded data set otherwise. */
  ghost function DataSet(h: Header, s: WireShape, records: seq<Record>, size: SetSize): seq<Byte>
    requires AllFit(s, records)
  {
    if s.version == V5 then EncodeRecords(h, s, records)
    else BE(s.id, 2) + BE(size.length, 2) + EncodeRecords(h, s, records) + Zeros(size.padding)
  }

  /** The second header word of a data message: its length in IPFIX, its record count otherwise. */
  function SecondWord(v: Version, total: nat, count: nat): nat { if v == IPFIX then total else count }

  /** A whole data message. */
  ghost function DataMessage(h: Header, s: WireShape, records: seq<Record>, size: SetSize): seq<Byte>
    requires AllFit(s, records)
  {
    EncodeHeader(h, SecondWord(s.version, HeaderBytes(s.version) + size.length, |records|)) + DataSet(h, s, records, size)
  }

  /** A whole template message. */
  function TemplateMessage(h: Header, s: WireShape): seq<Byte>
  {
    EncodeHeader(h, SecondWord(s.version, HeaderBytes(s.version) + TemplateBytes(s), 1)) + TemplateSet(s)
  }
}
