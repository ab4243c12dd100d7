/** Big-endian integers, and the message header of each protocol: what a writer accepts and emits. */
module Headers {
  import opened Base
  import opened Sizes
  import opened StateModel

  type Byte = x: nat | x < 256

  function Pow256(k: nat): (p: nat)
    ensures p > 0
  {
    if k == 0 then 1 else 256 * Pow256(k - 1)
  }

  /** The low `k` bytes of `n`, most significant first: an unsigned conversion truncates the same way. */
  function BE(n: nat, k: nat): (bytes: seq<Byte>)
    ensures |bytes| == k
  {
    if k == 0 then [] else BE(n / 256, k - 1) + [n % 256]
  }

  function Value(bytes: seq<Byte>): nat
  {
    if bytes == [] then 0 else 256 * Value(bytes[..|bytes| - 1]) + bytes[|bytes| - 1]
  }

  lemma {:induction false} ValueOfBE(n: nat, k: nat)
    ensures Value(BE(n, k)) == n % Pow256(k)
  {
    if k > 0 {
      ValueOfBE(n / 256, k - 1);
      assert BE(n, k)[..k - 1] == BE(n / 256, k - 1);
      SplitModulo(n, Pow256(k - 1));
    }
  }

  lemma SplitModulo(n: nat, p: nat)
    requires p > 0
    ensures 256 * ((n / 256) % p) + n % 256 == n % (256 * p)
  {
    var high, low := n / 256, n % 256;
    var q, r := high / p, high % p;
    assert high == q * p + r;
    assert n == 256 * (q * p + r) + low == q * (256 * p) + (256 * r + low);
    UniqueRemainder(n, 256 * p, q, 256 * r + low);
  }

  lemma UniqueRemainder(n: int, d: nat, q: int, r: nat)
    requires d > 0 && n == q * d + r && r < d
    ensures n % d == r
  {
    MultiplesApart(n / d, q, d);
    MultiplesApart(q, n / d, d);
  }

  lemma MultiplesApart(a: int, b: int, d: nat)
    ensures a < b ==> (a + 1) * d <= b * d
  {}

  lemma SmallModulo(n: nat, d: nat)
    requires n < d
    ensures n % d == n
  {}

  lemma Widths()
    ensures Pow256(0) == 1 && Pow256(1) == 256 && Pow256(2) == 0x1_0000 && Pow256(4) == UINT32_MODULUS
    ensures Pow256(8) == 0x1_0000_0000_0000_0000
  {
    assert Pow256(3) == 256 * Pow256(2);
    assert Pow256(5) == 256 * Pow256(4) && Pow256(6) == 256 * Pow256(5) && Pow256(7) == 256 * Pow256(6);
    assert Pow256(8) == 256 * Pow256(7);
  }

  // ---- what a writer accepts ------------------------------------------------------------

  /** elapsedMilliseconds of the v5 and v9 writers. */
  function ElapsedMilliseconds(value: nat, origin: nat): Option<nat>
  {
    if value < origin || (value - origin) % NANOS_PER_MS != 0 then None else Some((value - origin) / NANOS_PER_MS)
  }

  /** validateHeader of the three protocol writers. */
  predicate WriterAccepts(h: Header)
  {
    && h.exportNanos / NANOS_PER_SECOND <= MAX_UINT32
    && (h.version == V5 ==> h.sourceID == 0 && h.domainID == 0)
    && (h.version == V9 ==> (h.domainID == 0 || h.domainID == h.sourceID) && h.samplingMode == 0
                            && h.samplingInterval == 0)
    && (h.version == IPFIX ==> h.sourceID == 0 && h.engineType == 0 && h.engineID == 0
                               && h.samplingMode == 0 && h.samplingInterval == 0)
    && (h.version != IPFIX ==>
          && h.origin.Some?
          && ElapsedMilliseconds(h.exportNanos, h.origin.value).Some?
          && ElapsedMilliseconds(h.exportNanos, h.origin.value).value <= MAX_UINT32)
  }

  /** The uptime a v5 or v9 header carries; zero where the protocol has none. */
  function Uptime(h: Header): nat
  {
    if h.origin == None || ElapsedMilliseconds(h.exportNanos, h.origin.value) == None then 0
    else ElapsedMilliseconds(h.exportNanos, h.origin.value).value
  }

  // ---- header bytes ---------------------------------------------------------------------

  function VersionNumber(v: Version): nat
  {
    match v
    case V5 => 5
    case V9 => 9
    case IPFIX => 10
  }

  /** writeHeader; `second` is the message length for IPFIX and the record count otherwise. */
  function EncodeHeader(h: Header, second: nat): (bytes: seq<Byte>)
    ensures |bytes| == HeaderBytes(h.version)
  {
    var secs := h.exportNanos / NANOS_PER_SECOND;
    var front := BE(VersionNumber(h.version), 2) + BE(second, 2);
    match h.version
    case V5 =>
      front + BE(Uptime(h), 4) + BE(secs, 4) + BE(h.exportNanos % NANOS_PER_SECOND, 4) + BE(h.sequence, 4)
      + BE(h.engineType, 1) + BE(h.engineID, 1) + BE(h.samplingMode * 0x4000 + h.samplingInterval, 2)
    case V9 => front + BE(Uptime(h), 4) + BE(secs, 4) + BE(h.sequence, 4) + BE(h.sourceID, 4)
    case IPFIX => front + BE(secs, 4) + BE(h.sequence, 4) + BE(h.domainID, 4)
  }

  /** What a collector reads back from a message header. */
  datatype Heading = Heading(version: nat, second: nat, sequence: nat, seconds: nat, uptime: nat, nanos: nat,
                             identity: nat, engine: nat, sampling: nat)

  function At(bytes: seq<Byte>, at: nat, width: nat): nat
    requires at + width <= |bytes|
  {
    Value(bytes[at..at + width])
  }

  /** The header lengths and version words of the three protocols, as a collector has them from their
      specifications. */
  function HeadingBytes(v: Version): nat
  {
    match v
    case V5 => 24
    case V9 => 20
    case IPFIX => 16
  }

  function HeadingVersion(v: Version): nat
  {
    match v
    case V5 => 5
    case V9 => 9
    case IPFIX => 10
  }

  function DecodeHeader(v: Version, bytes: seq<Byte>): Option<Heading>
  {
    if |bytes| < HeadingBytes(v) || At(bytes, 0, 2) != HeadingVersion(v) then None
    else Some(
      match v
      case V5 => Heading(5, At(bytes, 2, 2), At(bytes, 16, 4), At(bytes, 8, 4), At(bytes, 4, 4), At(bytes, 12, 4), 0,
                         256 * At(bytes, 20, 1) + At(bytes, 21, 1), At(bytes, 22, 2))
      case V9 => Heading(9, At(bytes, 2, 2), At(bytes, 12, 4), At(bytes, 8, 4), At(bytes, 4, 4), 0, At(bytes, 16, 4), 0, 0)
      case IPFIX => Heading(10, At(bytes, 2, 2), At(bytes, 8, 4), At(bytes, 4, 4), 0, 0, At(bytes, 12, 4), 0, 0))
  }

  lemma AtField(bytes: seq<Byte>, at: nat, n: nat, width: nat)
    requires at + width <= |bytes| && bytes[at..at + width] == BE(n, width) && n < Pow256(width)
    ensures At(bytes, at, width) == n
  {
    hide BE, Pow256, Value;
    ValueOfBE(n, width);
    SmallModulo(n, Pow256(width));
  }

  /** Every header field has its own bytes, whatever follows the header. */
  lemma HeaderFields(h: Header, second: nat, rest: seq<Byte>)
    ensures var bytes := EncodeHeader(h, second) + rest;
      && bytes[0..2] == BE(VersionNumber(h.version), 2) && bytes[2..4] == BE(second, 2)
      && (h.version == V5 ==>
            && bytes[4..8] == BE(Uptime(h), 4) && bytes[8..12] == BE(h.exportNanos / NANOS_PER_SECOND, 4)
            && bytes[12..16] == BE(h.exportNanos % NANOS_PER_SECOND, 4) && bytes[16..20] == BE(h.sequence, 4)
            && bytes[20..21] == BE(h.engineType, 1) && bytes[21..22] == BE(h.engineID, 1)
            && bytes[22..24] == BE(h.samplingMode * 0x4000 + h.samplingInterval, 2))
      && (h.version == V9 ==>
            && bytes[4..8] == BE(Uptime(h), 4) && bytes[8..12] == BE(h.exportNanos / NANOS_PER_SECOND, 4)
            && bytes[12..16] == BE(h.sequence, 4) && bytes[16..20] == BE(h.sourceID, 4))
      && (h.version == IPFIX ==>
            && bytes[4..8] == BE(h.exportNanos / NANOS_PER_SECOND, 4)
            && bytes[8..12] == BE(h.sequence, 4) && bytes[12..16] == BE(h.domainID, 4))
  {
    hide BE, EncodeHeader;
    match h.version
    case V5 => V5HeaderFields(h, second, rest);
    case V9 => V9HeaderFields(h, second, rest);
    case IPFIX => IPFIXHeaderFields(h, second, rest);
  }

  /** Two-, two-, four- and four-byte parts at the front of a buffer. */
  lemma FrontParts(a: seq<Byte>, b: seq<Byte>, c: seq<Byte>, d: seq<Byte>, tail: seq<Byte>)
    requires |a| == 2 && |b| == 2 && |c| == 4 && |d| == 4
    ensures var bytes := a + b + c + d + tail;
      bytes[0..2] == a && bytes[2..4] == b && bytes[4..8] == c && bytes[8..12] == d && bytes[12..] == tail
  {}

  /** Two four-byte parts, wherever the buffer has them. */
  lemma NextParts(e: seq<Byte>, f: seq<Byte>, tail: seq<Byte>, bytes: seq<Byte>, at: nat)
    requires |e| == 4 && |f| == 4 && at <= |bytes| && bytes[at..] == e + f + tail
    ensures bytes[at..at + 4] == e && bytes[at + 4..at + 8] == f && bytes[at + 8..] == tail
  {}

  lemma V5HeaderFields(h: Header, second: nat, rest: seq<Byte>)
    requires h.version == V5
    ensures var bytes := EncodeHeader(h, second) + rest;
      && bytes[0..2] == BE(5, 2) && bytes[2..4] == BE(second, 2)
      && bytes[4..8] == BE(Uptime(h), 4) && bytes[8..12] == BE(h.exportNanos / NANOS_PER_SECOND, 4)
      && bytes[12..16] == BE(h.exportNanos % NANOS_PER_SECOND, 4) && bytes[16..20] == BE(h.sequence, 4)
      && bytes[20..21] == BE(h.engineType, 1) && bytes[21..22] == BE(h.engineID, 1)
      && bytes[22..24] == BE(h.samplingMode * 0x4000 + h.samplingInterval, 2)
  {
    hide BE, Uptime;
    var nanos, sequence := BE(h.exportNanos % NANOS_PER_SECOND, 4), BE(h.sequence, 4);
    var engine := BE(h.engineType, 1) + BE(h.engineID, 1);
    var tail := engine + BE(h.samplingMode * 0x4000 + h.samplingInterval, 2) + rest;
    var bytes := EncodeHeader(h, second) + rest;
    assert bytes == BE(5, 2) + BE(second, 2) + BE(Uptime(h), 4) + BE(h.exportNanos / NANOS_PER_SECOND, 4)
                    + (nanos + sequence + tail);
    FrontParts(BE(5, 2), BE(second, 2), BE(Uptime(h), 4), BE(h.exportNanos / NANOS_PER_SECOND, 4), nanos + sequence + tail);
    NextParts(nanos, sequence, tail, bytes, 12);
    assert bytes[20..21] == tail[0..1] && bytes[21..22] == tail[1..2] && bytes[22..24] == tail[2..4];
  }

  lemma V9HeaderFields(h: Header, second: nat, rest: seq<Byte>)
    requires h.version == V9
    ensures var bytes := EncodeHeader(h, second) + rest;
      && bytes[0..2] == BE(9, 2) && bytes[2..4] == BE(second, 2)
      && bytes[4..8] == BE(Uptime(h), 4) && bytes[8..12] == BE(h.exportNanos / NANOS_PER_SECOND, 4)
      && bytes[12..16] == BE(h.sequence, 4) && bytes[16..20] == BE(h.sourceID, 4)
  {
    hide BE, Uptime;
    var sequence, source := BE(h.sequence, 4), BE(h.sourceID, 4);
    var bytes := EncodeHeader(h, second) + rest;
    assert bytes == BE(9, 2) + BE(second, 2) + BE(Uptime(h), 4) + BE(h.exportNanos / NANOS_PER_SECOND, 4)
                    + (sequence + source + rest);
    FrontParts(BE(9, 2), BE(second, 2), BE(Uptime(h), 4), BE(h.exportNanos / NANOS_PER_SECOND, 4), sequence + source + rest);
    NextParts(sequence, source, rest, bytes, 12);
  }

  lemma IPFIXHeaderFields(h: Header, second: nat, rest: seq<Byte>)
    requires h.version == IPFIX
    ensures var bytes := EncodeHeader(h, second) + rest;
      && bytes[0..2] == BE(10, 2) && bytes[2..4] == BE(second, 2)
      && bytes[4..8] == BE(h.exportNanos / NANOS_PER_SECOND, 4)
      && bytes[8..12] == BE(h.sequence, 4) && bytes[12..16] == BE(h.domainID, 4)
  {
    hide BE, Uptime;
    var secs, sequence, domain := BE(h.exportNanos / NANOS_PER_SECOND, 4), BE(h.sequence, 4), BE(h.domainID, 4);
    var bytes := EncodeHeader(h, second) + rest;
    assert bytes == BE(10, 2) + BE(second, 2) + secs + sequence + (domain + rest);
    FrontParts(BE(10, 2), BE(second, 2), secs, sequence, domain + rest);
    assert bytes[12..16] == (domain + rest)[0..4];
  }

  ghost predicate HeaderInRange(h: Header, second: nat)
  {
    && second <= MAX_UINT16 && h.sequence <= MAX_UINT32 && h.sourceID <= MAX_UINT32 && h.domainID <= MAX_UINT32
    && h.engineType < 256 && h.engineID < 256
  }

  /** Reading a written header gives back every field the protocol has. */
  lemma HeaderRoundTrip(h: Header, second: nat, rest: seq<Byte>)
    requires ValidHeader(h) && WriterAccepts(h) && HeaderInRange(h, second)
    ensures var secs, nanos := h.exportNanos / NANOS_PER_SECOND, h.exportNanos % NANOS_PER_SECOND;
      DecodeHeader(h.version, EncodeHeader(h, second) + rest) == Some(
        match h.version
        case V5 => Heading(5, second, h.sequence, secs, Uptime(h), nanos, 0, 256 * h.engineType + h.engineID,
                           0x4000 * h.samplingMode + h.samplingInterval)
        case V9 => Heading(9, second, h.sequence, secs, Uptime(h), 0, h.sourceID, 0, 0)
        case IPFIX => Heading(10, second, h.sequence, secs, 0, 0, h.domainID, 0, 0))
  {
    hide BE, Pow256, Value, EncodeHeader;
    var bytes := EncodeHeader(h, second) + rest;
    HeaderFields(h, second, rest);
    Widths();
    AtField(bytes, 0, VersionNumber(h.version), 2);
    AtField(bytes, 2, second, 2);
    match h.version
    case V5 =>
      AtField(bytes, 4, Uptime(h), 4);
      AtField(bytes, 8, h.exportNanos / NANOS_PER_SECOND, 4);
      AtField(bytes, 12, h.exportNanos % NANOS_PER_SECOND, 4);
      AtField(bytes, 16, h.sequence, 4);
      AtField(bytes, 20, h.engineType, 1);
      AtField(bytes, 21, h.engineID, 1);
      AtField(bytes, 22, h.samplingMode * 0x4000 + h.samplingInterval, 2);
    case V9 =>
      AtField(bytes, 4, Uptime(h), 4);
      AtField(bytes, 8, h.exportNanos / NANOS_PER_SECOND, 4);
      AtField(bytes, 12, h.sequence, 4);
      AtField(bytes, 16, h.sourceID, 4);
    case IPFIX =>
      AtField(bytes, 4, h.exportNanos / NANOS_PER_SECOND, 4);
      AtField(bytes, 8, h.sequence, 4);
      AtField(bytes, 12, h.domainID, 4);
  }

  /** The instant a collector computes: for v5 and v9 the export time is the origin plus the uptime. */
  lemma UptimeIsExact(h: Header)
    requires WriterAccepts(h) && h.version != IPFIX
    ensures h.origin.Some? && h.origin.value + Uptime(h) * NANOS_PER_MS == h.exportNanos
  {}
}
