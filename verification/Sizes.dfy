/** Encoded sizes of headers, data sets and datagrams, shared by the state machine, the packer and
    the wire writers. Every sum is checked against a 16-bit ceiling before it is used, so the 64-bit
    arithmetic of the source cannot wrap and is written here on naturals. */
module Sizes {
  import opened Base

  datatype Version = V5 | V9 | IPFIX

  const MAX_RECORDS: nat := 65535
  const MAX_SET_BYTES: nat := 65535
  const MAX_RECORD_BYTES: nat := 65535
  const MAX_TEMPLATE_BYTES: nat := 4096
  const SET_HEADER_BYTES: nat := 4
  const V5_MAX_RECORDS: nat := 30

  function HeaderBytes(v: Version): nat
  {
    match v
    case V5 => 24
    case V9 => 20
    case IPFIX => 16
  }

  datatype SetSize = SetSize(length: nat, padding: nat)

  function Padding(rawLength: nat, minimum: nat): nat
  {
    var remainder := rawLength % 4;
    if remainder != 0 && 4 - remainder < minimum then 4 - remainder else 0
  }

  /** DataSetSizeForEncoded: the size of one data set holding `count` records of `bytes` bytes in all. */
  function DataSetSize(v: Version, minimum: nat, variable: bool, bytes: nat, count: nat): Option<SetSize>
  {
    if count > MAX_RECORDS then None
    else if count == 0 then (if bytes != 0 then None else Some(SetSize(0, 0)))
    else if bytes < count * minimum then None
    else if !variable && bytes != count * minimum then None
    else if v == V5 then (if bytes > MAX_SET_BYTES then None else Some(SetSize(bytes, 0)))
    else
      var raw := SET_HEADER_BYTES + bytes;
      if raw > MAX_SET_BYTES || raw + Padding(raw, minimum) > MAX_SET_BYTES then None
      else Some(SetSize(raw + Padding(raw, minimum), Padding(raw, minimum)))
  }

  /** Padded size is monotone in the records: a prefix of what fits, fits. */
  lemma PaddedMonotone(v: Version, minimum: nat, variable: bool, b1: nat, c1: nat, b2: nat, c2: nat)
    requires minimum > 0 && 0 < c1 && DataSetSize(v, minimum, variable, b2, c2).Some?
    requires c1 <= c2 && (b1 == b2 || b1 + minimum <= b2)
    requires b1 >= c1 * minimum && (!variable ==> b1 == c1 * minimum)
    ensures DataSetSize(v, minimum, variable, b1, c1).Some?
    ensures DataSetSize(v, minimum, variable, b1, c1).value.length <= DataSetSize(v, minimum, variable, b2, c2).value.length
  {}

  /** ValidatePayloadLength: a zero budget leaves only the 16-bit ceiling. */
  predicate PayloadFits(payload: nat, budget: nat)
  {
    payload <= MAX_UINT16 && (budget != 0 ==> budget <= MAX_UINT16 && payload <= budget)
  }
}
