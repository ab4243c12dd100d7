/** Two-bit classes packed four to a byte, least significant pair first. */
module PackedBits {
  import opened LedgerModel

  const UNSENT_BITS: bv8 := 0
  const CONFIRMED_BITS: bv8 := 1
  const INVALID_BITS: bv8 := 2
  const AMBIGUOUS_BITS: bv8 := 3

  predicate IsShift(s: bv8) { s == 0 || s == 2 || s == 4 || s == 6 }

  function Shift(ordinal: nat): (s: bv8)
    ensures IsShift(s)
  {
    var k := ordinal % 4;
    if k == 0 then 0 else if k == 1 then 2 else if k == 2 then 4 else 6
  }

  function PairAt(b: bv8, s: bv8): bv8
    requires IsShift(s)
  {
    (b >> s) & 3
  }

  function StorePair(b: bv8, s: bv8, bits: bv8): bv8
    requires IsShift(s)
  {
    (b & !(3 << s)) | (bits << s)
  }

  lemma StoreTouchesOnePair(b: bv8, s: bv8, t: bv8, bits: bv8)
    requires IsShift(s) && IsShift(t) && bits <= 3
    ensures PairAt(StorePair(b, s, bits), t) == if s == t then bits else PairAt(b, t)
  {}

  function Slot(bytes: seq<bv8>, ordinal: nat): bv8
    requires ordinal / 4 < |bytes|
  {
    PairAt(bytes[ordinal / 4], Shift(ordinal))
  }

  /** The stored code of a record: pending records are stored as unsent. */
  function Code(s: Status): (bits: bv8)
    ensures bits <= 3
  {
    match s
    case Unsent => UNSENT_BITS
    case Pending => UNSENT_BITS
    case Confirmed => CONFIRMED_BITS
    case Invalid(_) => INVALID_BITS
    case Ambiguous => AMBIGUOUS_BITS
  }

  /** The bytes hold the records' codes, and every pair past the covered prefix is zero. */
  ghost predicate Represents(bytes: seq<bv8>, records: seq<Status>)
  {
    && |records| <= 4 * |bytes|
    && forall o: nat {:trigger Slot(bytes, o)} :: o < 4 * |bytes| ==>
         Slot(bytes, o) == if o < |records| then Code(records[o]) else UNSENT_BITS
  }

  lemma StoreTouchesOneSlot(bytes: seq<bv8>, ordinal: nat, bits: bv8)
    requires ordinal / 4 < |bytes| && bits <= 3
    ensures var after := bytes[ordinal / 4 := StorePair(bytes[ordinal / 4], Shift(ordinal), bits)];
      forall o: nat :: o < 4 * |bytes| ==> Slot(after, o) == if o == ordinal then bits else Slot(bytes, o)
  {
    var after := bytes[ordinal / 4 := StorePair(bytes[ordinal / 4], Shift(ordinal), bits)];
    forall o: nat | o < 4 * |bytes|
      ensures Slot(after, o) == if o == ordinal then bits else Slot(bytes, o)
    {
      if o / 4 == ordinal / 4 {
        StoreTouchesOnePair(bytes[ordinal / 4], Shift(ordinal), Shift(o), bits);
        assert Shift(o) == Shift(ordinal) ==> o % 4 == ordinal % 4;
      }
    }
  }

  /** Appending zero bytes changes no stored code. */
  lemma GrowthKeepsRepresentation(bytes: seq<bv8>, grown: seq<bv8>, records: seq<Status>)
    requires Represents(bytes, records)
    requires |bytes| <= |grown| && grown[..|bytes|] == bytes
    requires forall i :: |bytes| <= i < |grown| ==> grown[i] == 0
    ensures Represents(grown, records)
  {
    forall o: nat | o < 4 * |grown|
      ensures Slot(grown, o) == if o < |records| then Code(records[o]) else UNSENT_BITS
    {
      if o / 4 < |bytes| {
        assert grown[o / 4] == bytes[o / 4];
        assert Slot(bytes, o) == Slot(grown, o);
      } else {
        assert PairAt(0, Shift(o)) == 0;
      }
    }
  }

  /** An unsent record needs no store: its bits are already zero. */
  lemma RepresentsAppended(bytes: seq<bv8>, records: seq<Status>)
    requires Represents(bytes, records) && |records| / 4 < |bytes|
    ensures Represents(bytes, records + [Unsent])
  {}

  lemma StoredIsCode(bytes: seq<bv8>, records: seq<Status>, ordinal: nat)
    requires Represents(bytes, records) && ordinal < |records|
    ensures ordinal / 4 < |bytes| && Slot(bytes, ordinal) == Code(records[ordinal])
  {}

  lemma RepresentsPending(bytes: seq<bv8>, records: seq<Status>, ordinal: nat)
    requires Represents(bytes, records) && ordinal < |records| && records[ordinal] == Unsent
    ensures Represents(bytes, records[ordinal := Pending])
  {}

  lemma RepresentsReleased(bytes: seq<bv8>, records: seq<Status>)
    requires Represents(bytes, records)
    ensures Represents(bytes, Settle(records, Unsent))
  {}
}
