/** The request ledger: two bits a record in a growable byte array, scalar counters and one open
    packet interval. Its ghost field `ledger` is the plain reading of the same state, and every
    method is proved to be the plain operation of LedgerModel, refused calls included. */
module SourceLedgers {
  import opened Base
  import opened LedgerModel
  import opened PackedBits

  /** The scalar counters agree with the records they count. */
  ghost predicate Tallied(records: seq<Status>, valid: nat, invalid: nat, confirmed: nat, ambiguous: nat,
                          pending: nat, rejections: seq<nat>)
  {
    && |records| == valid + invalid
    && confirmed == Count(records, Confirmed)
    && ambiguous == Count(records, Ambiguous)
    && pending == Count(records, Pending)
    && |rejections| == REASON_COUNT
    && (forall r :: 0 <= r < REASON_COUNT ==> rejections[r] == Count(records, Invalid(r)))
    && valid == Count(records, Unsent) + Count(records, Pending) + confirmed + ambiguous
    && invalid == Sum(rejections)
  }

  /** The packet interval says which records are pending: gap-freedom without a bit per record. */
  ghost predicate Spans(records: seq<Status>, floor: nat, start: nat, end: nat, pending: nat)
  {
    && floor <= |records| && end <= |records|
    && (forall i :: 0 <= i < floor ==> records[i] == Confirmed || records[i].Invalid?)
    && (forall i :: floor <= i < |records| ==> records[i] != Confirmed)
    && (if pending == 0 then start == end == 0 && Pending !in records
        else
          && floor <= start < end
          && (forall i :: floor <= i < start ==> records[i].Invalid?)
          && (forall i :: start <= i < end ==> records[i] == Pending || records[i].Invalid?)
          && (forall i :: end <= i < |records| ==> records[i] != Pending))
  }

  function Bump(rejections: seq<nat>, reason: nat): seq<nat>
    requires reason < |rejections|
  {
    rejections[reason := rejections[reason] + 1]
  }

  lemma {:induction false} SumZeros(n: nat)
    ensures Sum(seq(n, _ => 0)) == 0
  {
    if n > 0 {
      SumZeros(n - 1);
      assert seq(n, _ => 0)[..n - 1] == seq(n - 1, _ => 0);
    }
  }

  lemma {:induction false} SumBump(rejections: seq<nat>, reason: nat)
    requires reason < |rejections|
    ensures Sum(Bump(rejections, reason)) == Sum(rejections) + 1
  {
    var last := |rejections| - 1;
    if reason < last {
      SumBump(rejections[..last], reason);
      assert Bump(rejections, reason)[..last] == Bump(rejections[..last], reason);
    } else {
      assert Bump(rejections, reason)[..last] == rejections[..last];
    }
  }

  lemma TallyAppended(records: seq<Status>, status: Status, v: nat, i: nat, c: nat, a: nat, p: nat, rs: seq<nat>)
    requires Tallied(records, v, i, c, a, p, rs)
    requires status == Unsent || (status.Invalid? && status.reason < REASON_COUNT)
    ensures |rs| == REASON_COUNT
    ensures status == Unsent ==> Tallied(records + [status], v + 1, i, c, a, p, rs)
    ensures status != Unsent ==> Tallied(records + [status], v, i + 1, c, a, p, Bump(rs, status.reason))
  {
    forall s { CountAppended(records, status, s); }
    if status != Unsent {
      SumBump(rs, status.reason);
    }
  }

  lemma TallyInvalidated(records: seq<Status>, o: nat, r: nat, v: nat, i: nat, c: nat, a: nat, p: nat, rs: seq<nat>)
    requires Tallied(records, v, i, c, a, p, rs)
    requires o < |records| && records[o] == Unsent && r < REASON_COUNT
    ensures v >= 1 && |rs| == REASON_COUNT && Tallied(records[o := Invalid(r)], v - 1, i + 1, c, a, p, Bump(rs, r))
  {
    forall s { CountUpdated(records, o, Invalid(r), s); }
    SumBump(rs, r);
  }

  lemma SpansKept(before: seq<Status>, after: seq<Status>, floor: nat, start: nat, end: nat, pending: nat)
    requires Spans(before, floor, start, end, pending)
    requires |before| <= |after|
    requires forall i :: 0 <= i < |before| ==> after[i] == before[i] || (before[i] == Unsent && after[i].Invalid?)
    requires forall i :: |before| <= i < |after| ==> after[i] == Unsent || after[i].Invalid?
    ensures Spans(after, floor, start, end, pending)
  {
    assert forall i :: 0 <= i < |before| && after[i] == Pending ==> before[i] == Pending;
  }

  /** The two gap scans of addPending decide exactly whether the ordinal is the next unsent record. */
  lemma GapScanFindsNext(records: seq<Status>, floor: nat, start: nat, end: nat, pending: nat, ordinal: nat)
    requires Spans(records, floor, start, end, pending) && Ambiguous !in records
    requires ordinal < |records| && (records[ordinal] == Unsent || records[ordinal] == Pending)
    ensures var from := if pending == 0 then floor else end;
      IsNextUnsent(records, ordinal) <==>
        from <= ordinal && forall i :: from <= i < ordinal ==> records[i].Invalid?
    ensures pending == 0 ==> floor <= ordinal
  {
    assert forall i :: 0 <= i < |records| ==> records[i] != Ambiguous;
  }

  lemma PendingJoins(records: seq<Status>, floor: nat, start: nat, end: nat, pending: nat, ordinal: nat)
    requires Spans(records, floor, start, end, pending) && IsNextUnsent(records, ordinal)
    requires Ambiguous !in records
    ensures Spans(records[ordinal := Pending], floor, if pending == 0 then ordinal else start, ordinal + 1, pending + 1)
  {
    assert forall i :: 0 <= i < |records| ==> records[i] != Ambiguous;
  }

  lemma TallyPending(records: seq<Status>, o: nat, v: nat, i: nat, c: nat, a: nat, p: nat, rs: seq<nat>)
    requires Tallied(records, v, i, c, a, p, rs)
    requires o < |records| && records[o] == Unsent
    ensures Tallied(records[o := Pending], v, i, c, a, p + 1, rs)
  {
    forall s { CountUpdated(records, o, Pending, s); }
  }

  lemma TallySettled(records: seq<Status>, outcome: Status, v: nat, i: nat, c: nat, a: nat, p: nat, rs: seq<nat>)
    requires Tallied(records, v, i, c, a, p, rs)
    requires outcome == Confirmed || outcome == Ambiguous || outcome == Unsent
    ensures Tallied(Settle(records, outcome), v, i, if outcome == Confirmed then c + p else c,
                    if outcome == Ambiguous then a + p else a, 0, rs)
  {
    hide Count, Settle, Sum;
    SettleCounts(records, outcome, Unsent);
    SettleCounts(records, outcome, Pending);
    SettleCounts(records, outcome, Confirmed);
    SettleCounts(records, outcome, Ambiguous);
    forall r | 0 <= r < REASON_COUNT
      ensures Count(Settle(records, outcome), Invalid(r)) == Count(records, Invalid(r))
    {
      SettleCounts(records, outcome, Invalid(r));
    }
  }

  lemma SpansSettled(records: seq<Status>, outcome: Status, floor: nat, start: nat, end: nat, pending: nat)
    requires Spans(records, floor, start, end, pending)
    requires outcome == Confirmed || outcome == Ambiguous || outcome == Unsent
    requires outcome == Confirmed ==> pending > 0
    ensures Spans(Settle(records, outcome), if outcome == Confirmed then end else floor, 0, 0, 0)
  {
    hide Settle;
    assert forall i :: 0 <= i < |records| ==> Settle(records, outcome)[i] != Pending;
  }

  /** The records after the marking loop has passed the first `k` of them. */
  ghost function SettledUpTo(records: seq<Status>, k: nat, outcome: Status): seq<Status>
    requires k <= |records|
  {
    Settle(records[..k], outcome) + records[k..]
  }

  lemma {:induction false} SettledUpToEnds(records: seq<Status>, start: nat, end: nat, outcome: Status)
    requires start <= end <= |records|
    requires forall i :: 0 <= i < start || end <= i < |records| ==> records[i] != Pending
    ensures SettledUpTo(records, start, outcome) == records
    ensures SettledUpTo(records, end, outcome) == Settle(records, outcome)
  {}

  lemma SettledUpToNext(records: seq<Status>, k: nat, outcome: Status)
    requires k < |records|
    ensures SettledUpTo(records, k + 1, outcome) ==
      if records[k] == Pending then SettledUpTo(records, k, outcome)[k := outcome] else SettledUpTo(records, k, outcome)
    ensures SettledUpTo(records, k, outcome)[k] == records[k]
  {}

  lemma TalliesMeanCounts(records: seq<Status>, v: nat, i: nat, c: nat, a: nat, p: nat, rs: seq<nat>)
    requires Tallied(records, v, i, c, a, p, rs)
    ensures p == Count(records, Pending)
    ensures a == 0 <==> Ambiguous !in records
    ensures p == 0 <==> Pending !in records
  {}

  lemma NextIsUnsent(records: seq<Status>, ordinal: nat)
    requires IsNextUnsent(records, ordinal)
    ensures ordinal < |records| && records[ordinal] == Unsent
  {}

  datatype Tally = Tally(covered: nat, valid: nat, invalid: nat, unsent: nat, confirmed: nat, ambiguous: nat,
                         pending: nat)

  function CountInvalid(records: seq<Status>): nat
  {
    if records == [] then 0
    else CountInvalid(records[..|records| - 1]) + if records[|records| - 1].Invalid? then 1 else 0
  }

  function TallyOf(records: seq<Status>): Tally
  {
    var unsent := Count(records, Unsent) + Count(records, Pending);
    var confirmed, ambiguous := Count(records, Confirmed), Count(records, Ambiguous);
    Tally(|records|, unsent + confirmed + ambiguous, CountInvalid(records), unsent, confirmed, ambiguous,
          Count(records, Pending))
  }

  lemma {:induction false} TotalIsCovered(records: seq<Status>)
    ensures |records| == Count(records, Unsent) + Count(records, Pending) + Count(records, Confirmed)
                         + Count(records, Ambiguous) + CountInvalid(records)
  {
    if records != [] {
      TotalIsCovered(records[..|records| - 1]);
    }
  }

  datatype Resolution = Resolution(write: WriteClass, confirmed: nat, ambiguous: nat)

  class SourceLedger {
    var classes: array<bv8>
    var rejections: seq<nat>
    var covered: nat
    var valid: nat
    var invalid: nat
    var confirmed: nat
    var ambiguous: nat
    var packetOpen: bool
    var packetStart: nat
    var packetEnd: nat
    var packetValid: nat
    var packetFloor: nat
    var stopped: bool
    ghost var ledger: Ledger

    ghost predicate Valid()
      reads this, classes
    {
      && Represents(classes[..], ledger.records)
      && covered == |ledger.records| <= MAX_UINT64
      && Tallied(ledger.records, valid, invalid, confirmed, ambiguous, packetValid, rejections)
      && Spans(ledger.records, packetFloor, packetStart, packetEnd, packetValid)
      && packetOpen == ledger.open && stopped == ledger.stopped
      && (stopped ==> !packetOpen) && (!stopped ==> ambiguous == 0)
      && (packetValid > 0 ==> packetOpen) && packetValid <= MAX_PENDING
    }

    constructor ()
      ensures Valid() && fresh(classes)
      ensures ledger == EMPTY
    {
      classes := new bv8[0];
      SumZeros(REASON_COUNT);
      rejections := seq(REASON_COUNT, _ => 0);
      covered, valid, invalid, confirmed, ambiguous := 0, 0, 0, 0, 0;
      packetOpen, packetStart, packetEnd, packetValid, packetFloor, stopped := false, 0, 0, 0, 0, false;
      ledger := EMPTY;
    }

    method EnsureOrdinal(ordinal: nat) returns (err: Option<LedgerError>)
      requires Valid() && ordinal < MAX_UINT64
      modifies this`classes
      ensures Valid() && err == None
      ensures ordinal / 4 < classes.Length
      ensures classes == old(classes) || fresh(classes)
    {
      hide Tallied, Spans, Count;
      var need := ordinal / 4 + 1;
      if need > MAX_INT64 {
        return Some(OverCapacity);
      }
      if need <= classes.Length {
        return None;
      }
      var newLen := need;
      if newLen < classes.Length * 2 {
        newLen := classes.Length * 2;
        if newLen == 0 {
          newLen := 1;
        }
      }
      ghost var before := classes[..];
      var grown := new bv8[newLen](_ => 0);
      forall i | 0 <= i < classes.Length {
        grown[i] := classes[i];
      }
      assert grown[..classes.Length] == before;
      GrowthKeepsRepresentation(before, grown[..], ledger.records);
      classes := grown;
      return None;
    }

    method SetStoredClass(ordinal: nat, bits: bv8, ghost records: seq<Status>, ghost status: Status)
      requires Represents(classes[..], records) && ordinal < |records| && bits == Code(status)
      modifies classes
      ensures Represents(classes[..], records[ordinal := status]) && unchanged(this)
    {
      var slot := ordinal / 4;
      StoreTouchesOneSlot(classes[..], ordinal, bits);
      ghost var before := classes[..];
      classes[slot] := StorePair(classes[slot], Shift(ordinal), bits);
      assert classes[..] == before[slot := StorePair(before[slot], Shift(ordinal), bits)];
    }

    method StoredClass(ordinal: nat, ghost records: seq<Status>) returns (bits: bv8)
      requires Represents(classes[..], records) && ordinal < |records|
      ensures bits == Code(records[ordinal])
    {
      StoredIsCode(classes[..], records, ordinal);
      bits := PairAt(classes[ordinal / 4], Shift(ordinal));
    }

    method AddSource(ordinal: nat, isValid: bool, reason: int) returns (err: Option<LedgerError>)
      requires Valid()
      modifies this, classes
      ensures Valid() && (classes == old(classes) || fresh(classes))
      ensures err == None <==> CanAddSource(old(ledger), ordinal)
      ensures err == None ==> ledger == LedgerModel.AddSource(old(ledger), isValid, reason)
      ensures err != None ==> err == Some(BadOrdinal) && unchanged(this) && unchanged(classes)
    {
      hide Tallied, Represents, Spans, Count, Sum;
      if ordinal != covered || ordinal == MAX_UINT64 {
        return Some(BadOrdinal);
      }
      err := EnsureOrdinal(ordinal);
      RepresentsAppended(classes[..], ledger.records);
      ghost var was := ledger.records;
      ghost var status := if isValid then Unsent else Invalid(Reason(reason));
      TallyAppended(was, status, valid, invalid, confirmed, ambiguous, packetValid, rejections);
      SpansKept(was, was + [status], packetFloor, packetStart, packetEnd, packetValid);
      ledger := LedgerModel.AddSource(ledger, isValid, reason);
      assert ledger.records == was + [status];
      if isValid {
        valid := valid + 1;
      } else {
        invalid := invalid + 1;
        SetStoredClass(ordinal, INVALID_BITS, was + [Unsent], status);
        assert (was + [Unsent])[ordinal := status] == was + [status];
        rejections := Bump(rejections, Reason(reason));
      }
      covered := covered + 1;
    }

    method Invalidate(ordinal: nat, reason: int) returns (err: Option<LedgerError>)
      requires Valid()
      modifies this, classes
      ensures Valid() && classes == old(classes)
      ensures err == None <==> CanInvalidate(old(ledger), ordinal)
      ensures err == None ==> ledger == LedgerModel.Invalidate(old(ledger), ordinal, reason)
      ensures err != None ==> err == Some(BadOrdinal) && unchanged(this) && unchanged(classes)
    {
      hide Tallied, Represents, Count;
      if ordinal >= covered {
        return Some(BadOrdinal);
      }
      var stored := StoredClass(ordinal, ledger.records);
      if stored != UNSENT_BITS {
        return Some(BadOrdinal);
      }
      if packetOpen && packetStart <= ordinal < packetEnd {
        return Some(BadOrdinal);
      }
      ghost var was := ledger.records;
      ghost var status := Invalid(Reason(reason));
      TallyInvalidated(was, ordinal, Reason(reason), valid, invalid, confirmed, ambiguous, packetValid, rejections);
      SpansKept(was, was[ordinal := status], packetFloor, packetStart, packetEnd, packetValid);
      ledger := LedgerModel.Invalidate(ledger, ordinal, reason);
      valid := valid - 1;
      invalid := invalid + 1;
      SetStoredClass(ordinal, INVALID_BITS, was, status);
      rejections := Bump(rejections, Reason(reason));
      err := None;
    }

    method BeginPacket() returns (err: Option<LedgerError>)
      requires Valid()
      modifies this
      ensures Valid() && classes == old(classes)
      ensures err == None <==> CanBegin(old(ledger))
      ensures err == None ==> ledger == Begin(old(ledger))
      ensures err != None ==> unchanged(this) && err == Some(if old(ledger).stopped then Stopped else BadPacket)
    {
      hide Tallied, Represents, Count;
      if stopped {
        return Some(Stopped);
      }
      if packetOpen {
        return Some(BadPacket);
      }
      packetOpen := true;
      packetStart, packetEnd, packetValid := 0, 0, 0;
      ledger := Begin(ledger);
      err := None;
    }

    method InvalidGap(start: nat, end: nat, ghost records: seq<Status>) returns (gap: bool)
      requires Represents(classes[..], records) && end <= |records|
      ensures gap <==> forall i :: start <= i < end ==> records[i].Invalid?
    {
      hide Represents;
      var ordinal := start;
      while ordinal < end
        invariant forall i :: start <= i < ordinal && i < end ==> records[i].Invalid?
      {
        var bits := StoredClass(ordinal, records);
        if bits != INVALID_BITS {
          return false;
        }
        ordinal := ordinal + 1;
      }
      return true;
    }

    method AddPending(ordinal: nat) returns (err: Option<LedgerError>)
      requires Valid()
      modifies this
      ensures Valid() && classes == old(classes)
      ensures err == AddPendingError(old(ledger), ordinal)
      ensures err == None ==> ledger == LedgerModel.AddPending(old(ledger), ordinal)
      ensures err != None ==> unchanged(this)
    {
      hide Tallied, Represents, Spans, Sum, IsNextUnsent, Count;
      if stopped {
        return Some(Stopped);
      }
      if !packetOpen {
        return Some(BadPacket);
      }
      TalliesMeanCounts(ledger.records, valid, invalid, confirmed, ambiguous, packetValid, rejections);
      if ordinal >= covered {
        return Some(BadOrdinal);
      }
      var bits := StoredClass(ordinal, ledger.records);
      if bits != UNSENT_BITS {
        return Some(BadOrdinal);
      }
      if packetValid >= MAX_PENDING || ordinal == MAX_UINT64 {
        return Some(OverCapacity);
      }
      ghost var was := ledger.records;
      GapScanFindsNext(was, packetFloor, packetStart, packetEnd, packetValid, ordinal);
      if packetValid == 0 {
        var gap := InvalidGap(packetFloor, ordinal, was);
        if !gap {
          return Some(BadOrdinal);
        }
      } else {
        if ordinal < packetEnd {
          return Some(BadOrdinal);
        }
        var gap := InvalidGap(packetEnd, ordinal, was);
        if !gap {
          return Some(BadOrdinal);
        }
      }
      PendingJoins(was, packetFloor, packetStart, packetEnd, packetValid, ordinal);
      NextIsUnsent(was, ordinal);
      TallyPending(was, ordinal, valid, invalid, confirmed, ambiguous, packetValid, rejections);
      RepresentsPending(classes[..], was, ordinal);
      if packetValid == 0 {
        packetStart, packetEnd, packetValid := ordinal, ordinal + 1, 1;
      } else {
        packetEnd := ordinal + 1;
        packetValid := packetValid + 1;
      }
      ledger := LedgerModel.AddPending(ledger, ordinal);
      return None;
    }

    method MarkPending(bits: bv8, ghost records: seq<Status>, ghost outcome: Status)
      requires Represents(classes[..], records) && Spans(records, packetFloor, packetStart, packetEnd, packetValid)
      requires packetValid > 0 && bits == Code(outcome) && outcome != Pending
      modifies classes
      ensures Represents(classes[..], Settle(records, outcome)) && unchanged(this)
    {
      hide Represents, Settle;
      SettledUpToEnds(records, packetStart, packetEnd, outcome);
      var ordinal := packetStart;
      while ordinal < packetEnd
        invariant packetStart <= ordinal <= packetEnd
        invariant Represents(classes[..], SettledUpTo(records, ordinal, outcome))
      {
        SettledUpToNext(records, ordinal, outcome);
        ghost var marked := SettledUpTo(records, ordinal, outcome);
        var stored := StoredClass(ordinal, marked);
        if stored == UNSENT_BITS {
          SetStoredClass(ordinal, bits, marked, outcome);
        }
        ordinal := ordinal + 1;
      }
    }

    method ResolvePacket(n: int, length: int, failed: bool) returns (resolution: Resolution, err: Option<LedgerError>)
      requires Valid()
      modifies this, classes
      ensures Valid() && classes == old(classes)
      ensures var write := ClassifyWrite(n, length, failed);
        && (err == None <==> CanResolve(old(ledger), write))
        && (err == None ==> ledger == Resolve(old(ledger), write))
        && (err == None ==> resolution == Resolution(write,
              if write == WriteFull then PendingCount(old(ledger)) else 0,
              if write == WriteFull then 0 else PendingCount(old(ledger))))
        && (err != None ==> err == Some(if write == WriteInvalid then BadWrite else BadPacket))
      ensures err != None ==> unchanged(this) && unchanged(classes)
    {
      hide Tallied, Represents, Spans, Sum, Settle, Count;
      var write := ClassifyWrite(n, length, failed);
      TalliesMeanCounts(ledger.records, valid, invalid, confirmed, ambiguous, packetValid, rejections);
      if write == WriteInvalid {
        return Resolution(write, 0, 0), Some(BadWrite);
      }
      if !packetOpen || packetValid == 0 {
        return Resolution(write, 0, 0), Some(BadPacket);
      }
      ghost var was := ledger.records;
      ghost var outcome := if write == WriteFull then Confirmed else Ambiguous;
      TallySettled(was, outcome, valid, invalid, confirmed, ambiguous, packetValid, rejections);
      SpansSettled(was, outcome, packetFloor, packetStart, packetEnd, packetValid);
      if write == WriteFull {
        MarkPending(CONFIRMED_BITS, was, Confirmed);
        confirmed := confirmed + packetValid;
        packetFloor := packetEnd;
        resolution := Resolution(write, packetValid, 0);
      } else {
        MarkPending(AMBIGUOUS_BITS, was, Ambiguous);
        ambiguous := ambiguous + packetValid;
        stopped := true;
        resolution := Resolution(write, 0, packetValid);
      }
      packetOpen := false;
      packetStart, packetEnd, packetValid := 0, 0, 0;
      ledger := Resolve(ledger, write);
      err := None;
    }

    method AbortPacket() returns (err: Option<LedgerError>)
      requires Valid()
      modifies this
      ensures Valid() && classes == old(classes)
      ensures err == None <==> CanAbort(old(ledger))
      ensures err == None ==> ledger == Abort(old(ledger))
      ensures err != None ==> err == Some(BadPacket) && unchanged(this)
    {
      hide Tallied, Represents, Spans, Sum, Settle, Count;
      if !packetOpen {
        return Some(BadPacket);
      }
      TallySettled(ledger.records, Unsent, valid, invalid, confirmed, ambiguous, packetValid, rejections);
      SpansSettled(ledger.records, Unsent, packetFloor, packetStart, packetEnd, packetValid);
      RepresentsReleased(classes[..], ledger.records);
      packetOpen := false;
      packetStart, packetEnd, packetValid := 0, 0, 0;
      stopped := true;
      ledger := Abort(ledger);
      err := None;
    }

    /** The externally visible class of an ordinal; None past the covered prefix. */
    method Classification(ordinal: nat) returns (visible: Option<bv8>)
      requires Valid()
      ensures visible == if ordinal < |ledger.records| then Some(Code(ledger.records[ordinal])) else None
    {
      hide Tallied, Represents, Spans;
      if ordinal >= covered {
        return None;
      }
      var bits := StoredClass(ordinal, ledger.records);
      return Some(bits);
    }

    /** Covered, valid, invalid, unsent (pending included), confirmed, ambiguous and pending counts. */
    method Counts() returns (c: Tally)
      requires Valid()
      ensures c == TallyOf(ledger.records)
    {
      hide Represents, Spans, Count;
      c := Tally(covered, valid, invalid, valid - confirmed - ambiguous, confirmed, ambiguous, packetValid);
      TotalIsCovered(ledger.records);
    }
  }
}
