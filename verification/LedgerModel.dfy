/** The source ledger read as a plain sequence of per-record states.
    Nothing here knows about packed bits, counters or packet intervals: a record is
    pending because it says so. `SourceLedger` (Ledger.dfy) refines these operations. */
module LedgerModel {
  import opened Base

  const MAX_PENDING: nat := 1024
  const REASON_COUNT: nat := 13

  datatype Status =
    | Unsent
    | Pending
    | Confirmed
    | Ambiguous
    | Invalid(reason: nat)

  datatype LedgerError = BadOrdinal | BadPacket | Stopped | OverCapacity | BadWrite

  datatype Ledger = Ledger(records: seq<Status>, open: bool, stopped: bool)

  const EMPTY := Ledger([], false, false)

  /** Unknown reasons are recorded as "other". */
  function Reason(reason: int): (r: nat)
    ensures r < REASON_COUNT
  {
    if 0 <= reason < REASON_COUNT then reason else 0
  }

  /** How many records are in state `s`. */
  function Count(records: seq<Status>, s: Status): (n: nat)
    ensures n > 0 <==> s in records
  {
    if records == [] then 0
    else Count(records[..|records| - 1], s) + if records[|records| - 1] == s then 1 else 0
  }

  function PendingCount(l: Ledger): nat { Count(l.records, Pending) }

  lemma CountAppended(records: seq<Status>, added: Status, s: Status)
    ensures Count(records + [added], s) == Count(records, s) + if added == s then 1 else 0
  {
    assert (records + [added])[..|records|] == records;
  }

  lemma {:induction false} CountUpdated(records: seq<Status>, i: nat, now: Status, s: Status)
    requires i < |records|
    ensures Count(records[i := now], s) + (if records[i] == s then 1 else 0)
         == Count(records, s) + if now == s then 1 else 0
  {
    var last := |records| - 1;
    if i < last {
      CountUpdated(records[..last], i, now, s);
      assert records[i := now][..last] == records[..last][i := now];
    } else {
      assert records[i := now][..last] == records[..last];
    }
  }

  /** The next record the packetiser owes: unsent, with no earlier unsent record. */
  ghost predicate IsNextUnsent(records: seq<Status>, ordinal: nat)
  {
    ordinal < |records| && records[ordinal] == Unsent && forall i :: 0 <= i < ordinal ==> records[i] != Unsent
  }

  // ---- transitions ----------------------------------------------------------------------

  ghost predicate CanAddSource(l: Ledger, ordinal: nat) { ordinal == |l.records| && ordinal != MAX_UINT64 }

  function AddSource(l: Ledger, valid: bool, reason: int): Ledger
  {
    l.(records := l.records + [if valid then Unsent else Invalid(Reason(reason))])
  }

  ghost predicate CanInvalidate(l: Ledger, ordinal: nat)
  {
    ordinal < |l.records| && l.records[ordinal] == Unsent
  }

  function Invalidate(l: Ledger, ordinal: nat, reason: int): Ledger
    requires ordinal < |l.records|
  {
    l.(records := l.records[ordinal := Invalid(Reason(reason))])
  }

  ghost predicate CanBegin(l: Ledger) { !l.stopped && !l.open }

  function Begin(l: Ledger): Ledger { l.(open := true) }

  ghost predicate CanAddPending(l: Ledger, ordinal: nat)
  {
    !l.stopped && l.open && PendingCount(l) < MAX_PENDING && IsNextUnsent(l.records, ordinal)
  }

  /** Why a record is not admitted to the open packet; None exactly when CanAddPending. */
  ghost function AddPendingError(l: Ledger, ordinal: nat): (err: Option<LedgerError>)
    ensures err == None <==> CanAddPending(l, ordinal)
  {
    if l.stopped then Some(Stopped)
    else if !l.open then Some(BadPacket)
    else if ordinal >= |l.records| || l.records[ordinal] !in {Unsent, Pending} then Some(BadOrdinal)
    else if PendingCount(l) >= MAX_PENDING then Some(OverCapacity)
    else if !IsNextUnsent(l.records, ordinal) then Some(BadOrdinal)
    else None
  }

  function AddPending(l: Ledger, ordinal: nat): Ledger
    requires ordinal < |l.records|
  {
    l.(records := l.records[ordinal := Pending])
  }

  ghost predicate CanResolve(l: Ledger, write: WriteClass)
  {
    write != WriteInvalid && l.open && Pending in l.records
  }

  function Settle(records: seq<Status>, outcome: Status): (settled: seq<Status>)
    ensures |settled| == |records|
    ensures forall i :: 0 <= i < |records| ==>
      settled[i] == if records[i] == Pending then outcome else records[i]
  {
    if records == [] then []
    else Settle(records[..|records| - 1], outcome)
         + [if records[|records| - 1] == Pending then outcome else records[|records| - 1]]
  }

  /** The whole open packet is confirmed, or the whole packet is ambiguous and no packet follows. */
  function Resolve(l: Ledger, write: WriteClass): Ledger
  {
    if write == WriteFull then l.(records := Settle(l.records, Confirmed), open := false)
    else Ledger(Settle(l.records, Ambiguous), false, true)
  }

  ghost predicate CanAbort(l: Ledger) { l.open }

  function Abort(l: Ledger): Ledger { Ledger(Settle(l.records, Unsent), false, true) }

  // ---- invariant ------------------------------------------------------------------------

  /** Position of a valid record in the hand-off order. */
  function Rank(s: Status): nat
  {
    match s
    case Confirmed => 0
    case Pending => 1
    case Ambiguous => 1
    case Unsent => 2
    case Invalid(_) => 0
  }

  /** Valid records read Confirmed*, then the one pending or ambiguous packet, then Unsent*. */
  ghost predicate InOrder(records: seq<Status>)
  {
    forall i, j :: 0 <= i < j < |records| && !records[i].Invalid? && !records[j].Invalid? ==>
      Rank(records[i]) <= Rank(records[j])
  }

  ghost predicate Inv(l: Ledger)
  {
    && InOrder(l.records)
    && (Pending in l.records ==> l.open)
    && (Ambiguous in l.records ==> l.stopped)
    && (l.stopped ==> !l.open)
    && PendingCount(l) <= MAX_PENDING
    && Count(l.records, Ambiguous) <= MAX_PENDING
    && (forall i :: 0 <= i < |l.records| && l.records[i].Invalid? ==> l.records[i].reason < REASON_COUNT)
  }

  // ---- runs -----------------------------------------------------------------------------

  datatype Call =
    | AddSourceCall(ordinal: nat, valid: bool, reason: int)
    | InvalidateCall(ordinal: nat, reason: int)
    | BeginCall
    | AddPendingCall(ordinal: nat)
    | ResolveCall(write: WriteClass)
    | AbortCall

  /** One call in any state: a refused call changes nothing. */
  ghost function Apply(l: Ledger, c: Call): Ledger
  {
    match c
    case AddSourceCall(o, valid, reason) => if CanAddSource(l, o) then AddSource(l, valid, reason) else l
    case InvalidateCall(o, reason) => if CanInvalidate(l, o) then Invalidate(l, o, reason) else l
    case BeginCall => if CanBegin(l) then Begin(l) else l
    case AddPendingCall(o) => if CanAddPending(l, o) then AddPending(l, o) else l
    case ResolveCall(write) => if CanResolve(l, write) then Resolve(l, write) else l
    case AbortCall => if CanAbort(l) then Abort(l) else l
  }

  ghost function Run(l: Ledger, calls: seq<Call>): Ledger
    decreases |calls|
  {
    if calls == [] then l else Run(Apply(l, calls[0]), calls[1..])
  }

  lemma {:induction false} SettleCounts(records: seq<Status>, outcome: Status, s: Status)
    requires outcome != Pending
    ensures Count(Settle(records, outcome), s) ==
      if s == Pending then 0
      else if s == outcome then Count(records, s) + Count(records, Pending)
      else Count(records, s)
  {
    if records != [] {
      var last := |records| - 1;
      SettleCounts(records[..last], outcome, s);
      assert Settle(records, outcome)[..last] == Settle(records[..last], outcome);
    }
  }

  lemma SourceKeepsInv(l: Ledger, valid: bool, reason: int)
    requires Inv(l)
    ensures Inv(AddSource(l, valid, reason))
  {
    var status := if valid then Unsent else Invalid(Reason(reason));
    CountAppended(l.records, status, Pending);
    CountAppended(l.records, status, Ambiguous);
  }

  lemma InvalidateKeepsInv(l: Ledger, ordinal: nat, reason: int)
    requires Inv(l) && CanInvalidate(l, ordinal)
    ensures Inv(Invalidate(l, ordinal, reason))
  {
    CountUpdated(l.records, ordinal, Invalid(Reason(reason)), Pending);
    CountUpdated(l.records, ordinal, Invalid(Reason(reason)), Ambiguous);
  }

  lemma AddPendingKeepsInv(l: Ledger, ordinal: nat)
    requires Inv(l) && CanAddPending(l, ordinal)
    ensures Inv(AddPending(l, ordinal))
  {
    CountUpdated(l.records, ordinal, Pending, Pending);
    CountUpdated(l.records, ordinal, Pending, Ambiguous);
  }

  lemma SettleKeepsOrder(records: seq<Status>, outcome: Status)
    requires InOrder(records) && Ambiguous !in records
    requires outcome == Confirmed || outcome == Ambiguous || outcome == Unsent
    ensures InOrder(Settle(records, outcome))
  {
    hide Count, Settle;
    var settled := Settle(records, outcome);
    forall i, j | 0 <= i < j < |settled| && !settled[i].Invalid? && !settled[j].Invalid?
      ensures Rank(settled[i]) <= Rank(settled[j])
    {
      assert records[i] in records && records[j] in records;
      assert Rank(records[i]) <= Rank(records[j]);
    }
  }

  lemma SettleKeepsInv(l: Ledger, outcome: Status, next: Ledger)
    requires Inv(l) && l.open
    requires outcome == Confirmed || outcome == Ambiguous || outcome == Unsent
    requires next == Ledger(Settle(l.records, outcome), false, outcome != Confirmed)
    ensures Inv(next)
  {
    hide Count, Settle, InOrder;
    SettleCounts(l.records, outcome, Pending);
    SettleCounts(l.records, outcome, Ambiguous);
    SettleKeepsOrder(l.records, outcome);
  }

  lemma StepKeepsInv(l: Ledger, c: Call)
    requires Inv(l)
    ensures Inv(Apply(l, c))
  {
    match c
    case AddSourceCall(_, valid, reason) => SourceKeepsInv(l, valid, reason);
    case InvalidateCall(o, reason) => if CanInvalidate(l, o) { InvalidateKeepsInv(l, o, reason); }
    case BeginCall =>
    case AddPendingCall(o) => if CanAddPending(l, o) { AddPendingKeepsInv(l, o); }
    case ResolveCall(write) =>
      if CanResolve(l, write) {
        SettleKeepsInv(l, if write == WriteFull then Confirmed else Ambiguous, Resolve(l, write));
      }
    case AbortCall => if CanAbort(l) { SettleKeepsInv(l, Unsent, Abort(l)); }
  }

  /** Hand-off order over every run: Confirmed*, one bounded packet, Unsent*. */
  lemma {:induction false} RunKeepsInv(l: Ledger, calls: seq<Call>)
    requires Inv(l)
    ensures Inv(Run(l, calls))
    decreases |calls|
  {
    if calls != [] {
      StepKeepsInv(l, calls[0]);
      RunKeepsInv(Apply(l, calls[0]), calls[1..]);
    }
  }

  /** Over every run a record keeps its ordinal, and Confirmed, Ambiguous and Invalid are final. */
  lemma {:induction false} FinalStatesAreFinal(l: Ledger, calls: seq<Call>)
    ensures |l.records| <= |Run(l, calls).records|
    ensures forall i :: 0 <= i < |l.records| && l.records[i] !in {Unsent, Pending} ==>
      Run(l, calls).records[i] == l.records[i]
    decreases |calls|
  {
    if calls != [] {
      var next := Apply(l, calls[0]);
      assert forall i :: 0 <= i < |l.records| && l.records[i] !in {Unsent, Pending} ==>
        i < |next.records| && next.records[i] == l.records[i];
      FinalStatesAreFinal(next, calls[1..]);
    }
  }
}
