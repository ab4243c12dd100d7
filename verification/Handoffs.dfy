/** The packer's account of one request: which records went out in which datagram, and how that
    account, the ledger and the state machine stay in step. */
module Handoffs {
  import opened Base
  import opened LedgerModel
  import SM = StateModel

  /** One data datagram given to the transport, with the class of the answer. */
  datatype Handoff = Handoff(ordinals: seq<nat>, shape: nat, sampling: nat, length: nat, write: WriteClass)

  predicate Ambiguates(write: WriteClass) { write != WriteFull && write != WriteInvalid }

  ghost predicate Confirms(handoffs: seq<Handoff>, ordinal: nat)
  {
    exists k :: 0 <= k < |handoffs| && handoffs[k].write == WriteFull && ordinal in handoffs[k].ordinals
  }

  ghost predicate MakesAmbiguous(handoffs: seq<Handoff>, ordinal: nat)
  {
    exists k :: 0 <= k < |handoffs| && Ambiguates(handoffs[k].write) && ordinal in handoffs[k].ordinals
  }

  /** Every ordinal handed off, in hand-off order. */
  function Flatten(handoffs: seq<Handoff>): seq<nat>
  {
    if handoffs == [] then [] else Flatten(handoffs[..|handoffs| - 1]) + handoffs[|handoffs| - 1].ordinals
  }

  ghost predicate Increasing(xs: seq<nat>) { forall i, j :: 0 <= i < j < |xs| ==> xs[i] < xs[j] }

  /** The datagrams that were written in full, as the data packets they are. */
  function FullPackets(handoffs: seq<Handoff>): seq<SM.Kind>
  {
    if handoffs == [] then []
    else FullPackets(handoffs[..|handoffs| - 1]) + PacketsOf(handoffs[|handoffs| - 1])
  }

  function PacketsOf(h: Handoff): seq<SM.Kind>
  {
    if h.write == WriteFull then [SM.Data(h.shape, |h.ordinals|)] else []
  }

  /** The datagrams whose delivery is unknown. */
  function Doubtful(handoffs: seq<Handoff>): nat
  {
    if handoffs == [] then 0
    else Doubtful(handoffs[..|handoffs| - 1]) + if Ambiguates(handoffs[|handoffs| - 1].write) then 1 else 0
  }

  lemma DoubtfulGrows(handoffs: seq<Handoff>, h: Handoff)
    ensures Doubtful(handoffs + [h]) == Doubtful(handoffs) + if Ambiguates(h.write) then 1 else 0
  {
    assert (handoffs + [h])[..|handoffs|] == handoffs;
  }

  /** Data records in a list of packets. */
  function TotalRecords(kinds: seq<SM.Kind>): nat
  {
    if kinds == [] then 0
    else TotalRecords(kinds[..|kinds| - 1]) + if kinds[|kinds| - 1].Data? then kinds[|kinds| - 1].records else 0
  }

  /** No datagram follows one that was not written in full. */
  ghost predicate StopsAtFailure(handoffs: seq<Handoff>)
  {
    forall k :: 0 <= k < |handoffs| - 1 ==> handoffs[k].write == WriteFull
  }

  ghost predicate AllFull(handoffs: seq<Handoff>)
  {
    forall k :: 0 <= k < |handoffs| ==> handoffs[k].write == WriteFull
  }

  /** The ledger's records, the hand-offs so far and the ordinals in the open datagram agree. */
  ghost predicate Books(records: seq<Status>, batch: seq<nat>, handoffs: seq<Handoff>)
  {
    && Increasing(Flatten(handoffs) + batch)
    && (forall o :: o in Flatten(handoffs) || o in batch ==> o < |records|)
    && (forall i :: 0 <= i < |records| ==>
          && (records[i] == Pending <==> i in batch)
          && (records[i] == Confirmed <==> Confirms(handoffs, i))
          && (records[i] == Ambiguous <==> MakesAmbiguous(handoffs, i)))
    && Count(records, Pending) == |batch|
    && Count(records, Confirmed) == TotalRecords(FullPackets(handoffs))
  }

  /** Only pending records change, and none becomes invalid. */
  ghost predicate OnlyPendingMoves(before: seq<Status>, after: seq<Status>)
  {
    |before| == |after| && forall i :: 0 <= i < |before| && (before[i] != Pending || after[i].Invalid?) ==> after[i] == before[i]
  }

  /** Only pending records and the record `o` change. */
  ghost predicate MovesBut(before: seq<Status>, after: seq<Status>, o: nat)
  {
    |before| == |after| && forall i :: 0 <= i < |before| && i != o && before[i] != Pending ==> after[i] == before[i]
  }

  /** No record becomes owed that was not owed before. */
  ghost predicate OwesNoMore(before: seq<Status>, after: seq<Status>)
  {
    |before| == |after| && forall i :: 0 <= i < |before| && after[i] == Unsent ==> before[i] == Unsent
  }

  lemma StillMoves(records: seq<Status>)
    ensures OnlyPendingMoves(records, records)
  {}

  /** No record below `upto` is still owed to a packet. */
  ghost predicate NoneOwed(records: seq<Status>, upto: nat)
  {
    forall i :: 0 <= i < upto && i < |records| ==> records[i] != Unsent
  }

  /** Either nothing was handed off, or one datagram of exactly these records; `full` says it was written
      in full. */
  ghost predicate HandsOff(before: seq<Handoff>, after: seq<Handoff>, ordinals: seq<nat>, shape: nat, sampling: nat,
                           full: bool)
  {
    || (after == before && !full)
    || (|after| == |before| + 1 && before <= after && after[|before|].ordinals == ordinals && after[|before|].shape == shape
        && after[|before|].sampling == sampling && (full <==> after[|before|].write == WriteFull))
  }

  lemma EmptyBooks()
    ensures Books([], [], [])
  {}

  lemma TotalAppended(kinds: seq<SM.Kind>, kind: SM.Kind)
    ensures TotalRecords(kinds + [kind]) == TotalRecords(kinds) + if kind.Data? then kind.records else 0
  {
    assert (kinds + [kind])[..|kinds|] == kinds;
  }

  lemma HandoffsGrow(handoffs: seq<Handoff>, h: Handoff)
    ensures Flatten(handoffs + [h]) == Flatten(handoffs) + h.ordinals
    ensures FullPackets(handoffs + [h]) == FullPackets(handoffs) + PacketsOf(h)
    ensures forall o: nat :: Confirms(handoffs + [h], o) <==> Confirms(handoffs, o) || (h.write == WriteFull && o in h.ordinals)
    ensures forall o: nat :: MakesAmbiguous(handoffs + [h], o) <==>
      MakesAmbiguous(handoffs, o) || (Ambiguates(h.write) && o in h.ordinals)
  {
    var longer := handoffs + [h];
    assert longer[..|handoffs|] == handoffs;
    forall o: nat
      ensures Confirms(longer, o) <==> Confirms(handoffs, o) || (h.write == WriteFull && o in h.ordinals)
      ensures MakesAmbiguous(longer, o) <==> MakesAmbiguous(handoffs, o) || (Ambiguates(h.write) && o in h.ordinals)
    {
      assert longer[|handoffs|] == h;
      assert forall k :: 0 <= k < |handoffs| ==> longer[k] == handoffs[k];
    }
  }

  lemma {:induction false} HandedIsFlattened(handoffs: seq<Handoff>, k: nat, o: nat)
    requires k < |handoffs| && o in handoffs[k].ordinals
    ensures o in Flatten(handoffs)
  {
    if k < |handoffs| - 1 {
      HandedIsFlattened(handoffs[..|handoffs| - 1], k, o);
    }
  }

  lemma SettledHandoffs(handoffs: seq<Handoff>, o: nat)
    requires Confirms(handoffs, o) || MakesAmbiguous(handoffs, o)
    ensures o in Flatten(handoffs)
  {
    if Confirms(handoffs, o) {
      var k :| 0 <= k < |handoffs| && handoffs[k].write == WriteFull && o in handoffs[k].ordinals;
      HandedIsFlattened(handoffs, k, o);
    } else {
      var k :| 0 <= k < |handoffs| && Ambiguates(handoffs[k].write) && o in handoffs[k].ordinals;
      HandedIsFlattened(handoffs, k, o);
    }
  }

  lemma {:induction false} FullHandoffsConfirm(handoffs: seq<Handoff>, o: nat)
    requires AllFull(handoffs) && o in Flatten(handoffs)
    ensures Confirms(handoffs, o)
  {
    var last := |handoffs| - 1;
    if o in Flatten(handoffs[..last]) {
      FullHandoffsConfirm(handoffs[..last], o);
    }
    HandoffsGrow(handoffs[..last], handoffs[last]);
    assert handoffs[..last] + [handoffs[last]] == handoffs;
  }

  lemma PendingMeansBatch(records: seq<Status>, batch: seq<nat>, handoffs: seq<Handoff>)
    requires Books(records, batch, handoffs)
    ensures Pending in records <==> batch != []
    ensures Count(records, Pending) == |batch|
  {}

  lemma SourceBooked(records: seq<Status>, batch: seq<nat>, handoffs: seq<Handoff>, status: Status)
    requires Books(records, batch, handoffs) && (status == Unsent || status.Invalid?)
    ensures Books(records + [status], batch, handoffs)
  {
    hide Confirms, MakesAmbiguous, Count;
    CountAppended(records, status, Pending);
    CountAppended(records, status, Confirmed);
    var o := |records|;
    if Confirms(handoffs, o) || MakesAmbiguous(handoffs, o) {
      SettledHandoffs(handoffs, o);
    }
  }

  lemma InvalidBooked(records: seq<Status>, batch: seq<nat>, handoffs: seq<Handoff>, o: nat, reason: nat)
    requires Books(records, batch, handoffs) && o < |records| && records[o] == Unsent
    ensures Books(records[o := Invalid(reason)], batch, handoffs)
  {
    hide Confirms, MakesAmbiguous, Count;
    CountUpdated(records, o, Invalid(reason), Pending);
    CountUpdated(records, o, Invalid(reason), Confirmed);
  }

  /** The last record joins the open datagram. */
  lemma {:induction false} PendingBooked(records: seq<Status>, batch: seq<nat>, handoffs: seq<Handoff>, o: nat)
    requires Books(records, batch, handoffs) && o + 1 == |records| && records[o] == Unsent
    requires o !in Flatten(handoffs)
    ensures Books(records[o := Pending], batch + [o], handoffs)
  {
    hide Confirms, MakesAmbiguous, Count;
    CountUpdated(records, o, Pending, Pending);
    CountUpdated(records, o, Pending, Confirmed);
    var order := Flatten(handoffs) + batch;
    assert Flatten(handoffs) + (batch + [o]) == order + [o];
    forall k | 0 <= k < |order|
      ensures order[k] < o
    {
      assert order[k] in Flatten(handoffs) || order[k] in batch;
    }
  }

  /** The open datagram was handed off: its records are settled by the answer. */
  lemma HandoffBooked(records: seq<Status>, batch: seq<nat>, handoffs: seq<Handoff>, h: Handoff, outcome: Status)
    requires Books(records, batch, handoffs) && h.ordinals == batch
    requires outcome == if h.write == WriteFull then Confirmed else if h.write == WriteInvalid then Unsent else Ambiguous
    ensures Books(Settle(records, outcome), [], handoffs + [h])
  {
    hide Confirms, MakesAmbiguous, Count, Flatten, FullPackets, TotalRecords, Settle;
    HandoffsGrow(handoffs, h);
    SettleCounts(records, outcome, Pending);
    SettleCounts(records, outcome, Confirmed);
    TotalAppended(FullPackets(handoffs), SM.Data(h.shape, |batch|));
    assert FullPackets(handoffs) + [] == FullPackets(handoffs);
    assert Flatten(handoffs) + batch + [] == Flatten(handoffs) + batch;
  }

  /** The open datagram was given up before any hand-off. */
  lemma AbortBooked(records: seq<Status>, batch: seq<nat>, handoffs: seq<Handoff>)
    requires Books(records, batch, handoffs)
    ensures Books(Settle(records, Unsent), [], handoffs)
  {
    hide Confirms, MakesAmbiguous, Count;
    SettleCounts(records, Unsent, Pending);
    SettleCounts(records, Unsent, Confirmed);
    var order := Flatten(handoffs) + batch;
    assert Flatten(handoffs) + [] == Flatten(handoffs);
    assert forall k :: 0 <= k < |Flatten(handoffs)| ==> order[k] == Flatten(handoffs)[k];
  }

  /** No ordinal is handed off in two datagrams, and within one it appears once. */
  lemma {:induction false} HandedOnce(handoffs: seq<Handoff>, a: nat, b: nat, i: nat, j: nat)
    requires Increasing(Flatten(handoffs))
    requires a < |handoffs| && b < |handoffs| && i < |handoffs[a].ordinals| && j < |handoffs[b].ordinals|
    requires handoffs[a].ordinals[i] == handoffs[b].ordinals[j]
    ensures a == b && i == j
  {
    var last := |handoffs| - 1;
    var init, tail := handoffs[..last], handoffs[last].ordinals;
    var flat := Flatten(handoffs);
    assert flat == Flatten(init) + tail;
    assert forall k :: 0 <= k < |Flatten(init)| ==> flat[k] == Flatten(init)[k];
    assert forall k :: 0 <= k < |tail| ==> flat[|Flatten(init)| + k] == tail[k];
    if a < last && b < last {
      HandedOnce(init, a, b, i, j);
    } else if a < last {
      HandedIsFlattened(init, a, handoffs[a].ordinals[i]);
    } else if b < last {
      HandedIsFlattened(init, b, handoffs[b].ordinals[j]);
    }
  }

  lemma PartsIncrease(a: seq<nat>, b: seq<nat>)
    requires Increasing(a + b)
    ensures Increasing(a) && Increasing(b)
  {
    assert forall i :: 0 <= i < |a| ==> (a + b)[i] == a[i];
    assert forall i :: 0 <= i < |b| ==> (a + b)[|a| + i] == b[i];
  }

  /** Within a datagram the records keep their order. */
  lemma {:induction false} OrdinalsIncrease(handoffs: seq<Handoff>, k: nat)
    requires Increasing(Flatten(handoffs)) && k < |handoffs|
    ensures Increasing(handoffs[k].ordinals)
  {
    var last := |handoffs| - 1;
    var init, tail := handoffs[..last], handoffs[last].ordinals;
    assert Flatten(handoffs) == Flatten(init) + tail;
    hide Flatten;
    PartsIncrease(Flatten(init), tail);
    hide Increasing;
    if k < last {
      OrdinalsIncrease(init, k);
    }
  }
}
