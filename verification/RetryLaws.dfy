/** What a finished request gives back for a retry, told by the answers it got. */
module RetryLaws {
  import opened Base
  import opened LedgerModel
  import opened Handoffs
  import opened Outsides
  import opened Journals
  import opened SourceRecords
  import opened Retry

  /** `picked` is the records of `flat` at these ordinals, in source order, each under its own envelopes. */
  ghost predicate PickedAt<L>(flat: seq<Placed<L>>, picked: seq<Placed<L>>, ordinals: seq<nat>)
  {
    && Increasing(ordinals) && |picked| == |ordinals|
    && forall k :: 0 <= k < |ordinals| ==> ordinals[k] < |flat| && picked[k] == flat[ordinals[k]]
  }

  /** The ordinals kept of the first `n`. */
  function KeptOrdinals(n: nat, ledger: seq<Status>): seq<nat>
  {
    if n == 0 then [] else KeptOrdinals(n - 1, ledger) + if Returned(ledger, n - 1) then [n - 1] else []
  }

  lemma {:induction false} KeptIsPicked<L>(flat: seq<Placed<L>>, ledger: seq<Status>)
    ensures PickedAt(flat, Kept(flat, 0, ledger), KeptOrdinals(|flat|, ledger))
    ensures forall i: nat :: i in KeptOrdinals(|flat|, ledger) <==> i < |flat| && Returned(ledger, i)
  {
    hide Returned;
    if flat != [] {
      var init := flat[..|flat| - 1];
      KeptIsPicked(init, ledger);
      var before, after := KeptOrdinals(|init|, ledger), KeptOrdinals(|flat|, ledger);
      assert forall k :: 0 <= k < |before| ==> before[k] in before;
      forall i: nat
        ensures i in after <==> i < |flat| && Returned(ledger, i)
      {
        assert i in after <==> i in before || (i == |init| && Returned(ledger, i));
      }
    }
  }

  lemma {:induction false} KeptCount(n: nat, ledger: seq<Status>)
    requires n <= |ledger|
    ensures |KeptOrdinals(n, ledger)|
         == Count(ledger[..n], Unsent) + Count(ledger[..n], Ambiguous) + Count(ledger[..n], Pending)
  {
    if n > 0 {
      KeptCount(n - 1, ledger);
      assert ledger[..n][..n - 1] == ledger[..n - 1];
    }
  }

  /** The retry subset of a finished request, against the answers: every record is in exactly one of three groups,
      invalid, carried by a datagram written in full, or given back; what is given back keeps its order and its
      envelopes, and is what the ledger counts as unsent or ambiguous. */
  lemma RetryIsUndelivered<L>(q: Request, answers: seq<Answer>, records: seq<Status>, handoffs: seq<Handoff>,
                              outcome: PackOutcome, flat: seq<Placed<L>>)
    requires Report(q, answers, records, handoffs, outcome) && |flat| == |records|
    ensures forall i :: 0 <= i < |records| ==> !(records[i].Invalid? && Answered(answers, i, WriteFull))
    ensures exists ordinals: seq<nat> ::
      && PickedAt(flat, Kept(flat, 0, records), ordinals)
      && (forall i :: 0 <= i < |records| ==>
            (i in ordinals <==> !records[i].Invalid? && !Answered(answers, i, WriteFull)))
    ensures |Kept(flat, 0, records)| == Count(records, Unsent) + Count(records, Ambiguous)
  {
    hide Flatten, Count, FullPackets, TotalRecords, Dispatched, Datagrams, Orderly, Halted, Reasons, Screened, Answered,
         Separated, Kept, KeptOrdinals, Increasing, Refused, AllWellFormed, StopsAtFailure, Blamed, Interrupted;
    forall i | 0 <= i < |records|
      ensures records[i] == Confirmed <==> Answered(answers, i, WriteFull)
      ensures Returned(records, i) <==> records[i] != Confirmed && !records[i].Invalid?
    {
      ClassIsAnswer(answers, records, handoffs, i);
    }
    KeptIsPicked(flat, records);
    KeptCount(|records|, records);
    assert records[..|records|] == records;
    assert PickedAt(flat, Kept(flat, 0, records), KeptOrdinals(|flat|, records));
  }
}
