/** The request hierarchy: the ordinals its records get, the cursor that finds a record again by its
    ordinal, and the subset returned for a retry. */
module Retry {
  import opened Base
  import opened LedgerModel

  datatype ScopeLogs<L> = ScopeLogs(envelope: nat, records: seq<L>)
  datatype ResourceLogs<L> = ResourceLogs(envelope: nat, scopes: seq<ScopeLogs<L>>)
  type Logs<L> = seq<ResourceLogs<L>>

  /** A record with the envelopes it travels under. */
  datatype Placed<L> = Placed(resource: nat, scope: nat, record: L)

  function Tagged<L>(resource: nat, scope: nat, records: seq<L>): seq<Placed<L>>
  {
    if records == [] then []
    else Tagged(resource, scope, records[..|records| - 1]) + [Placed(resource, scope, records[|records| - 1])]
  }

  function FlatScopes<L>(resource: nat, scopes: seq<ScopeLogs<L>>): seq<Placed<L>>
  {
    if scopes == [] then []
    else
      var last := scopes[|scopes| - 1];
      FlatScopes(resource, scopes[..|scopes| - 1]) + Tagged(resource, last.envelope, last.records)
  }

  /** Every record in source order: the position is the ordinal. */
  function Flat<L>(logs: Logs<L>): seq<Placed<L>>
  {
    if logs == [] then []
    else
      var last := logs[|logs| - 1];
      Flat(logs[..|logs| - 1]) + FlatScopes(last.envelope, last.scopes)
  }

  lemma TaggedNext<L>(resource: nat, scope: nat, records: seq<L>, k: nat)
    requires k < |records|
    ensures Tagged(resource, scope, records[..k + 1])
         == Tagged(resource, scope, records[..k]) + [Placed(resource, scope, records[k])]
  {
    assert records[..k + 1][..k] == records[..k];
  }

  lemma FlatScopesNext<L>(resource: nat, scopes: seq<ScopeLogs<L>>, j: nat)
    requires j < |scopes|
    ensures FlatScopes(resource, scopes[..j + 1])
         == FlatScopes(resource, scopes[..j]) + Tagged(resource, scopes[j].envelope, scopes[j].records)
  {
    assert scopes[..j + 1][..j] == scopes[..j];
  }

  lemma FlatNext<L>(logs: Logs<L>, i: nat)
    requires i < |logs|
    ensures Flat(logs[..i + 1]) == Flat(logs[..i]) + FlatScopes(logs[i].envelope, logs[i].scopes)
  {
    assert logs[..i + 1][..i] == logs[..i];
  }

  // ---- prefixes: what lies before a position --------------------------------------------

  lemma {:induction false} TaggedPrefix<L>(resource: nat, scope: nat, records: seq<L>, k: nat)
    requires k <= |records|
    ensures Tagged(resource, scope, records[..k]) <= Tagged(resource, scope, records)
    decreases |records| - k
  {
    if k < |records| {
      TaggedNext(resource, scope, records, k);
      TaggedPrefix(resource, scope, records, k + 1);
    } else {
      assert records[..k] == records;
    }
  }

  lemma {:induction false} ScopesPrefix<L>(resource: nat, scopes: seq<ScopeLogs<L>>, j: nat)
    requires j <= |scopes|
    ensures FlatScopes(resource, scopes[..j]) <= FlatScopes(resource, scopes)
    decreases |scopes| - j
  {
    hide Tagged;
    if j < |scopes| {
      FlatScopesNext(resource, scopes, j);
      ScopesPrefix(resource, scopes, j + 1);
    } else {
      assert scopes[..j] == scopes;
    }
  }

  lemma {:induction false} FlatPrefix<L>(logs: Logs<L>, i: nat)
    requires i <= |logs|
    ensures Flat(logs[..i]) <= Flat(logs)
    decreases |logs| - i
  {
    hide FlatScopes;
    if i < |logs| {
      FlatNext(logs, i);
      FlatPrefix(logs, i + 1);
    } else {
      assert logs[..i] == logs;
    }
  }

  /** The records before position (i, j, k). */
  function Before<L>(logs: Logs<L>, i: nat, j: nat, k: nat): seq<Placed<L>>
    requires Position(logs, i, j, k)
  {
    if i == |logs| then Flat(logs)
    else
      var r := logs[i];
      Flat(logs[..i]) + FlatScopes(r.envelope, r.scopes[..j])
      + if j == |r.scopes| then [] else Tagged(r.envelope, r.scopes[j].envelope, r.scopes[j].records[..k])
  }

  predicate Position<L>(logs: Logs<L>, i: nat, j: nat, k: nat)
  {
    && i <= |logs|
    && (i == |logs| ==> j == 0 && k == 0)
    && (i < |logs| ==> j <= |logs[i].scopes| && (if j == |logs[i].scopes| then k == 0 else k <= |logs[i].scopes[j].records|))
  }

  /** The next record in flat order is the one at the position. */
  lemma RecordAtPosition<L>(logs: Logs<L>, i: nat, j: nat, k: nat)
    requires Position(logs, i, j, k) && i < |logs| && j < |logs[i].scopes| && k < |logs[i].scopes[j].records|
    ensures var o := |Before(logs, i, j, k)|;
      o < |Flat(logs)| && Flat(logs)[o] == Placed(logs[i].envelope, logs[i].scopes[j].envelope, logs[i].scopes[j].records[k])
    ensures Position(logs, i, j, k + 1) && |Before(logs, i, j, k + 1)| == |Before(logs, i, j, k)| + 1
  {
    hide Flat, FlatScopes, Tagged;
    var r := logs[i];
    var s := r.scopes[j];
    TaggedNext(r.envelope, s.envelope, s.records, k);
    TaggedPrefix(r.envelope, s.envelope, s.records, k + 1);
    FlatScopesNext(r.envelope, r.scopes, j);
    ScopesPrefix(r.envelope, r.scopes, j + 1);
    FlatNext(logs, i);
    FlatPrefix(logs, i + 1);
  }

  lemma ScopeDone<L>(logs: Logs<L>, i: nat, j: nat)
    requires i < |logs| && j < |logs[i].scopes| && Position(logs, i, j, |logs[i].scopes[j].records|)
    ensures Position(logs, i, j + 1, 0) && Before(logs, i, j + 1, 0) == Before(logs, i, j, |logs[i].scopes[j].records|)
  {
    hide Flat, FlatScopes;
    var r := logs[i];
    FlatScopesNext(r.envelope, r.scopes, j);
    assert r.scopes[j].records[..|r.scopes[j].records|] == r.scopes[j].records;
  }

  lemma {:induction false} ResourceDone<L>(logs: Logs<L>, i: nat)
    requires i < |logs| && Position(logs, i, |logs[i].scopes|, 0)
    ensures Position(logs, i + 1, 0, 0) && Before(logs, i + 1, 0, 0) == Before(logs, i, |logs[i].scopes|, 0)
  {
    FlatNext(logs, i);
    assert logs[i].scopes[..|logs[i].scopes|] == logs[i].scopes;
    if i + 1 == |logs| {
      assert logs[..i + 1] == logs;
    } else {
      assert logs[i + 1].scopes[..0] == [];
    }
  }

  // ---- the cursor -----------------------------------------------------------------------

  class LogCursor<L> {
    const logs: Logs<L>
    var resource: nat
    var scope: nat
    var record: nat
    var ordinal: nat

    ghost predicate Valid()
      reads this
    {
      Position(logs, resource, scope, record) && ordinal == |Before(logs, resource, scope, record)|
    }

    constructor (logs: Logs<L>)
      ensures Valid() && this.logs == logs && ordinal == 0
    {
      this.logs := logs;
      resource, scope, record, ordinal := 0, 0, 0, 0;
      new;
      if logs != [] {
        assert logs[..0] == [] && logs[0].scopes[..0] == [];
      }
    }

    /** Requests that never go backwards agree with flat indexing; earlier ordinals are refused. */
    method At(want: nat) returns (found: Option<L>)
      requires Valid()
      modifies this
      ensures Valid()
      ensures want < old(ordinal) ==> found == None && unchanged(this)
      ensures want >= old(ordinal) ==>
        && ordinal <= want
        && found == if want < |Flat(logs)| then Some(Flat(logs)[want].record) else None
    {
      hide Flat, Before, FlatScopes, Tagged;
      if want < ordinal {
        return None;
      }
      while resource < |logs|
        invariant Valid() && ordinal <= want
        decreases |logs| - resource
      {
        ghost var i := resource;
        var scopes := logs[resource].scopes;
        while scope < |scopes|
          invariant Valid() && ordinal <= want && i == resource < |logs| && scopes == logs[resource].scopes
          decreases |scopes| - scope
        {
          ghost var j := scope;
          var records := scopes[scope].records;
          while record < |records|
            invariant Valid() && ordinal <= want && i == resource < |logs| && scopes == logs[resource].scopes
            invariant j == scope < |scopes| && records == scopes[scope].records
            decreases |records| - record
          {
            RecordAtPosition(logs, resource, scope, record);
            if ordinal == want {
              return Some(records[record]);
            }
            record := record + 1;
            ordinal := ordinal + 1;
          }
          ScopeDone(logs, resource, scope);
          scope := scope + 1;
          record := 0;
        }
        ResourceDone(logs, resource);
        resource := resource + 1;
        scope := 0;
      }
      AllBefore(logs);
      return None;
    }
  }

  lemma {:induction false} AllBefore<L>(logs: Logs<L>)
    ensures Position(logs, |logs|, 0, 0) && Before(logs, |logs|, 0, 0) == Flat(logs)
  {}

  /** normalizeAdmittedIndexed with a lookup that goes through the cursor: every record is visited once,
      in flat order under its own ordinal, and the cursor finds exactly the record being visited. */
  method Traverse<L(==)>(logs: Logs<L>) returns (visited: seq<L>, agreed: bool)
    ensures |visited| == |Flat(logs)| && forall o :: 0 <= o < |visited| ==> visited[o] == Flat(logs)[o].record
    ensures agreed
  {
    hide Flat, Before, FlatScopes, Tagged;
    visited, agreed := [], true;
    var cursor := new LogCursor(logs);
    NothingBefore(logs);
    var i := 0;
    while i < |logs|
      invariant Position(logs, i, 0, 0) && |visited| == |Before(logs, i, 0, 0)| <= |Flat(logs)|
      invariant forall o :: 0 <= o < |visited| ==> visited[o] == Flat(logs)[o].record
      invariant cursor.Valid() && cursor.logs == logs && cursor.ordinal <= |visited| && agreed && fresh(cursor)
    {
      var scopes := logs[i].scopes;
      var j := 0;
      while j < |scopes|
        invariant j <= |scopes| && Position(logs, i, j, 0) && |visited| == |Before(logs, i, j, 0)| <= |Flat(logs)|
        invariant forall o :: 0 <= o < |visited| ==> visited[o] == Flat(logs)[o].record
        invariant cursor.Valid() && cursor.logs == logs && cursor.ordinal <= |visited| && agreed && fresh(cursor)
      {
        var records := scopes[j].records;
        var k := 0;
        while k < |records|
          invariant k <= |records| && Position(logs, i, j, k) && |visited| == |Before(logs, i, j, k)| <= |Flat(logs)|
          invariant forall o :: 0 <= o < |visited| ==> visited[o] == Flat(logs)[o].record
          invariant cursor.Valid() && cursor.logs == logs && cursor.ordinal <= |visited| && agreed && fresh(cursor)
        {
          RecordAtPosition(logs, i, j, k);
          var found := cursor.At(|visited|);
          agreed := agreed && found == Some(records[k]);
          visited := visited + [records[k]];
          k := k + 1;
        }
        ScopeDone(logs, i, j);
        j := j + 1;
      }
      ResourceDone(logs, i);
      i := i + 1;
    }
    AllBefore(logs);
  }

  lemma NothingBefore<L>(logs: Logs<L>)
    ensures Position(logs, 0, 0, 0) && Before(logs, 0, 0, 0) == []
  {
    if logs != [] {
      assert logs[..0] == [] && logs[0].scopes[..0] == [];
    }
  }

  // ---- the retry subset -----------------------------------------------------------------

  /** Ambiguous and still unsent records go back to the caller; a pending one was never handed off. */
  predicate Returned(records: seq<Status>, ordinal: nat)
  {
    ordinal < |records| && records[ordinal] in {Ambiguous, Unsent, Pending}
  }

  /** The returned records of a flat list that starts at `base`, in order. */
  function Kept<L>(flat: seq<Placed<L>>, base: nat, ledger: seq<Status>): seq<Placed<L>>
  {
    if flat == [] then []
    else
      var last := |flat| - 1;
      Kept(flat[..last], base, ledger) + if Returned(ledger, base + last) then [flat[last]] else []
  }

  lemma KeptNext<L>(flat: seq<Placed<L>>, item: Placed<L>, ledger: seq<Status>)
    ensures Kept(flat + [item], 0, ledger) == Kept(flat, 0, ledger) + if Returned(ledger, |flat|) then [item] else []
  {
    assert (flat + [item])[..|flat|] == flat;
  }

  /** No empty scope and no empty resource. */
  ghost predicate NoEmpty<L>(logs: Logs<L>)
  {
    forall i :: 0 <= i < |logs| ==>
      logs[i].scopes != [] && forall j :: 0 <= j < |logs[i].scopes| ==> logs[i].scopes[j].records != []
  }

  /** Adding one record to the last scope of the last resource. */
  function Grown<L>(logs: Logs<L>, record: L): Logs<L>
    requires logs != [] && logs[|logs| - 1].scopes != []
  {
    var r := logs[|logs| - 1];
    var s := r.scopes[|r.scopes| - 1];
    logs[..|logs| - 1] + [r.(scopes := r.scopes[..|r.scopes| - 1] + [s.(records := s.records + [record])])]
  }

  function WithScope<L>(logs: Logs<L>, envelope: nat): Logs<L>
    requires logs != []
  {
    var r := logs[|logs| - 1];
    logs[..|logs| - 1] + [r.(scopes := r.scopes + [ScopeLogs(envelope, [])])]
  }

  lemma GrownScopes<L>(resource: nat, scopes: seq<ScopeLogs<L>>, record: L)
    requires scopes != []
    ensures var last := scopes[|scopes| - 1];
      FlatScopes(resource, scopes[..|scopes| - 1] + [last.(records := last.records + [record])])
      == FlatScopes(resource, scopes) + [Placed(resource, last.envelope, record)]
  {
    var last := scopes[|scopes| - 1];
    var grown := last.(records := last.records + [record]);
    assert grown.records[..|last.records|] == last.records;
    var after := scopes[..|scopes| - 1] + [grown];
    assert after[..|after| - 1] == scopes[..|scopes| - 1];
  }

  lemma GrownFlat<L>(logs: Logs<L>, record: L)
    requires logs != [] && logs[|logs| - 1].scopes != []
    ensures var r := logs[|logs| - 1];
      Flat(Grown(logs, record)) == Flat(logs) + [Placed(r.envelope, r.scopes[|r.scopes| - 1].envelope, record)]
  {
    hide FlatScopes;
    var r := logs[|logs| - 1];
    GrownScopes(r.envelope, r.scopes, record);
    var after := Grown(logs, record);
    assert after[..|after| - 1] == logs[..|logs| - 1];
  }

  lemma WithScopeFlat<L>(logs: Logs<L>, envelope: nat)
    requires logs != []
    ensures Flat(WithScope(logs, envelope)) == Flat(logs)
  {
    var r := logs[|logs| - 1];
    var scopes := r.scopes + [ScopeLogs(envelope, [])];
    assert scopes[..|r.scopes|] == r.scopes;
    var after := WithScope(logs, envelope);
    assert after[..|after| - 1] == logs[..|logs| - 1];
  }

  lemma WithResourceFlat<L>(logs: Logs<L>, envelope: nat)
    ensures Flat(logs + [ResourceLogs(envelope, [])]) == Flat(logs)
  {
    var after := logs + [ResourceLogs(envelope, [])];
    assert after[..|logs|] == logs;
    assert FlatScopes<L>(envelope, []) == [];
  }

  /** Each retained envelope is copied once: the open resource and scope of the subset are the last. */
  ghost predicate OpenEnds<L>(subset: Logs<L>, resourceCopied: bool, scopeCopied: bool, resource: nat, scope: nat)
  {
    && (scopeCopied ==> resourceCopied)
    && (resourceCopied ==> subset != [] && subset[|subset| - 1].envelope == resource && subset[|subset| - 1].scopes != [])
    && (scopeCopied ==> var r := subset[|subset| - 1]; r.scopes[|r.scopes| - 1].envelope == scope)
  }

  /** Envelopes numbered in source order: each names one resource, or one scope of its resource. */
  ghost predicate Numbered<L>(logs: Logs<L>)
  {
    && (forall i, j :: 0 <= i < j < |logs| ==> logs[i].envelope < logs[j].envelope)
    && (forall i, a, b :: 0 <= i < |logs| && 0 <= a < b < |logs[i].scopes| ==>
          logs[i].scopes[a].envelope < logs[i].scopes[b].envelope)
  }

  /** Every resource of the subset but the open one comes before `resource`. */
  ghost predicate ResourcesBefore<L>(subset: Logs<L>, resourceCopied: bool, resource: nat)
  {
    forall r :: 0 <= r < |subset| - (if resourceCopied then 1 else 0) ==> subset[r].envelope < resource
  }

  /** Every scope of the last resource but the open one comes before `scope`. */
  ghost predicate ScopesBefore<L>(subset: Logs<L>, scopeCopied: bool, scope: nat)
  {
    subset != [] ==>
      var last := subset[|subset| - 1];
      forall q :: 0 <= q < |last.scopes| - (if scopeCopied then 1 else 0) ==> last.scopes[q].envelope < scope
  }

  ghost predicate InOrderSoFar<L>(subset: Logs<L>, resourceCopied: bool, scopeCopied: bool, resource: nat, scope: nat)
  {
    && Numbered(subset) && ResourcesBefore(subset, resourceCopied, resource)
    && (resourceCopied ==> ScopesBefore(subset, scopeCopied, scope))
  }

  /** returnedSubset: exactly the ambiguous and unsent records, in source order, under their own
      resource and scope, with no empty container. */
  method ReturnedSubset<L>(logs: Logs<L>, ledger: seq<Status>) returns (subset: Logs<L>)
    ensures Flat(subset) == Kept(Flat(logs), 0, ledger)
    ensures NoEmpty(subset) && (Numbered(logs) ==> Numbered(subset))
  {
    hide Flat, Before, FlatScopes, Tagged, Kept;
    subset := [];
    var ordinal := 0;
    NothingBefore(logs);
    NothingKept<L>(ledger);
    var i := 0;
    while i < |logs|
      invariant Position(logs, i, 0, 0) && ordinal == |Before(logs, i, 0, 0)|
      invariant NoEmpty(subset) && Flat(subset) == Kept(Before(logs, i, 0, 0), 0, ledger)
      invariant Numbered(logs) ==> Numbered(subset) && (i < |logs| ==> ResourcesBefore(subset, false, logs[i].envelope))
    {
      var scopes := logs[i].scopes;
      var resourceCopied := false;
      var j := 0;
      while j < |scopes|
        invariant j <= |scopes| && Position(logs, i, j, 0) && ordinal == |Before(logs, i, j, 0)|
        invariant NoEmpty(subset) && Flat(subset) == Kept(Before(logs, i, j, 0), 0, ledger)
        invariant OpenEnds(subset, resourceCopied, false, logs[i].envelope, 0)
        invariant Numbered(logs) ==>
          Numbered(subset) && ResourcesBefore(subset, resourceCopied, logs[i].envelope)
          && (resourceCopied && j < |scopes| ==> ScopesBefore(subset, false, scopes[j].envelope))
      {
        var records := scopes[j].records;
        var scopeCopied := false;
        var k := 0;
        while k < |records|
          invariant k <= |records| && Position(logs, i, j, k) && ordinal == |Before(logs, i, j, k)|
          invariant NoEmpty(subset) && Flat(subset) == Kept(Before(logs, i, j, k), 0, ledger)
          invariant OpenEnds(subset, resourceCopied, scopeCopied, logs[i].envelope, scopes[j].envelope)
          invariant Numbered(logs) ==>
            InOrderSoFar(subset, resourceCopied, scopeCopied, logs[i].envelope, scopes[j].envelope)
        {
          BeforeNext(logs, i, j, k);
          KeptNext(Before(logs, i, j, k), Placed(logs[i].envelope, scopes[j].envelope, records[k]), ledger);
          if Returned(ledger, ordinal) {
            subset := Return(subset, resourceCopied, scopeCopied, logs[i].envelope, scopes[j].envelope, records[k]);
            resourceCopied, scopeCopied := true, true;
          }
          ordinal := ordinal + 1;
          k := k + 1;
        }
        ScopeDone(logs, i, j);
        j := j + 1;
      }
      ResourceDone(logs, i);
      i := i + 1;
    }
    AllBefore(logs);
  }

  lemma OrderWithResource<L>(subset: Logs<L>, scopeCopied: bool, resource: nat, scope: nat)
    ensures InOrderSoFar(subset, false, scopeCopied, resource, scope) ==>
      InOrderSoFar(subset + [ResourceLogs(resource, [])], true, false, resource, scope)
  {}

  lemma OrderWithScope<L>(subset: Logs<L>, resource: nat, scope: nat)
    requires subset != []
    ensures InOrderSoFar(subset, true, false, resource, scope) ==>
      InOrderSoFar(WithScope(subset, scope), true, true, resource, scope)
  {}

  lemma OrderGrown<L>(subset: Logs<L>, resource: nat, scope: nat, record: L)
    requires subset != [] && subset[|subset| - 1].scopes != []
    ensures InOrderSoFar(subset, true, true, resource, scope) ==>
      InOrderSoFar(Grown(subset, record), true, true, resource, scope)
  {}

  /** The subset with the record's resource and scope open. */
  function Opened<L>(subset: Logs<L>, resourceCopied: bool, scopeCopied: bool, resource: nat, scope: nat): Logs<L>
    requires resourceCopied ==> subset != []
  {
    var withResource := if resourceCopied then subset else subset + [ResourceLogs(resource, [])];
    if scopeCopied then withResource else WithScope(withResource, scope)
  }

  /** Only the open scope may still be empty. */
  ghost predicate OpenFor<L>(logs: Logs<L>, resource: nat, scope: nat)
  {
    && logs != [] && NoEmpty(logs[..|logs| - 1])
    && var last := logs[|logs| - 1];
    && last.envelope == resource && last.scopes != [] && last.scopes[|last.scopes| - 1].envelope == scope
    && forall j :: 0 <= j < |last.scopes| - 1 ==> last.scopes[j].records != []
  }

  lemma OpenedFor<L>(subset: Logs<L>, resourceCopied: bool, scopeCopied: bool, resource: nat, scope: nat)
    requires NoEmpty(subset) && OpenEnds(subset, resourceCopied, scopeCopied, resource, scope)
    ensures OpenFor(Opened(subset, resourceCopied, scopeCopied, resource, scope), resource, scope)
    ensures Flat(Opened(subset, resourceCopied, scopeCopied, resource, scope)) == Flat(subset)
    ensures InOrderSoFar(subset, resourceCopied, scopeCopied, resource, scope) ==>
      InOrderSoFar(Opened(subset, resourceCopied, scopeCopied, resource, scope), true, true, resource, scope)
  {
    hide Flat, InOrderSoFar;
    var withResource := if resourceCopied then subset else subset + [ResourceLogs(resource, [])];
    if !resourceCopied {
      WithResourceFlat(subset, resource);
      OrderWithResource(subset, scopeCopied, resource, scope);
    }
    if !scopeCopied {
      WithScopeFlat(withResource, scope);
      OrderWithScope(withResource, resource, scope);
    }
  }

  lemma {:induction false} GrownEnds<L>(logs: Logs<L>, resource: nat, scope: nat, record: L)
    requires OpenFor(logs, resource, scope)
    ensures NoEmpty(Grown(logs, record)) && OpenEnds(Grown(logs, record), true, true, resource, scope)
  {}

  /** One retained record, opening its resource and scope when they are not open yet. */
  method Return<L>(subset: Logs<L>, resourceCopied: bool, scopeCopied: bool, resource: nat, scope: nat, record: L)
    returns (grown: Logs<L>)
    requires NoEmpty(subset) && OpenEnds(subset, resourceCopied, scopeCopied, resource, scope)
    ensures NoEmpty(grown) && OpenEnds(grown, true, true, resource, scope)
    ensures Flat(grown) == Flat(subset) + [Placed(resource, scope, record)]
    ensures InOrderSoFar(subset, resourceCopied, scopeCopied, resource, scope) ==>
      InOrderSoFar(grown, true, true, resource, scope)
  {
    hide Flat, InOrderSoFar, NoEmpty;
    OpenedFor(subset, resourceCopied, scopeCopied, resource, scope);
    var ready := Opened(subset, resourceCopied, scopeCopied, resource, scope);
    GrownEnds(ready, resource, scope, record);
    GrownFlat(ready, record);
    OrderGrown(ready, resource, scope, record);
    grown := Grown(ready, record);
  }

  lemma NothingKept<L>(ledger: seq<Status>)
    ensures Flat<L>([]) == Kept([], 0, ledger)
  {}

  lemma BeforeNext<L>(logs: Logs<L>, i: nat, j: nat, k: nat)
    requires Position(logs, i, j, k) && i < |logs| && j < |logs[i].scopes| && k < |logs[i].scopes[j].records|
    ensures Position(logs, i, j, k + 1)
    ensures Before(logs, i, j, k + 1)
         == Before(logs, i, j, k) + [Placed(logs[i].envelope, logs[i].scopes[j].envelope, logs[i].scopes[j].records[k])]
  {
    hide Flat, FlatScopes, Tagged;
    TaggedNext(logs[i].envelope, logs[i].scopes[j].envelope, logs[i].scopes[j].records, k);
  }
}
