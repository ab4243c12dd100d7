/** What every interleaving of the runtime's steps keeps. */
module LifecycleLaws {
  import opened Base
  import opened Lifecycle

  datatype CallKind = AttemptKind | PackKind | ConsumeKind | DnsKind | RefreshKind

  function KindOf(op: Op): CallKind
  {
    match op
    case Attempt(_, _, _, _, _, _) => AttemptKind
    case Pack(_) => PackKind
    case Consume => ConsumeKind
    case Dns(_) => DnsKind
    case Refresh(_) => RefreshKind
  }

  /** The field that admits one call of each kind. */
  function Slot(r: Rt, k: CallKind): Option<nat>
  {
    match k
    case AttemptKind => r.attempt
    case PackKind => r.packCancel
    case ConsumeKind => r.requestCancel
    case DnsKind => r.dnsCancel
    case RefreshKind => r.refreshCancel
  }

  /** A registered call and the slot that admitted it name each other: at most one of each kind. */
  ghost predicate Slots(r: Rt)
  {
    && (forall i :: i in r.ops ==> i < r.next && Slot(r, KindOf(r.ops[i])) == Some(i))
    && Names(r.ops, r.attempt, AttemptKind) && Names(r.ops, r.packCancel, PackKind) && Names(r.ops, r.requestCancel, ConsumeKind)
    && Names(r.ops, r.dnsCancel, DnsKind) && Names(r.ops, r.refreshCancel, RefreshKind)
  }

  predicate Names(ops: map<nat, Op>, slot: Option<nat>, k: CallKind)
  {
    slot.Some? ==> slot.value in ops && KindOf(ops[slot.value]) == k
  }

  /** The slots of `t` are those of `r`, but for the one of kind `k`. */
  predicate SlotsBut(r: Rt, t: Rt, k: CallKind, slot: Option<nat>)
  {
    && t.attempt == (if k == AttemptKind then slot else r.attempt)
    && t.packCancel == (if k == PackKind then slot else r.packCancel)
    && t.requestCancel == (if k == ConsumeKind then slot else r.requestCancel)
    && t.dnsCancel == (if k == DnsKind then slot else r.dnsCancel)
    && t.refreshCancel == (if k == RefreshKind then slot else r.refreshCancel)
  }

  /** The call count is the number of registered calls, and `drained` closes exactly when a closing
      runtime has none. */
  ghost predicate Counted(r: Rt)
  {
    && r.activeCalls == |r.ops|
    && r.drains == (if IsClosing(r) && r.ops == map[] then 1 else 0)
  }

  predicate HoldsPermit(op: Op)
  {
    match op
    case Attempt(_, _, at, _, _, _) => at == Publishing || at == Decided
    case Pack(sender) => sender == Holding || sender.Sending? || sender.Writing? || sender == Finishing(true)
    case Refresh(sender) => sender == Holding || sender.Sending? || sender.Writing? || sender == Finishing(true)
    case _ => false
  }

  /** One send permit. */
  ghost predicate Permitted(r: Rt)
  {
    && (forall i :: i in r.ops && HoldsPermit(r.ops[i]) ==> r.permit == Some(i))
    && (r.permit.Some? ==> r.permit.value in r.ops && HoldsPermit(r.ops[r.permit.value]))
  }

  // ---- sockets --------------------------------------------------------------------------

  function HandOf(r: Rt): Option<nat>
  {
    if r.attempt.Some? && r.attempt.value in r.ops && r.ops[r.attempt.value].Attempt? then r.ops[r.attempt.value].hand else None
  }

  function CandidateOf(r: Rt): Option<nat>
  {
    if r.attempt.Some? && r.attempt.value in r.ops && r.ops[r.attempt.value].Attempt? then r.ops[r.attempt.value].candidate
    else None
  }

  function TodoOf(r: Rt): set<nat> { if r.closer.Closing? then r.closer.todo else {} }

  /** The places a socket can be owned from: the published slot, the attempt's private hand, its attached
      candidate, and the closer. */
  datatype Cells = Cells(published: Option<nat>, hand: Option<nat>, candidate: Option<nat>, todo: set<nat>)

  function CellsOf(r: Rt): Cells { Cells(r.published, HandOf(r), CandidateOf(r), TodoOf(r)) }

  /** How many owners a socket has. */
  function Owners(c: Cells, s: nat): nat
  {
    (if c.published == Some(s) then 1 else 0) + (if c.hand == Some(s) then 1 else 0)
    + (if c.candidate == Some(s) then 1 else 0) + (if s in c.todo then 1 else 0)
  }

  /** A socket has one owner until it is closed, which happens once. */
  ghost predicate OwnedBy(c: Cells, sockets: seq<Socket>)
  {
    && (forall s :: 0 <= s < |sockets| ==> sockets[s].closes + Owners(c, s) == 1)
    && (forall s: nat :: s >= |sockets| ==> Owners(c, s) == 0)
  }

  ghost predicate Owned(r: Rt) { OwnedBy(CellsOf(r), r.sockets) }

  /** A socket whose write was admitted: still in its place (the published slot or the attempt's candidate)
      until closing begins; then with the closer, or closed by it. */
  predicate InFlight(r: Rt, place: Option<nat>, s: nat)
  {
    if IsClosing(r) then s in r.closer.todo || s in r.cut else place == Some(s)
  }

  /** The closer closes only sockets it was given, once each, after closing has begun. */
  ghost predicate CutOk(r: Rt)
  {
    forall s :: s in r.cut ==> IsClosing(r) && s < |r.sockets| && r.sockets[s].closes == 1
  }

  /** What an attempt holds at each point. */
  ghost predicate AttemptOk(r: Rt, op: Op)
  {
    op.Attempt? ==>
      && (op.at == Dialing ==> op.hand == None && op.candidate == None)
      && (op.at == Dialed || op.at == Refused ==> op.hand.Some? && op.candidate == None)
      && (op.at.BootWriting? || op.at in {Booting, Booted, Publishing} ==> op.hand == None)
      && (op.at == Retiring ==> op.hand.Some? && op.candidate == None)
      && (op.at == Decided && op.hand.Some? ==> op.candidate == None)
      && (op.at == Ending ==> op.hand == None) && (op.at == Detached ==> op.candidate == None)
      && (IsClosing(r) ==> op.candidate == None)
      && (!IsClosing(r) && op.at in {Booting, Booted, Publishing} ==> op.candidate.Some?)
      && (op.at in {Booted, Publishing} && op.candidate.Some? ==>
            op.candidate.value < |r.sockets| && r.sockets[op.candidate.value].booted)
      && (!IsClosing(r) && (op.at.BootWriting? || op.at in {Dialing, Dialed, Booting, Booted, Publishing}) ==>
            r.published == op.previous)
      && (op.at.BootWriting? && op.candidate.Some? ==> op.candidate == Some(op.at.socket))
      && (op.at.BootWriting? ==> InFlight(r, op.candidate, op.at.socket))
  }

  ghost predicate Attempts(r: Rt)
  {
    r.attempt.Some? ==> r.attempt.value in r.ops && AttemptOk(r, r.ops[r.attempt.value])
  }

  /** Only a fully bootstrapped socket is ever published, and none once closing has begun. */
  ghost predicate PublishedOk(r: Rt)
  {
    r.published.Some? ==> !IsClosing(r) && r.published.value < |r.sockets| && r.sockets[r.published.value].booted
  }

  /** A sender between reading its endpoint and finishing, and the endpoint. */
  predicate Targeting(op: Op) { Sends(op) && (op.sender.Sending? || op.sender.Writing?) }

  function TargetOf(op: Op): nat
    requires Targeting(op)
  {
    op.sender.target
  }

  /** A sender that read an endpoint sends to nothing else, and until closing it is still the published
      one: no publication can overtake it. */
  ghost predicate Targets(r: Rt)
  {
    && (forall i :: i in r.ops && Targeting(r.ops[i]) ==>
          (IsClosing(r) || r.published == Some(TargetOf(r.ops[i])))
          && (r.ops[i].sender.Writing? ==> InFlight(r, r.published, TargetOf(r.ops[i])))
          && (r.ops[i].Pack? ==> i in r.targets && r.targets[i] == TargetOf(r.ops[i])))
    && (forall i :: i in r.ops && r.ops[i].Pack? && (r.ops[i].sender == Waiting || r.ops[i].sender == Holding) ==>
          i !in r.targets)
    && (forall i :: i in r.targets ==> i < r.next)
  }

  /** A datagram went to an open socket exactly when the closer had not closed it, so always before
      closing began; and every data datagram of one Pack went to the endpoint it read at its start. */
  ghost predicate Logged(r: Rt)
  {
    forall k :: 0 <= k < |r.log| ==>
      var sent := r.log[k];
      && (sent.open <==> !sent.cut) && (sent.cut ==> sent.closing)
      && (sent.kind == Data ==> sent.op in r.targets && r.targets[sent.op] == sent.socket)
  }

  ghost predicate Inv(r: Rt)
  {
    && Slots(r) && Counted(r) && Permitted(r) && Owned(r) && CutOk(r) && Attempts(r) && PublishedOk(r) && Targets(r) && Logged(r)
  }

  lemma StartInv()
    ensures Inv(START)
  {}

  // ---- slots and counts -----------------------------------------------------------------

  lemma MapGrows<V>(m: map<nat, V>, k: nat, v: V)
    ensures |m[k := v]| == if k in m then |m| else |m| + 1
  {
    if k in m {
      assert m[k := v].Keys == m.Keys;
    } else {
      assert m[k := v].Keys == m.Keys + {k};
    }
  }

  lemma MapShrinks<V>(m: map<nat, V>, k: nat)
    requires k in m
    ensures |m - {k}| == |m| - 1
  {
    assert (m - {k}).Keys == m.Keys - {k};
  }

  /** Only the record of call `id` changes among the calls, and not its kind. */
  ghost predicate OneMoves(r: Rt, t: Rt, id: nat)
    requires id in r.ops
  {
    && id in t.ops && t.ops == r.ops[id := t.ops[id]] && KindOf(t.ops[id]) == KindOf(r.ops[id])
    && t.next == r.next && t.attempt == r.attempt && t.packCancel == r.packCancel && t.requestCancel == r.requestCancel
    && t.dnsCancel == r.dnsCancel && t.refreshCancel == r.refreshCancel && t.activeCalls == r.activeCalls
  }

  lemma NamesMoved(ops: map<nat, Op>, id: nat, op: Op, slot: Option<nat>, k: CallKind)
    requires id in ops && KindOf(op) == KindOf(ops[id]) && Names(ops, slot, k)
    ensures Names(ops[id := op], slot, k)
  {
    hide KindOf;
  }

  lemma OneMovesKeeps(r: Rt, t: Rt, id: nat)
    requires Slots(r) && id in r.ops && OneMoves(r, t, id)
    ensures Slots(t) && |t.ops| == |r.ops|
  {
    hide KindOf, Names;
    MapGrows(r.ops, id, t.ops[id]);
    NamesMoved(r.ops, id, t.ops[id], r.attempt, AttemptKind);
    NamesMoved(r.ops, id, t.ops[id], r.packCancel, PackKind);
    NamesMoved(r.ops, id, t.ops[id], r.requestCancel, ConsumeKind);
    NamesMoved(r.ops, id, t.ops[id], r.dnsCancel, DnsKind);
    NamesMoved(r.ops, id, t.ops[id], r.refreshCancel, RefreshKind);
  }

  lemma NothingMoves(r: Rt, id: nat)
    requires id in r.ops
    ensures OneMoves(r, r, id)
  {
    assert r.ops == r.ops[id := r.ops[id]];
  }

  lemma AttemptMoves(r: Rt, id: nat, act: AttemptAct)
    requires id in r.ops && r.ops[id].Attempt?
    ensures OneMoves(r, AttemptStep(r, id, act), id) && AttemptStep(r, id, act).ops[id].Attempt?
    ensures AttemptStep(r, id, act).closer == r.closer && AttemptStep(r, id, act).drains == r.drains
  {
    hide AttachStep, AdmitStep, BootStep, PublishStep;
    NothingMoves(r, id);
    match act
    case Attach(canceled, v5) => AttachMoves(r, id, canceled, v5);
    case AdmitBoot(canceled) => AdmitMoves(r, id, canceled);
    case BootWrite(full, ready) => if r.ops[id].at.BootWriting? { BootMoves(r, id, full, ready); }
    case Publish(canceled, committed) => PublishMoves(r, id, canceled, committed);
    case _ =>
  }

  lemma AttachMoves(r: Rt, id: nat, canceled: bool, v5: bool)
    requires id in r.ops && r.ops[id].Attempt?
    ensures var t := AttachStep(r, id, canceled, v5);
      OneMoves(r, t, id) && t.ops[id].Attempt? && t.closer == r.closer && t.drains == r.drains
  {}

  lemma AdmitMoves(r: Rt, id: nat, canceled: bool)
    requires id in r.ops && r.ops[id].Attempt?
    ensures var t := AdmitStep(r, id, canceled);
      OneMoves(r, t, id) && t.ops[id].Attempt? && t.closer == r.closer && t.drains == r.drains
  {}

  lemma BootMoves(r: Rt, id: nat, full: bool, ready: bool)
    requires id in r.ops && r.ops[id].Attempt? && r.ops[id].at.BootWriting?
    ensures var t := BootStep(r, id, full, ready);
      OneMoves(r, t, id) && t.ops[id].Attempt? && t.closer == r.closer && t.drains == r.drains
  {}

  lemma PublishMoves(r: Rt, id: nat, canceled: bool, committed: bool)
    requires id in r.ops && r.ops[id].Attempt?
    ensures var t := PublishStep(r, id, canceled, committed);
      OneMoves(r, t, id) && t.ops[id].Attempt? && t.closer == r.closer && t.drains == r.drains
  {}

  lemma WaiterMoves(r: Rt, id: nat, act: SenderAct)
    requires id in r.ops && Sends(r.ops[id]) && (act.Want? || act.Acquire? || act.AcquireFail?)
    ensures OneMoves(r, SenderStep(r, id, act), id)
  {
    NothingMoves(r, id);
  }

  lemma HolderMoves(r: Rt, id: nat, act: SenderAct)
    requires id in r.ops && Sends(r.ops[id])
    requires (act.AdmitWrite? || act.WriteDatagram? || act.StopSending? || act.ReturnPermit?)
    ensures OneMoves(r, SenderStep(r, id, act), id)
  {
    NothingMoves(r, id);
  }

  lemma ReaderMoves(r: Rt, id: nat, canceled: bool, available: bool)
    requires id in r.ops && Sends(r.ops[id])
    ensures OneMoves(r, SenderStep(r, id, ReadEndpoint(canceled, available)), id)
  {
    NothingMoves(r, id);
  }

  lemma SenderMoves(r: Rt, id: nat, act: SenderAct)
    requires id in r.ops && Sends(r.ops[id])
    ensures OneMoves(r, SenderStep(r, id, act), id)
    ensures SenderStep(r, id, act).closer == r.closer && SenderStep(r, id, act).drains == r.drains
  {
    hide OneMoves;
    if act.Want? || act.Acquire? || act.AcquireFail? {
      WaiterMoves(r, id, act);
    } else if act.ReadEndpoint? {
      ReaderMoves(r, id, act.canceled, act.available);
    } else {
      HolderMoves(r, id, act);
    }
  }

  /** A fresh call takes a free slot. */
  ghost predicate Registered(r: Rt, t: Rt, op: Op)
  {
    && Slot(r, KindOf(op)) == None && t.ops == r.ops[r.next := op] && t.next == r.next + 1
    && SlotsBut(r, t, KindOf(op), Some(r.next)) && t.activeCalls == r.activeCalls + 1 && !IsClosing(r)
    && t.closer == r.closer && t.drains == r.drains
  }

  lemma RegisteredKeeps(r: Rt, t: Rt, op: Op)
    requires Slots(r) && Counted(r) && Registered(r, t, op)
    ensures Slots(t) && Counted(t)
  {
    hide KindOf;
    MapGrows(r.ops, r.next, op);
  }

  /** A call that ends frees its slot; the last one of a closing runtime closes the drained channel. */
  ghost predicate Ended(r: Rt, t: Rt, id: nat)
    requires id in r.ops
  {
    && t.ops == r.ops - {id} && t.next == r.next && SlotsBut(r, t, KindOf(r.ops[id]), None)
    && t.activeCalls == r.activeCalls - 1 && t.closer == r.closer
    && t.drains == (if IsClosing(r) && t.activeCalls == 0 then r.drains + 1 else r.drains)
  }

  lemma EndedSlots(r: Rt, t: Rt, id: nat)
    requires Slots(r) && id in r.ops && Ended(r, t, id)
    ensures Slots(t)
  {
    hide KindOf;
  }

  lemma EndedKeeps(r: Rt, t: Rt, id: nat)
    requires Slots(r) && Counted(r) && id in r.ops && Ended(r, t, id)
    ensures Slots(t) && Counted(t)
  {
    EndedSlots(r, t, id);
    hide KindOf, Slots, SlotsBut;
    MapShrinks(r.ops, id);
    EmptyMap(t.ops);
  }

  lemma EmptyMap<V>(m: map<nat, V>)
    ensures |m| == 0 <==> m == map[]
  {
    if |m| == 0 {
      assert m.Keys == {};
    }
  }

  /** What one registration step is: nothing but a tail moving on, or one registration, possibly of an
      attempt on behalf of the DNS worker. */
  lemma PlainBegin(r: Rt, call: Call)
    requires call.StartCall? || call.PackCall? || call.ConsumeCall?
    ensures var t := BeginStep(r, call); t == r || (r.next in t.ops && Registered(r, t, t.ops[r.next]))
  {}

  lemma WorkerBegin(r: Rt, call: Call)
    requires call.StartDns? || call.StartRefresh?
    ensures var t := BeginStep(r, call); t == r.(tails := t.tails) || (r.next in t.ops && Registered(r, t, t.ops[r.next]))
  {}

  lemma MaintainBegin(r: Rt, call: Call)
    requires call.MaintainCall?
    ensures var t := BeginStep(r, call);
      t == r || (call.dns in r.ops && r.ops[call.dns] == Dns(None) && r.next in t.ops
                 && Registered(Set(r, call.dns, Dns(Some(r.next))), t, t.ops[r.next]))
  {}

  lemma BeginShape(r: Rt, call: Call)
    ensures var t := BeginStep(r, call);
      || t == r.(tails := t.tails)
      || (r.next in t.ops && Registered(r, t, t.ops[r.next]))
      || (call.MaintainCall? && call.dns in r.ops && r.ops[call.dns] == Dns(None) && r.next in t.ops
          && Registered(Set(r, call.dns, Dns(Some(r.next))), t, t.ops[r.next]))
  {
    hide BeginStep, Registered;
    match call
    case MaintainCall(_, _) => MaintainBegin(r, call);
    case StartDns(_, _) => WorkerBegin(r, call);
    case StartRefresh(_, _) => WorkerBegin(r, call);
    case _ => PlainBegin(r, call);
  }

  lemma CallsBegin(r: Rt, call: Call)
    requires Slots(r) && Counted(r)
    ensures Slots(BeginStep(r, call)) && Counted(BeginStep(r, call))
  {
    hide Slots, BeginStep, Registered;
    var t := BeginStep(r, call);
    BeginShape(r, call);
    if t == r.(tails := t.tails) {
      TailsKeep(r, t);
    } else if r.next in t.ops && Registered(r, t, t.ops[r.next]) {
      RegisteredKeeps(r, t, t.ops[r.next]);
    } else {
      var busy := Set(r, call.dns, Dns(Some(r.next)));
      OneMovesKeeps(r, busy, call.dns);
      RegisteredKeeps(busy, t, t.ops[r.next]);
    }
  }

  lemma TailsKeep(r: Rt, t: Rt)
    requires Slots(r) && t == r.(tails := t.tails)
    ensures Slots(t)
  {}

  lemma UnregisterShape(r: Rt, id: nat)
    requires Slots(r) && id in r.ops && r.ops[id].Attempt? && r.activeCalls > 0
    ensures FreeWorker(r, id) == r || (r.dnsCancel.Some? && r.dnsCancel.value in r.ops && r.dnsCancel.value != id
                                       && r.ops[r.dnsCancel.value].Dns?
                                       && FreeWorker(r, id) == Set(r, r.dnsCancel.value, Dns(None)))
    ensures Ended(FreeWorker(r, id), UnregisterStep(r, id), id)
  {}

  lemma CallsReturn(r: Rt, id: nat)
    requires Slots(r) && Counted(r) && id in r.ops && r.activeCalls > 0
    ensures Slots(ReturnStep(r, id)) && Counted(ReturnStep(r, id))
  {
    hide Slots, Counted, ReturnStep;
    if r.ops[id].Attempt? {
      CallsUnregister(r, id);
      AttemptReturn(r, id);
    } else {
      SlotOfCall(r, id);
      OtherReturn(r, id);
      if ReturnStep(r, id) != r {
        EndedKeeps(r, ReturnStep(r, id), id);
      }
    }
  }

  lemma AttemptReturn(r: Rt, id: nat)
    requires id in r.ops && r.ops[id].Attempt? && r.activeCalls > 0
    ensures ReturnStep(r, id) == r || ReturnStep(r, id) == UnregisterStep(r, id)
  {
    hide UnregisterStep, EndCall;
  }

  lemma OtherReturn(r: Rt, id: nat)
    requires id in r.ops && !r.ops[id].Attempt? && r.activeCalls > 0 && Slot(r, KindOf(r.ops[id])) == Some(id)
    ensures ReturnStep(r, id) == r || Ended(r, ReturnStep(r, id), id)
  {
    hide UnregisterStep;
  }

  lemma CallsUnregister(r: Rt, id: nat)
    requires Slots(r) && Counted(r) && id in r.ops && r.ops[id].Attempt? && r.activeCalls > 0
    ensures Slots(UnregisterStep(r, id)) && Counted(UnregisterStep(r, id))
  {
    hide Slots, UnregisterStep, FreeWorker, Ended;
    UnregisterShape(r, id);
    var idle := FreeWorker(r, id);
    if idle != r {
      OneMovesKeeps(r, idle, r.dnsCancel.value);
    }
    EndedKeeps(idle, UnregisterStep(r, id), id);
  }

  lemma SlotOfCall(r: Rt, id: nat)
    requires Slots(r) && id in r.ops
    ensures Slot(r, KindOf(r.ops[id])) == Some(id) && id < r.next
  {}

  /** The attempt keeps its place when the closer takes its socket. */
  function Stripped(r: Rt): Rt
  {
    match r.attempt
    case None => r
    case Some(id) => if id in r.ops && r.ops[id].Attempt? then Set(r, id, r.ops[id].(candidate := None)) else r
  }

  lemma StrippedMoves(r: Rt)
    requires Slots(r)
    ensures r.attempt.Some? ==> r.attempt.value in r.ops && OneMoves(r, Stripped(r), r.attempt.value)
    ensures r.attempt == None ==> Stripped(r) == r
  {}

  /** closeHandles changes no other call, and closes the drained channel when there is none. */
  lemma CloseShape(r: Rt)
    ensures var t := CloseStep(r);
      && t.ops == Stripped(r).ops && t.next == r.next && t.activeCalls == r.activeCalls && IsClosing(t)
      && t.drains == (if r.activeCalls == 0 then r.drains + 1 else r.drains) && SlotsBut(Stripped(r), t, AttemptKind, r.attempt)
  {}

  lemma CallsClose(r: Rt)
    requires Slots(r) && Counted(r) && !IsClosing(r)
    ensures Slots(CloseStep(r)) && Counted(CloseStep(r))
  {
    StrippedMoves(r);
    CloseShape(r);
    hide Slots, CloseStep, Stripped, OneMoves, SlotsBut;
    EmptyMap(r.ops);
    if r.attempt.Some? {
      OneMovesKeeps(r, Stripped(r), r.attempt.value);
    }
    EmptyMap(CloseStep(r).ops);
    ClosedKeeps(Stripped(r), CloseStep(r));
  }

  lemma ClosedKeeps(r: Rt, t: Rt)
    requires Slots(r) && t.ops == r.ops && t.next >= r.next && SlotsBut(r, t, AttemptKind, r.attempt)
    ensures Slots(t)
  {
    hide KindOf;
  }

  lemma CallsStep(r: Rt, e: Event)
    requires Slots(r) && Counted(r)
    ensures Slots(Step(r, e)) && Counted(Step(r, e))
  {
    hide Slots, BeginStep, AttemptStep, SenderStep, ReturnStep, CloseStep, OneMoves;
    match e
    case Begin(call) => CallsBegin(r, call);
    case OnAttempt(id, act) =>
      if id in r.ops && r.ops[id].Attempt? {
        AttemptMoves(r, id, act);
        MovesKeepCalls(r, AttemptStep(r, id, act), id);
      }
    case OnSender(id, act) =>
      if id in r.ops && Sends(r.ops[id]) {
        SenderMoves(r, id, act);
        MovesKeepCalls(r, SenderStep(r, id, act), id);
      }
    case Return(id) => if id in r.ops && r.activeCalls > 0 { CallsReturn(r, id); }
    case CloseHandles => if !IsClosing(r) { CallsClose(r); }
    case CloserClose(s) => CloserKeepsCalls(r, s);
  }

  lemma MovesKeepCalls(r: Rt, t: Rt, id: nat)
    requires Slots(r) && Counted(r) && id in r.ops && OneMoves(r, t, id) && t.closer == r.closer && t.drains == r.drains
    ensures Slots(t) && Counted(t)
  {
    hide Slots;
    OneMovesKeeps(r, t, id);
  }

  lemma CloserKeepsCalls(r: Rt, s: nat)
    requires Slots(r) && Counted(r)
    ensures Slots(Step(r, CloserClose(s))) && Counted(Step(r, CloserClose(s)))
  {
    hide Slots, BeginStep, AttemptStep, SenderStep, ReturnStep, CloseStep;
    ClosedKeeps(r, Step(r, CloserClose(s)));
  }

  // ---- the permit -----------------------------------------------------------------------

  /** A call takes the free permit, gives back its own, or leaves it alone. */
  ghost predicate PermitMoves(r: Rt, t: Rt, id: nat)
    requires id in r.ops && id in t.ops
  {
    && t.permit == (if HoldsPermit(t.ops[id]) then Some(id) else if HoldsPermit(r.ops[id]) then None else r.permit)
    && (HoldsPermit(t.ops[id]) && !HoldsPermit(r.ops[id]) ==> r.permit == None)
  }

  lemma PermitKept(r: Rt, t: Rt, id: nat)
    requires Permitted(r) && id in r.ops && OneMoves(r, t, id) && PermitMoves(r, t, id)
    ensures Permitted(t)
  {
    hide HoldsPermit, KindOf;
  }

  lemma HolderOfPermit(r: Rt, id: nat)
    requires Permitted(r) && id in r.ops
    ensures HoldsPermit(r.ops[id]) ==> r.permit == Some(id)
  {}

  lemma AttemptPermit(r: Rt, id: nat, act: AttemptAct)
    requires id in r.ops && r.ops[id].Attempt? && (HoldsPermit(r.ops[id]) ==> r.permit == Some(id))
    ensures id in AttemptStep(r, id, act).ops && PermitMoves(r, AttemptStep(r, id, act), id)
  {
    hide AttachStep, AdmitStep, BootStep, PublishStep;
    match act
    case Attach(canceled, v5) => if r.ops[id].at == Dialed { AttachPermit(r, id, canceled, v5); }
    case AdmitBoot(canceled) => if r.ops[id].at == Booting { AdmitPermit(r, id, canceled); }
    case BootWrite(full, ready) => if r.ops[id].at.BootWriting? { BootPermit(r, id, full, ready); }
    case Publish(canceled, committed) => if r.ops[id].at == Publishing { PublishPermit(r, id, canceled, committed); }
    case _ =>
  }

  lemma AttachPermit(r: Rt, id: nat, canceled: bool, v5: bool)
    requires id in r.ops && r.ops[id].Attempt? && r.ops[id].at == Dialed
    ensures id in AttachStep(r, id, canceled, v5).ops && PermitMoves(r, AttachStep(r, id, canceled, v5), id)
  {}

  lemma AdmitPermit(r: Rt, id: nat, canceled: bool)
    requires id in r.ops && r.ops[id].Attempt? && r.ops[id].at == Booting
    ensures id in AdmitStep(r, id, canceled).ops && PermitMoves(r, AdmitStep(r, id, canceled), id)
  {}

  lemma BootPermit(r: Rt, id: nat, full: bool, ready: bool)
    requires id in r.ops && r.ops[id].Attempt? && r.ops[id].at.BootWriting?
    ensures id in BootStep(r, id, full, ready).ops && PermitMoves(r, BootStep(r, id, full, ready), id)
  {}

  lemma PublishPermit(r: Rt, id: nat, canceled: bool, committed: bool)
    requires id in r.ops && r.ops[id].Attempt? && r.ops[id].at == Publishing && r.permit == Some(id)
    ensures id in PublishStep(r, id, canceled, committed).ops
    ensures PermitMoves(r, PublishStep(r, id, canceled, committed), id)
  {}

  lemma SenderPermit(r: Rt, id: nat, act: SenderAct)
    requires id in r.ops && Sends(r.ops[id]) && (HoldsPermit(r.ops[id]) ==> r.permit == Some(id))
    ensures id in SenderStep(r, id, act).ops && PermitMoves(r, SenderStep(r, id, act), id)
  {}

  lemma PermitRegistered(r: Rt, t: Rt, op: Op)
    requires Slots(r) && Permitted(r) && Registered(r, t, op) && t.permit == r.permit && !HoldsPermit(op)
    ensures Permitted(t)
  {
    hide HoldsPermit, KindOf;
  }

  lemma PermitEnded(r: Rt, t: Rt, id: nat)
    requires Permitted(r) && id in r.ops && t.ops == r.ops - {id}
    requires t.permit == if HoldsPermit(r.ops[id]) then None else r.permit
    ensures Permitted(t)
  {
    hide HoldsPermit, KindOf;
  }

  lemma PermitBegin(r: Rt, call: Call)
    requires Slots(r) && Permitted(r)
    ensures Permitted(BeginStep(r, call))
  {
    hide Slots, Permitted;
    var t := BeginStep(r, call);
    BeginShape(r, call);
    NewCallHoldsNothing(r, call);
    if t == r.(tails := t.tails) {
      PermitUntouched(r, t);
    } else if r.next in t.ops && Registered(r, t, t.ops[r.next]) {
      PermitRegistered(r, t, t.ops[r.next]);
    } else {
      var busy := Set(r, call.dns, Dns(Some(r.next)));
      PermitKept(r, busy, call.dns);
      OneMovesKeeps(r, busy, call.dns);
      PermitRegistered(busy, t, t.ops[r.next]);
    }
  }

  lemma PermitUntouched(r: Rt, t: Rt)
    requires Permitted(r) && t.ops == r.ops && t.permit == r.permit
    ensures Permitted(t)
  {}

  lemma NewCallHoldsNothing(r: Rt, call: Call)
    ensures BeginStep(r, call).permit == r.permit
    ensures BeginStep(r, call).next != r.next ==>
      r.next in BeginStep(r, call).ops && !HoldsPermit(BeginStep(r, call).ops[r.next])
  {}

  lemma PermitReturn(r: Rt, id: nat)
    requires Slots(r) && Permitted(r) && id in r.ops && r.activeCalls > 0
    ensures Permitted(ReturnStep(r, id))
  {
    hide Slots, Permitted, UnregisterStep, FreeWorker;
    var t := ReturnStep(r, id);
    if t != r {
      if r.ops[id].Attempt? {
        UnregisterShape(r, id);
        var idle := FreeWorker(r, id);
        UnregisterPermit(r, id);
        if idle != r {
          PermitKept(r, idle, r.dnsCancel.value);
        }
        PermitEnded(idle, t, id);
      } else {
        PermitEnded(r, t, id);
      }
    }
  }

  lemma UnregisterPermit(r: Rt, id: nat)
    requires id in r.ops && r.ops[id].Attempt? && r.activeCalls > 0
    ensures UnregisterStep(r, id).permit == r.permit == FreeWorker(r, id).permit
    ensures id in FreeWorker(r, id).ops && (r.dnsCancel != Some(id) ==> FreeWorker(r, id).ops[id] == r.ops[id])
  {}

  lemma PermitStep(r: Rt, e: Event)
    requires Slots(r) && Permitted(r)
    ensures Permitted(Step(r, e))
  {
    hide Slots, Permitted, BeginStep, AttemptStep, SenderStep, ReturnStep, CloseStep, OneMoves;
    match e
    case Begin(call) => PermitBegin(r, call);
    case OnAttempt(id, act) =>
      if id in r.ops && r.ops[id].Attempt? {
        AttemptMoves(r, id, act);
        HolderOfPermit(r, id);
        AttemptPermit(r, id, act);
        PermitKept(r, AttemptStep(r, id, act), id);
      }
    case OnSender(id, act) =>
      if id in r.ops && Sends(r.ops[id]) {
        SenderMoves(r, id, act);
        HolderOfPermit(r, id);
        SenderPermit(r, id, act);
        PermitKept(r, SenderStep(r, id, act), id);
      }
    case Return(id) => if id in r.ops && r.activeCalls > 0 { PermitReturn(r, id); }
    case CloseHandles => if !IsClosing(r) { PermitClose(r); }
    case CloserClose(s) => PermitUntouched(r, Step(r, e));
  }

  lemma PermitClose(r: Rt)
    requires Slots(r) && Permitted(r)
    ensures Permitted(CloseStep(r))
  {
    var stripped := Stripped(r);
    if r.attempt.Some? {
      PermitKept(r, stripped, r.attempt.value);
    }
    hide Permitted;
    PermitUntouched(stripped, CloseStep(r));
  }
}
