/** What can still happen: which calls a runtime admits, that a published Start brings up its workers, and that
    a closing runtime can always be drained. */
module LifecycleProgress {
  import opened Base
  import opened Lifecycle
  import opened LifecycleLaws
  import opened LifecycleSockets

  // ---- workers and the calls they wait for ----------------------------------------------

  ghost predicate NoWorkers(r: Rt) { r.tails == map[] && r.dnsCancel == None && r.refreshCancel == None }

  /** The attempt published a Start: its call will leave a tail that starts the workers. */
  predicate HasStarted(r: Rt, id: nat) { id in r.ops && r.ops[id].Attempt? && r.ops[id].started }

  ghost predicate NoneStarted(r: Rt) { forall i :: i in r.ops ==> !HasStarted(r, i) }

  /** One Start publishes in the life of a runtime, and no worker exists before its tail; a busy DNS worker
      waits for an attempt that is registered. */
  ghost predicate Workers(r: Rt)
  {
    && (forall i :: i in r.ops && r.ops[i].Dns? && r.ops[i].busy.Some? ==>
          r.ops[i].busy.value in r.ops && r.ops[r.ops[i].busy.value].Attempt?)
    && (forall i :: i in r.ops && r.ops[i].Attempt? ==>
          (r.ops[i].initial <==> r.ops[i].previous == None) && (r.ops[i].started ==> r.ops[i].initial))
    && (forall i :: i in r.ops && r.ops[i].Pack? ==> r.ops[i].sender != Idle)
    && (!NoneStarted(r) ==> NoWorkers(r))
    && (forall i :: i in r.tails ==>
          && r.tails == map[i := r.tails[i]] && r.refreshCancel == None && NoneStarted(r)
          && (!r.tails[i].dnsDone ==> r.dnsCancel == None))
    && (r.published == None && !IsClosing(r) ==> NoWorkers(r) && NoneStarted(r))
  }

  /** What the workers depend on is as it was, but for the record of one call. */
  ghost predicate Alike(op: Op, after: Op)
  {
    match op
    case Attempt(initial, previous, _, _, _, started) =>
      after.Attempt? && after.initial == initial && after.previous == previous && after.started == started
    case Pack(_) => after.Pack? && after.sender != Idle
    case Consume => after == op
    case Dns(_) => after == Dns(None)
    case Refresh(_) => after.Refresh?
  }

  ghost predicate OneChanges(r: Rt, t: Rt, id: nat)
    requires id in r.ops
  {
    && id in t.ops && t.ops == r.ops[id := t.ops[id]] && t.tails == r.tails && t.dnsCancel == r.dnsCancel
    && t.refreshCancel == r.refreshCancel && t.published == r.published && t.closer == r.closer
  }

  lemma StartedSame(r: Rt, t: Rt, id: nat)
    requires t.ops - {id} == r.ops - {id} && (HasStarted(r, id) <==> HasStarted(t, id))
    ensures NoneStarted(t) <==> NoneStarted(r)
  {
    assert forall i :: i != id && i in r.ops ==> i in r.ops - {id} && (r.ops - {id})[i] == r.ops[i];
    assert forall i :: i != id && i in t.ops ==> i in t.ops - {id} && (t.ops - {id})[i] == t.ops[i];
    forall i
      ensures HasStarted(r, i) <==> HasStarted(t, i)
    {}
  }

  lemma AlikeWorkers(r: Rt, t: Rt, id: nat)
    requires Workers(r) && id in r.ops && OneChanges(r, t, id) && Alike(r.ops[id], t.ops[id])
    ensures Workers(t)
  {
    StartedSame(r, t, id);
    hide NoneStarted;
  }

  lemma PermitAlike(r: Rt, id: nat, act: AttemptAct)
    requires id in r.ops && r.ops[id].Attempt? && (act.AcquirePermit? || act.AcquireFails? || act.ReleasePermit?)
    ensures OneChanges(r, AttemptStep(r, id, act), id) && Alike(r.ops[id], AttemptStep(r, id, act).ops[id])
  {
    NothingMoves(r, id);
  }

  lemma DialAlike(r: Rt, id: nat, connected: bool)
    requires id in r.ops && r.ops[id].Attempt?
    ensures var t := AttemptStep(r, id, DialDone(connected)); OneChanges(r, t, id) && Alike(r.ops[id], t.ops[id])
  {
    NothingMoves(r, id);
  }

  lemma CloseAlike(r: Rt, id: nat)
    requires id in r.ops && r.ops[id].Attempt?
    ensures var t := AttemptStep(r, id, CloseHand); OneChanges(r, t, id) && Alike(r.ops[id], t.ops[id])
  {
    NothingMoves(r, id);
  }

  lemma DetachAlike(r: Rt, id: nat)
    requires id in r.ops && r.ops[id].Attempt?
    ensures var t := AttemptStep(r, id, Detach); OneChanges(r, t, id) && Alike(r.ops[id], t.ops[id])
  {
    NothingMoves(r, id);
  }

  lemma BootstrapAlike(r: Rt, id: nat, act: AttemptAct)
    requires id in r.ops && r.ops[id].Attempt? && (act.Attach? || act.AdmitBoot? || act.BootWrite?)
    ensures OneChanges(r, AttemptStep(r, id, act), id) && Alike(r.ops[id], AttemptStep(r, id, act).ops[id])
  {
    hide PublishStep, AttachStep, AdmitStep, BootStep;
    NothingMoves(r, id);
    match act
    case Attach(canceled, v5) => AttachAlike(r, id, canceled, v5);
    case AdmitBoot(canceled) => AdmitAlike(r, id, canceled);
    case BootWrite(full, ready) => if r.ops[id].at.BootWriting? { BootAlike(r, id, full, ready); }
  }

  lemma AttemptAlike(r: Rt, id: nat, act: AttemptAct)
    requires id in r.ops && r.ops[id].Attempt? && !act.Publish?
    ensures OneChanges(r, AttemptStep(r, id, act), id) && Alike(r.ops[id], AttemptStep(r, id, act).ops[id])
  {
    hide AttemptStep, OneChanges, Alike;
    if act.AcquirePermit? || act.AcquireFails? || act.ReleasePermit? {
      PermitAlike(r, id, act);
    } else {
      match act
      case DialDone(connected) => DialAlike(r, id, connected);
      case CloseHand => CloseAlike(r, id);
      case Detach => DetachAlike(r, id);
      case _ => BootstrapAlike(r, id, act);
    }
  }

  lemma AttachAlike(r: Rt, id: nat, canceled: bool, v5: bool)
    requires id in r.ops && r.ops[id].Attempt?
    ensures OneChanges(r, AttachStep(r, id, canceled, v5), id) && Alike(r.ops[id], AttachStep(r, id, canceled, v5).ops[id])
  {}

  lemma AdmitAlike(r: Rt, id: nat, canceled: bool)
    requires id in r.ops && r.ops[id].Attempt?
    ensures OneChanges(r, AdmitStep(r, id, canceled), id) && Alike(r.ops[id], AdmitStep(r, id, canceled).ops[id])
  {}

  lemma BootAlike(r: Rt, id: nat, full: bool, ready: bool)
    requires id in r.ops && r.ops[id].Attempt? && r.ops[id].at.BootWriting?
    ensures OneChanges(r, BootStep(r, id, full, ready), id) && Alike(r.ops[id], BootStep(r, id, full, ready).ops[id])
  {}

  lemma AttemptWorkers(r: Rt, id: nat, act: AttemptAct)
    requires Workers(r) && id in r.ops && r.ops[id].Attempt?
    ensures Workers(AttemptStep(r, id, act))
  {
    hide Workers, PublishStep, AttachStep, AdmitStep, BootStep, OneChanges, Alike;
    if act.Publish? {
      PublishWorkers(r, id, act.canceled, act.committed);
    } else {
      AttemptAlike(r, id, act);
      AlikeWorkers(r, AttemptStep(r, id, act), id);
    }
  }

  lemma PublishWorkers(r: Rt, id: nat, canceled: bool, committed: bool)
    requires Workers(r) && id in r.ops && r.ops[id].Attempt?
    ensures Workers(PublishStep(r, id, canceled, committed))
  {}

  lemma PackIsBusy(r: Rt, id: nat)
    requires Workers(r) && id in r.ops && r.ops[id].Pack?
    ensures r.ops[id].sender != Idle
  {}

  /** A sender's step changes its own record and the permit, targets and log. */
  lemma WaiterAlike(r: Rt, id: nat, act: SenderAct)
    requires id in r.ops && Sends(r.ops[id]) && (r.ops[id].Pack? ==> r.ops[id].sender != Idle)
    requires act.Want? || act.Acquire? || act.AcquireFail?
    ensures OneChanges(r, SenderStep(r, id, act), id) && Alike(r.ops[id], SenderStep(r, id, act).ops[id])
  {
    NothingMoves(r, id);
  }

  lemma ReaderAlike(r: Rt, id: nat, canceled: bool, available: bool)
    requires id in r.ops && Sends(r.ops[id]) && (r.ops[id].Pack? ==> r.ops[id].sender != Idle)
    ensures var t := SenderStep(r, id, ReadEndpoint(canceled, available));
      OneChanges(r, t, id) && Alike(r.ops[id], t.ops[id])
  {
    NothingMoves(r, id);
  }

  lemma AdmitterAlike(r: Rt, id: nat, available: bool)
    requires id in r.ops && Sends(r.ops[id]) && (r.ops[id].Pack? ==> r.ops[id].sender != Idle)
    ensures var t := SenderStep(r, id, AdmitWrite(available)); OneChanges(r, t, id) && Alike(r.ops[id], t.ops[id])
  {
    NothingMoves(r, id);
  }

  lemma WriterAlike(r: Rt, id: nat, act: SenderAct)
    requires id in r.ops && Sends(r.ops[id]) && (r.ops[id].Pack? ==> r.ops[id].sender != Idle)
    requires act.WriteDatagram? || act.StopSending? || act.ReturnPermit?
    ensures OneChanges(r, SenderStep(r, id, act), id) && Alike(r.ops[id], SenderStep(r, id, act).ops[id])
  {
    NothingMoves(r, id);
  }

  lemma SenderAlike(r: Rt, id: nat, act: SenderAct)
    requires id in r.ops && Sends(r.ops[id]) && (r.ops[id].Pack? ==> r.ops[id].sender != Idle)
    ensures OneChanges(r, SenderStep(r, id, act), id) && Alike(r.ops[id], SenderStep(r, id, act).ops[id])
  {
    hide OneChanges, Alike, SenderStep;
    if act.Want? || act.Acquire? || act.AcquireFail? {
      WaiterAlike(r, id, act);
    } else if act.ReadEndpoint? {
      ReaderAlike(r, id, act.canceled, act.available);
    } else if act.AdmitWrite? {
      AdmitterAlike(r, id, act.available);
    } else {
      WriterAlike(r, id, act);
    }
  }

  lemma SenderWorkers(r: Rt, id: nat, act: SenderAct)
    requires Workers(r) && id in r.ops && Sends(r.ops[id])
    ensures Workers(SenderStep(r, id, act))
  {
    hide Workers, OneMoves;
    if r.ops[id].Pack? {
      PackIsBusy(r, id);
    }
    SenderAlike(r, id, act);
    AlikeWorkers(r, SenderStep(r, id, act), id);
  }

  lemma BeginWorkers(r: Rt, call: Call)
    requires Slots(r) && Workers(r)
    ensures Workers(BeginStep(r, call))
  {
    hide Slots, Workers;
    match call
    case MaintainCall(dns, canceled) => MaintainWorkers(r, dns, canceled);
    case StartDns(tail, timer) => StartDnsWorkers(r, tail, timer);
    case StartRefresh(tail, timer) => StartRefreshWorkers(r, tail, timer);
    case _ => PlainWorkers(r, call);
  }

  lemma PlainWorkers(r: Rt, call: Call)
    requires Slots(r) && Workers(r) && (call.StartCall? || call.PackCall? || call.ConsumeCall?)
    ensures Workers(BeginStep(r, call))
  {}

  lemma MaintainWorkers(r: Rt, dns: nat, canceled: bool)
    requires Slots(r) && Workers(r)
    ensures Workers(BeginStep(r, MaintainCall(dns, canceled)))
  {}

  lemma StartDnsWorkers(r: Rt, tail: nat, timer: bool)
    requires Slots(r) && Workers(r)
    ensures Workers(BeginStep(r, StartDns(tail, timer)))
  {}

  lemma StartRefreshWorkers(r: Rt, tail: nat, timer: bool)
    requires Slots(r) && Workers(r)
    ensures Workers(BeginStep(r, StartRefresh(tail, timer)))
  {}

  lemma ReturnWorkers(r: Rt, id: nat)
    requires Slots(r) && Workers(r) && id in r.ops && r.activeCalls > 0
    ensures Workers(ReturnStep(r, id))
  {
    hide Slots, Workers, ReturnStep;
    if r.ops[id].Attempt? {
      UnregisterWorkers(r, id);
    } else {
      PlainReturns(r, id);
    }
  }

  /** A call other than an attempt ends: what it leaves. */
  ghost predicate Leaves(r: Rt, t: Rt, id: nat)
  {
    && t.ops == r.ops - {id} && t.tails == r.tails && t.published == r.published && t.closer == r.closer
    && (t.dnsCancel == r.dnsCancel || t.dnsCancel == None) && (t.refreshCancel == r.refreshCancel || t.refreshCancel == None)
  }

  lemma PlainLeaves(r: Rt, id: nat)
    requires id in r.ops && r.activeCalls > 0 && !r.ops[id].Attempt?
    ensures ReturnStep(r, id) == r || Leaves(r, ReturnStep(r, id), id)
  {
    hide UnregisterStep;
  }

  lemma LeavesWorkers(r: Rt, t: Rt, id: nat)
    requires Workers(r) && id in r.ops && !r.ops[id].Attempt? && Leaves(r, t, id)
    ensures Workers(t)
  {
    StartedSame(r, t, id);
    hide NoneStarted;
  }

  lemma PlainReturns(r: Rt, id: nat)
    requires Workers(r) && id in r.ops && r.activeCalls > 0 && !r.ops[id].Attempt?
    ensures Workers(ReturnStep(r, id))
  {
    hide Workers, ReturnStep, Leaves;
    PlainLeaves(r, id);
    if ReturnStep(r, id) != r {
      LeavesWorkers(r, ReturnStep(r, id), id);
    }
  }

  /** An attempt ends: its worker is free again, and a Start that published leaves its tail. */
  ghost predicate Unregisters(r: Rt, t: Rt, id: nat)
    requires id in r.ops && r.ops[id].Attempt?
  {
    && t.ops.Keys == r.ops.Keys - {id}
    && (forall i :: i in t.ops ==> t.ops[i] == if r.ops[i] == Dns(Some(id)) then Dns(None) else r.ops[i])
    && t.tails == (if r.ops[id].started then r.tails[id := Tail(false)] else r.tails)
    && t.published == r.published && t.closer == r.closer && t.dnsCancel == r.dnsCancel && t.refreshCancel == r.refreshCancel
  }

  lemma AttemptUnregisters(r: Rt, id: nat)
    requires Slots(r) && id in r.ops && r.activeCalls > 0 && r.ops[id].Attempt?
    ensures Unregisters(r, UnregisterStep(r, id), id)
  {
    hide EndCall;
    var freed := if r.attempt == Some(id) then r.(attempt := None) else r;
    var idle := FreeWorker(freed, id);
    assert UnregisterStep(r, id).ops == idle.ops - {id} by { CallEnds(idle, id); }
    CallEnds(idle, id);
    forall i | i in r.ops && r.ops[i] == Dns(Some(id))
      ensures r.dnsCancel == Some(i)
    {}
  }

  lemma CallEnds(r: Rt, id: nat)
    requires r.activeCalls > 0
    ensures EndCall(r, id).ops == r.ops - {id} && EndCall(r, id).tails == r.tails
    ensures EndCall(r, id).published == r.published && EndCall(r, id).closer == r.closer
    ensures EndCall(r, id).dnsCancel == r.dnsCancel && EndCall(r, id).refreshCancel == r.refreshCancel
  {}

  lemma UnregistersWorkers(r: Rt, t: Rt, id: nat)
    requires Workers(r) && Slots(r) && id in r.ops && r.ops[id].Attempt? && Unregisters(r, t, id)
    ensures Workers(t)
  {
    assert forall i: nat :: HasStarted(r, i) ==> r.attempt == Some(i);
    assert forall i: nat :: i in t.ops ==> HasStarted(t, i) == HasStarted(r, i);
  }

  lemma UnregisterWorkers(r: Rt, id: nat)
    requires Slots(r) && Workers(r) && id in r.ops && r.activeCalls > 0 && r.ops[id].Attempt?
    ensures Workers(ReturnStep(r, id))
  {
    hide Slots, Workers, UnregisterStep, Unregisters;
    AttemptUnregisters(r, id);
    UnregistersWorkers(r, UnregisterStep(r, id), id);
  }

  lemma CloseWorkers(r: Rt)
    requires Workers(r) && !IsClosing(r)
    ensures Workers(CloseStep(r))
  {}

  lemma StepKeepsWorkers(r: Rt, e: Event)
    requires Slots(r) && Workers(r)
    ensures Workers(Step(r, e))
  {
    hide Slots, Workers, BeginStep, AttemptStep, SenderStep, ReturnStep, CloseStep;
    match e
    case Begin(call) => BeginWorkers(r, call);
    case OnAttempt(id, act) => if id in r.ops && r.ops[id].Attempt? { AttemptWorkers(r, id, act); }
    case OnSender(id, act) => if id in r.ops && Sends(r.ops[id]) { SenderWorkers(r, id, act); }
    case Return(id) => if id in r.ops && r.activeCalls > 0 { ReturnWorkers(r, id); }
    case CloseHandles => if !IsClosing(r) { CloseWorkers(r); }
    case CloserClose(s) => CloserWorkers(r, s);
  }

  lemma CloserWorkers(r: Rt, s: nat)
    requires Workers(r)
    ensures Workers(Step(r, CloserClose(s)))
  {}

  lemma {:induction false} RunKeepsWorkers(r: Rt, events: seq<Event>)
    requires Inv(r) && Workers(r)
    ensures Inv(Run(r, events)) && Workers(Run(r, events))
    decreases |events|
  {
    hide Permitted, Owned, CutOk, Attempts, PublishedOk, Targets, Logged, Slots, Counted, Workers, Step;
    if events != [] {
      StepKeepsInv(r, events[0]);
      StepKeepsWorkers(r, events[0]);
      RunKeepsWorkers(Step(r, events[0]), events[1..]);
    }
  }

  lemma StartHasNoWorkers()
    ensures Inv(START) && Workers(START)
  {
    StartInv();
  }

  // ---- admission ------------------------------------------------------------------------

  /** A call of this kind is in progress. */
  ghost predicate Busy(r: Rt, k: CallKind) { exists i :: i in r.ops && KindOf(r.ops[i]) == k }

  /** One more call is in progress: this one. */
  ghost predicate Admits(r: Rt, call: Call, op: Op)
  {
    var t := BeginStep(r, call);
    && r.next !in r.ops && r.next in t.ops && t.ops[r.next] == op && t.ops.Keys == r.ops.Keys + {r.next}
    && t.activeCalls == r.activeCalls + 1
  }

  /** The call is refused: no call more is in progress. */
  predicate Refuses(r: Rt, call: Call) { BeginStep(r, call) == r.(tails := BeginStep(r, call).tails) }

  lemma SlotIsBusy(r: Rt, k: CallKind)
    requires Slots(r)
    ensures Slot(r, k).Some? <==> Busy(r, k)
  {
    if Slot(r, k).Some? {
      assert Slot(r, k).value in r.ops && KindOf(r.ops[Slot(r, k).value]) == k;
    }
  }

  lemma StartAdmitted(r: Rt)
    requires Slots(r)
    ensures if IsClosing(r) || r.published.Some? || r.attempt.Some? then Refuses(r, StartCall)
            else Admits(r, StartCall, Attempt(true, None, Dialing, None, None, false))
  {}

  lemma RequestAdmitted(r: Rt)
    requires Slots(r)
    ensures if IsClosing(r) || r.packCancel.Some? then Refuses(r, PackCall) else Admits(r, PackCall, Pack(Waiting))
    ensures if IsClosing(r) || r.requestCancel.Some? then Refuses(r, ConsumeCall) else Admits(r, ConsumeCall, Consume)
  {}

  /** Exactly when a call is admitted, told by what is in progress: a closing runtime admits none; a Start needs
      nothing published and no attempt, a Pack or a Consume only that no other is running. */
  lemma WhoIsAdmitted(r: Rt)
    requires Slots(r)
    ensures if IsClosing(r) || r.published.Some? || Busy(r, AttemptKind) then Refuses(r, StartCall)
            else Admits(r, StartCall, Attempt(true, None, Dialing, None, None, false))
    ensures if IsClosing(r) || Busy(r, PackKind) then Refuses(r, PackCall) else Admits(r, PackCall, Pack(Waiting))
    ensures if IsClosing(r) || Busy(r, ConsumeKind) then Refuses(r, ConsumeCall) else Admits(r, ConsumeCall, Consume)
  {
    hide Slots, BeginStep, Busy, Admits, Refuses;
    SlotIsBusy(r, AttemptKind);
    SlotIsBusy(r, PackKind);
    SlotIsBusy(r, ConsumeKind);
    StartAdmitted(r);
    RequestAdmitted(r);
  }

  /** A replacement attempt needs an idle worker, something published and no attempt; the worker then waits
      for it. */
  lemma WhoIsReplaced(r: Rt, dns: nat, canceled: bool)
    requires Slots(r)
    ensures var call := MaintainCall(dns, canceled);
      if IsClosing(r) || r.published == None || Busy(r, AttemptKind) || canceled || dns !in r.ops || r.ops[dns] != Dns(None)
      then Refuses(r, call)
      else Admits(r, call, Attempt(false, r.published, Dialing, None, None, false))
           && BeginStep(r, call).ops[dns] == Dns(Some(r.next))
  {
    SlotIsBusy(r, AttemptKind);
    hide Busy;
  }

  // ---- the workers of a published Start -------------------------------------------------

  /** Start `id` has published and its DNS worker is still to be started: by the call itself, or by the tail
      it left. */
  predicate OwesDns(r: Rt, id: nat) { HasStarted(r, id) || (id in r.tails && !r.tails[id].dnsDone) }

  /** Only its refresh worker is still to be started. */
  predicate OwesRefresh(r: Rt, id: nat) { id in r.tails && r.tails[id].dnsDone }

  /** A publication by an initial attempt owes the workers; and only that. */
  lemma PublishOwes(r: Rt, id: nat, act: AttemptAct)
    requires id in r.ops && r.ops[id].Attempt? && !r.ops[id].started && id !in r.tails
    ensures var t := AttemptStep(r, id, act);
      OwesDns(t, id) <==> r.ops[id].initial && act.Publish? && r.ops[id].at == Publishing && t.ops[id].candidate == None
                          && t.published == r.ops[id].candidate != None
  {}

  lemma AttemptOwes(r: Rt, i: nat, act: AttemptAct, id: nat)
    requires Workers(r) && i in r.ops && r.ops[i].Attempt?
    ensures OwesDns(r, id) ==> OwesDns(AttemptStep(r, i, act), id)
    ensures OwesRefresh(r, id) ==> OwesRefresh(AttemptStep(r, i, act), id)
  {
    hide PublishStep, AttachStep, AdmitStep, BootStep;
    if !act.Publish? {
      AttemptAlike(r, i, act);
    } else {
      PublishKeepsOwing(r, i, act.canceled, act.committed, id);
    }
  }

  lemma PublishKeepsOwing(r: Rt, i: nat, canceled: bool, committed: bool, id: nat)
    requires Workers(r) && i in r.ops && r.ops[i].Attempt?
    ensures OwesDns(r, id) ==> OwesDns(PublishStep(r, i, canceled, committed), id)
    ensures OwesRefresh(r, id) ==> OwesRefresh(PublishStep(r, i, canceled, committed), id)
  {}

  lemma SenderOwes(r: Rt, i: nat, act: SenderAct, id: nat)
    requires Workers(r) && i in r.ops && Sends(r.ops[i])
    ensures OwesDns(r, id) ==> OwesDns(SenderStep(r, i, act), id)
    ensures OwesRefresh(r, id) ==> OwesRefresh(SenderStep(r, i, act), id)
  {
    if r.ops[i].Pack? {
      PackIsBusy(r, i);
    }
    SenderAlike(r, i, act);
    hide SenderStep;
  }

  lemma PlainBeginOwes(r: Rt, call: Call, id: nat)
    requires Slots(r) && !call.StartDns? && !call.StartRefresh?
    ensures OwesDns(r, id) ==> OwesDns(BeginStep(r, call), id)
    ensures OwesRefresh(r, id) ==> OwesRefresh(BeginStep(r, call), id)
  {
    assert id in r.ops ==> id < r.next;
    hide Slots;
  }

  lemma DnsBeginOwes(r: Rt, tail: nat, timer: bool, id: nat)
    requires Slots(r)
    ensures OwesDns(r, id) && tail != id ==> OwesDns(BeginStep(r, StartDns(tail, timer)), id)
    ensures OwesRefresh(r, id) ==> OwesRefresh(BeginStep(r, StartDns(tail, timer)), id)
  {
    assert id in r.ops ==> id < r.next;
    hide Slots;
  }

  lemma RefreshBeginOwes(r: Rt, tail: nat, timer: bool, id: nat)
    requires Slots(r)
    ensures OwesDns(r, id) ==> OwesDns(BeginStep(r, StartRefresh(tail, timer)), id)
    ensures OwesRefresh(r, id) && tail != id ==> OwesRefresh(BeginStep(r, StartRefresh(tail, timer)), id)
  {
    assert id in r.ops ==> id < r.next;
    hide Slots;
  }

  lemma BeginOwes(r: Rt, call: Call, id: nat)
    requires Slots(r)
    ensures OwesDns(r, id) && !(call.StartDns? && call.tail == id) ==> OwesDns(BeginStep(r, call), id)
    ensures OwesRefresh(r, id) && !(call.StartRefresh? && call.tail == id) ==> OwesRefresh(BeginStep(r, call), id)
  {
    hide Slots, BeginStep, OwesDns, OwesRefresh;
    match call
    case StartDns(tail, timer) => DnsBeginOwes(r, tail, timer, id);
    case StartRefresh(tail, timer) => RefreshBeginOwes(r, tail, timer, id);
    case _ => PlainBeginOwes(r, call, id);
  }

  lemma ReturnOwes(r: Rt, i: nat, id: nat)
    requires Slots(r) && Workers(r) && i in r.ops && r.activeCalls > 0
    ensures OwesDns(r, id) ==> OwesDns(ReturnStep(r, i), id)
    ensures OwesRefresh(r, id) ==> OwesRefresh(ReturnStep(r, i), id)
  {
    hide UnregisterStep, EndCall, Slots;
    var t := ReturnStep(r, i);
    if !r.ops[i].Attempt? {
      PlainLeaves(r, i);
      hide ReturnStep;
      if id != i && id in r.ops && t != r {
        assert t.ops[id] == r.ops[id];
      }
    } else {
      AttemptUnregisters(r, i);
      assert id in r.tails ==> !HasStarted(r, i);
    }
  }

  lemma CloseOwes(r: Rt, id: nat)
    requires !IsClosing(r)
    ensures OwesDns(r, id) ==> OwesDns(CloseStep(r), id)
    ensures OwesRefresh(r, id) ==> OwesRefresh(CloseStep(r), id)
  {}

  /** Nothing but its own start takes a worker off the books. */
  lemma StepOwes(r: Rt, e: Event, id: nat)
    requires Slots(r) && Workers(r)
    ensures OwesDns(r, id) && !(e.Begin? && e.call.StartDns? && e.call.tail == id) ==> OwesDns(Step(r, e), id)
    ensures OwesRefresh(r, id) && !(e.Begin? && e.call.StartRefresh? && e.call.tail == id) ==> OwesRefresh(Step(r, e), id)
  {
    hide Slots, Workers, BeginStep, AttemptStep, SenderStep, ReturnStep, CloseStep, OwesDns, OwesRefresh;
    match e
    case Begin(call) => BeginOwes(r, call, id);
    case OnAttempt(i, act) => if i in r.ops && r.ops[i].Attempt? { AttemptOwes(r, i, act, id); }
    case OnSender(i, act) => if i in r.ops && Sends(r.ops[i]) { SenderOwes(r, i, act, id); }
    case Return(i) => if i in r.ops && r.activeCalls > 0 { ReturnOwes(r, i, id); }
    case CloseHandles => if !IsClosing(r) { CloseOwes(r, id); }
    case CloserClose(s) => CloserOwes(r, s, id);
  }

  lemma CloserOwes(r: Rt, s: nat, id: nat)
    ensures OwesDns(r, id) ==> OwesDns(Step(r, CloserClose(s)), id)
    ensures OwesRefresh(r, id) ==> OwesRefresh(Step(r, CloserClose(s)), id)
  {}

  predicate StartsDns(e: Event, id: nat) { e.Begin? && e.call.StartDns? && e.call.tail == id }

  predicate StartsRefresh(e: Event, id: nat) { e.Begin? && e.call.StartRefresh? && e.call.tail == id }

  /** Over any run from where the Start published, up to its own StartDns, the DNS worker stays owed; once the call
      has returned, that step registers it exactly if the runtime is still running and has a timer for it. */
  lemma {:induction false} DnsWorkerStarts(r: Rt, events: seq<Event>, id: nat, timer: bool)
    requires Inv(r) && Workers(r) && OwesDns(r, id) && forall e :: e in events ==> !StartsDns(e, id)
    ensures var t := Run(r, events);
      && OwesDns(t, id)
      && (id !in t.ops ==>
            && (if IsClosing(t) || !timer then Refuses(t, StartDns(id, timer)) else Admits(t, StartDns(id, timer), Dns(None)))
            && OwesRefresh(BeginStep(t, StartDns(id, timer)), id))
    decreases |events|
  {
    hide Permitted, Owned, CutOk, Attempts, PublishedOk, Targets, Logged, Counted, Step, OwesDns;
    if events != [] {
      assert events[0] in events;
      assert forall e :: e in events[1..] ==> e in events;
      StepKeepsInv(r, events[0]);
      StepKeepsWorkers(r, events[0]);
      StepOwes(r, events[0], id);
      hide Inv, Workers;
      DnsWorkerStarts(Step(r, events[0]), events[1..], id, timer);
    } else if id !in r.ops {
      TailAdmitsDns(r, id, timer);
    }
  }

  lemma TailAdmitsDns(r: Rt, id: nat, timer: bool)
    requires Slots(r) && Workers(r) && OwesDns(r, id) && id !in r.ops
    ensures if IsClosing(r) || !timer then Refuses(r, StartDns(id, timer)) else Admits(r, StartDns(id, timer), Dns(None))
    ensures OwesRefresh(BeginStep(r, StartDns(id, timer)), id)
  {}

  lemma TailAdmitsRefresh(r: Rt, id: nat, timer: bool)
    requires Slots(r) && Workers(r) && OwesRefresh(r, id)
    ensures if IsClosing(r) || !timer then Refuses(r, StartRefresh(id, timer))
            else Admits(r, StartRefresh(id, timer), Refresh(Idle))
  {}

  /** And from there, up to its own StartRefresh, the refresh worker. */
  lemma {:induction false} RefreshWorkerStarts(r: Rt, events: seq<Event>, id: nat, timer: bool)
    requires Inv(r) && Workers(r) && OwesRefresh(r, id) && forall e :: e in events ==> !StartsRefresh(e, id)
    ensures var t := Run(r, events);
      && OwesRefresh(t, id)
      && (if IsClosing(t) || !timer then Refuses(t, StartRefresh(id, timer))
          else Admits(t, StartRefresh(id, timer), Refresh(Idle)))
    decreases |events|
  {
    hide Permitted, Owned, CutOk, Attempts, PublishedOk, Targets, Logged, Counted, Step, OwesRefresh;
    if events != [] {
      assert events[0] in events;
      assert forall e :: e in events[1..] ==> e in events;
      StepKeepsInv(r, events[0]);
      StepKeepsWorkers(r, events[0]);
      StepOwes(r, events[0], id);
      hide Inv, Workers;
      RefreshWorkerStarts(Step(r, events[0]), events[1..], id, timer);
    } else {
      TailAdmitsRefresh(r, id, timer);
    }
  }

  /** A published Start brings up both workers: whatever happens in between, once its call has returned StartDns
      registers the DNS worker, and after that StartRefresh the refresh worker, in a runtime still running. */
  lemma StartBringsUpWorkers(events: seq<Event>, id: nat, canceled: bool, later: seq<Event>, last: seq<Event>)
    requires var r := Run(START, events);
      && id in r.ops && r.ops[id].Attempt? && r.ops[id].initial && !r.ops[id].started
      && AttemptStep(r, id, Publish(canceled, true)).published != r.published
    requires forall e :: e in later ==> !StartsDns(e, id)
    requires forall e :: e in last ==> !StartsRefresh(e, id)
    ensures var t := Run(Step(Run(START, events), OnAttempt(id, Publish(canceled, true))), later);
      id !in t.ops && !IsClosing(t) ==>
        && Admits(t, StartDns(id, true), Dns(None))
        && var u := Run(BeginStep(t, StartDns(id, true)), last);
           !IsClosing(u) ==> Admits(u, StartRefresh(id, true), Refresh(Idle))
  {
    hide Slots, Permitted, Owned, CutOk, Attempts, PublishedOk, Targets, Logged, Counted, Step, BeginStep, Admits,
         OwesDns, OwesRefresh;
    StartHasNoWorkers();
    RunKeepsWorkers(START, events);
    var r := Run(START, events);
    var e := OnAttempt(id, Publish(canceled, true));
    PublishIsOwing(r, id, canceled);
    StepKeepsInv(r, e);
    StepKeepsWorkers(r, e);
    var s := Step(r, e);
    hide Workers, Inv, AttemptStep;
    DnsWorkerStarts(s, later, id, true);
    RunKeepsWorkers(s, later);
    var t := Run(s, later);
    if id !in t.ops && !IsClosing(t) {
      var call := Begin(StartDns(id, true));
      StepKeepsInv(t, call);
      StepKeepsWorkers(t, call);
      assert Step(t, call) == BeginStep(t, StartDns(id, true)) by { StepBegins(t, StartDns(id, true)); }
      RefreshWorkerStarts(BeginStep(t, StartDns(id, true)), last, id, true);
    }
  }

  lemma StepBegins(r: Rt, call: Call)
    ensures Step(r, Begin(call)) == BeginStep(r, call)
  {}

  lemma PublishIsOwing(r: Rt, id: nat, canceled: bool)
    requires id in r.ops && r.ops[id].Attempt? && r.ops[id].initial
    requires AttemptStep(r, id, Publish(canceled, true)).published != r.published
    ensures OwesDns(Step(r, OnAttempt(id, Publish(canceled, true))), id)
  {}

  // ---- healthy calls --------------------------------------------------------------------

  /** The datagram just logged: to this socket, while it was open. */
  predicate Logs(r: Rt, t: Rt, id: nat, socket: nat, kind: Kind)
  {
    t.log == r.log + [Sent(id, socket, kind, true, false, false)]
  }

  /** In a running runtime, without cancellation and with every write in full, an attempt goes on to publication
      on the one socket it dialed: nothing else can stop it. */
  lemma HealthyAttemptGoesOn(r: Rt, id: nat, v5: bool, ready: bool)
    requires Inv(r) && !IsClosing(r) && id in r.ops && r.ops[id].Attempt?
    ensures var op := r.ops[id];
      && (op.at == Dialing ==>
            var t := AttemptStep(r, id, DialDone(true));
            t.ops[id] == op.(at := Dialed, hand := Some(|r.sockets|)) && t.sockets == r.sockets + [Socket(0, false)])
      && (op.at == Dialed ==>
            var t := AttemptStep(r, id, Attach(false, v5));
            op.hand.Some? && t.ops[id] == op.(at := if v5 then Booted else Booting, hand := None, candidate := op.hand))
      && (op.at == Booting ==>
            op.candidate.Some? && AttemptStep(r, id, AdmitBoot(false)).ops[id] == op.(at := BootWriting(op.candidate.value)))
      && (op.at.BootWriting? ==>
            var t := AttemptStep(r, id, BootWrite(true, ready));
            && Logs(r, t, id, op.at.socket, Bootstrap) && t.ops[id] == op.(at := if ready then Booted else Booting)
            && (ready ==> op.at.socket < |t.sockets| && t.sockets[op.at.socket].booted))
      && (op.at == Booted && r.permit == None ==>
            var t := AttemptStep(r, id, AcquirePermit); t.ops[id] == op.(at := Publishing) && t.permit == Some(id))
      && (op.at == Publishing ==>
            var t := AttemptStep(r, id, Publish(false, true));
            op.candidate.Some? && t.published == op.candidate && t.ops[id].hand == r.published)
  {
    hide Slots, Permitted, Targets, Logged, Counted;
    SlotOfCall(r, id);
    if r.ops[id].at == Publishing {
      PublishIsNotOvertaken(r, id);
    }
    if r.ops[id].at.BootWriting? && r.ops[id].candidate.Some? {
      OpenUnlessCut(r, r.ops[id].candidate, r.ops[id].at.socket);
    }
  }

  /** In a running runtime with something published, a sender that gets the permit sends to it, and goes on until it
      stops itself: no publication can overtake it. */
  lemma HealthySenderGoesOn(r: Rt, id: nat)
    requires Inv(r) && !IsClosing(r) && r.published.Some? && id in r.ops && Sends(r.ops[id])
    ensures var op := r.ops[id];
      && (op == Refresh(Idle) ==> SenderStep(r, id, Want(true, false)).ops[id] == Refresh(Waiting))
      && (op.sender == Waiting && r.permit == None ==>
            SenderStep(r, id, Acquire).ops[id] == WithSender(op, Holding) && SenderStep(r, id, Acquire).permit == Some(id))
      && (op.sender == Holding ==>
            SenderStep(r, id, ReadEndpoint(false, true)).ops[id] == WithSender(op, Sending(r.published.value)))
      && (op.sender.Sending? ==>
            SenderStep(r, id, AdmitWrite(true)).ops[id] == WithSender(op, Writing(r.published.value)))
      && (op.sender.Writing? ==>
            var t := SenderStep(r, id, WriteDatagram);
            && Logs(r, t, id, r.published.value, if op.Pack? then Data else Template)
            && t.ops[id] == WithSender(op, Sending(r.published.value)))
  {
    hide Slots, Permitted, Logged, Counted, Attempts;
    OpenUnlessCut(r, r.published, r.published.value);
  }

  // ---- draining -------------------------------------------------------------------------

  /** What a call of a closing runtime does next. */
  function NextOf(id: nat, op: Op): Event
  {
    match op
    case Attempt(_, _, at, hand, _, _) =>
      (match at
       case Dialing => OnAttempt(id, DialDone(false))
       case Dialed => OnAttempt(id, Attach(true, false))
       case Booting => OnAttempt(id, AdmitBoot(true))
       case BootWriting(_) => OnAttempt(id, BootWrite(false, false))
       case Booted => OnAttempt(id, AcquireFails)
       case Publishing => OnAttempt(id, Publish(true, false))
       case Decided => OnAttempt(id, ReleasePermit)
       case Ending => OnAttempt(id, Detach)
       case Detached => if hand.Some? then OnAttempt(id, CloseHand) else Return(id)
       case _ => OnAttempt(id, CloseHand))
    case Pack(sender) => SenderNext(id, sender, true)
    case Refresh(sender) => SenderNext(id, sender, false)
    case _ => Return(id)
  }

  function SenderNext(id: nat, at: SenderAt, pack: bool): Event
  {
    match at
    case Waiting => OnSender(id, AcquireFail)
    case Holding => OnSender(id, ReadEndpoint(true, false))
    case Sending(_) => OnSender(id, StopSending)
    case Writing(_) => OnSender(id, WriteDatagram)
    case Finishing(_) => if pack then Return(id) else OnSender(id, ReturnPermit)
    case Idle => Return(id)
  }

  /** How many such steps are left before it returns. */
  function Left(op: Op): nat
  {
    match op
    case Attempt(_, _, at, hand, _, _) =>
      (match at
       case Detached => if hand.Some? then 1 else 0
       case Ending => 2
       case Refused => 3
       case Retiring => 3
       case Decided => 4
       case Dialed => 4
       case Publishing => 5
       case _ => 3)
    case Pack(sender) => SenderLeft(sender)
    case Refresh(sender) => SenderLeft(sender)
    case _ => 0
  }

  function SenderLeft(at: SenderAt): nat
  {
    match at
    case Idle => 0
    case Finishing(_) => 1
    case Writing(_) => 3
    case _ => 2
  }

  /** It can take that step, waiting for no permit and no other call. */
  ghost predicate Advances(r: Rt, t: Rt, id: nat)
    requires id in r.ops
  {
    && IsClosing(t)
    && if id in t.ops then t.ops.Keys == r.ops.Keys && Left(t.ops[id]) < Left(r.ops[id]) && !t.ops[id].Dns?
       else t.ops.Keys == r.ops.Keys - {id}
  }

  lemma AttemptAdvances(r: Rt, id: nat)
    requires Slots(r) && Counted(r) && Attempts(r) && IsClosing(r) && id in r.ops && r.ops[id].Attempt?
    ensures Advances(r, Step(r, NextOf(id, r.ops[id])), id)
  {
    hide Slots, Counted, Attempts, AttemptOk, AttemptStep, ReturnStep;
    HoldsWhatItCloses(r, id);
    var op := r.ops[id];
    if op.at == Detached && op.hand == None {
      AttemptEnds(r, id);
    } else {
      var act := NextOf(id, op).act;
      AttemptMoves(r, id, act);
      AttemptGoesOn(r, id, act);
    }
  }

  lemma HoldsWhatItCloses(r: Rt, id: nat)
    requires Slots(r) && Attempts(r) && id in r.ops && r.ops[id].Attempt?
    ensures r.ops[id].at == Refused || r.ops[id].at == Retiring ==> r.ops[id].hand.Some?
  {}

  lemma AttemptEnds(r: Rt, id: nat)
    requires Slots(r) && Counted(r) && IsClosing(r) && id in r.ops && r.ops[id].Attempt?
    requires r.ops[id].at == Detached && r.ops[id].hand == None
    ensures Advances(r, Step(r, Return(id)), id)
  {
    hide Slots, UnregisterStep;
    assert r.activeCalls > 0 by { MapShrinks(r.ops, id); }
    AttemptUnregisters(r, id);
  }

  lemma AttemptGoesOn(r: Rt, id: nat, act: AttemptAct)
    requires IsClosing(r) && id in r.ops && r.ops[id].Attempt? && NextOf(id, r.ops[id]) == OnAttempt(id, act)
    requires OneMoves(r, AttemptStep(r, id, act), id) && AttemptStep(r, id, act).ops[id].Attempt?
    requires r.ops[id].at == Refused || r.ops[id].at == Retiring ==> r.ops[id].hand.Some?
    ensures Left(AttemptStep(r, id, act).ops[id]) < Left(r.ops[id])
  {
    hide OneMoves, AttachStep, AdmitStep, BootStep, PublishStep;
    match act
    case Attach(canceled, v5) => CanceledAttach(r, id);
    case AdmitBoot(canceled) => CanceledAdmit(r, id);
    case BootWrite(full, ready) => FailedBoot(r, id);
    case Publish(canceled, committed) => CanceledPublish(r, id);
    case _ =>
  }

  lemma CanceledAttach(r: Rt, id: nat)
    requires id in r.ops && r.ops[id].Attempt?
    ensures var t := AttachStep(r, id, true, false); id in t.ops && t.ops[id].Attempt? && t.ops[id].at == Refused
  {}

  lemma CanceledAdmit(r: Rt, id: nat)
    requires id in r.ops && r.ops[id].Attempt?
    ensures var t := AdmitStep(r, id, true); id in t.ops && t.ops[id].Attempt? && t.ops[id].at == Ending
  {}

  lemma FailedBoot(r: Rt, id: nat)
    requires id in r.ops && r.ops[id].Attempt? && r.ops[id].at.BootWriting?
    ensures var t := BootStep(r, id, false, false); id in t.ops && t.ops[id].Attempt? && t.ops[id].at == Ending
  {}

  lemma CanceledPublish(r: Rt, id: nat)
    requires id in r.ops && r.ops[id].Attempt?
    ensures var t := PublishStep(r, id, true, false); id in t.ops && t.ops[id].Attempt? && t.ops[id].at == Decided
  {}

  lemma OtherAdvances(r: Rt, id: nat)
    requires Counted(r) && Workers(r) && IsClosing(r) && id in r.ops && !r.ops[id].Attempt?
    requires r.ops[id].Dns? ==> r.ops[id].busy == None
    ensures Advances(r, Step(r, NextOf(id, r.ops[id])), id)
  {
    hide Counted, Workers, SenderStep, ReturnStep, Advances;
    if NextOf(id, r.ops[id]).OnSender? {
      SenderAdvances(r, id);
    } else {
      assert r.ops[id].Pack? ==> r.ops[id].sender != Idle by {
        if r.ops[id].Pack? { PackIsBusy(r, id); }
      }
      PlainEnds(r, id);
    }
  }

  lemma SenderGoesOn(r: Rt, id: nat, act: SenderAct)
    requires IsClosing(r) && id in r.ops && Sends(r.ops[id]) && NextOf(id, r.ops[id]) == OnSender(id, act)
    requires id in SenderStep(r, id, act).ops && KindOf(SenderStep(r, id, act).ops[id]) == KindOf(r.ops[id])
    ensures Left(SenderStep(r, id, act).ops[id]) < Left(r.ops[id])
  {}

  lemma SenderAdvances(r: Rt, id: nat)
    requires IsClosing(r) && id in r.ops && Sends(r.ops[id]) && NextOf(id, r.ops[id]).OnSender?
    ensures Advances(r, Step(r, NextOf(id, r.ops[id])), id)
  {
    var act := NextOf(id, r.ops[id]).sends;
    SenderMoves(r, id, act);
    SenderGoesOn(r, id, act);
    hide SenderStep, SenderLeft;
  }

  lemma PlainEnds(r: Rt, id: nat)
    requires Counted(r) && IsClosing(r) && id in r.ops && !r.ops[id].Attempt? && NextOf(id, r.ops[id]) == Return(id)
    requires r.ops[id].Dns? ==> r.ops[id].busy == None
    requires r.ops[id].Pack? ==> r.ops[id].sender != Idle
    ensures Advances(r, Step(r, Return(id)), id)
  {
    hide UnregisterStep;
    assert r.activeCalls > 0 by { MapShrinks(r.ops, id); }
  }

  /** A call of a closing runtime can be brought to its end. */
  lemma CallCanEnd(r: Rt, id: nat)
    requires Inv(r) && Workers(r) && IsClosing(r) && id in r.ops
    requires r.ops[id].Dns? ==> r.ops[id].busy == None
    ensures exists more :: Run(r, more).ops.Keys == r.ops.Keys - {id} && IsClosing(Run(r, more))
    decreases Left(r.ops[id])
  {
    hide Slots, Permitted, Owned, CutOk, PublishedOk, Targets, Logged, Counted, Workers, Attempts, Step, NextOf, Left;
    var e := NextOf(id, r.ops[id]);
    var t := Step(r, e);
    if r.ops[id].Attempt? {
      AttemptAdvances(r, id);
    } else {
      OtherAdvances(r, id);
    }
    StepKeepsInv(r, e);
    StepKeepsWorkers(r, e);
    if id in t.ops {
      CallCanEnd(t, id);
      var more :| Run(t, more).ops.Keys == t.ops.Keys - {id} && IsClosing(Run(t, more));
      assert Run(r, [e] + more) == Run(t, more);
    } else {
      assert Run(r, [e]) == t;
    }
  }

  lemma {:induction false} RunConcat(r: Rt, a: seq<Event>, b: seq<Event>)
    ensures Run(r, a + b) == Run(Run(r, a), b)
    decreases |a|
  {
    hide Step;
    if a == [] {
      assert a + b == b;
    } else {
      RunConcat(Step(r, a[0]), a[1..], b);
      assert (a + b)[0] == a[0] && (a + b)[1..] == a[1..] + b;
    }
  }

  /** Without an attempt no worker waits for one. */
  lemma NobodyWaits(r: Rt, id: nat)
    requires Slots(r) && Workers(r) && id in r.ops && (r.attempt == None || r.attempt == Some(id))
    ensures r.ops[id].Dns? ==> r.ops[id].busy == None
  {
    if r.attempt == Some(id) {
      assert KindOf(r.ops[id]) == AttemptKind;
    }
  }

  lemma {:induction false} CanDrain(r: Rt)
    requires Inv(r) && Workers(r) && IsClosing(r)
    ensures exists more :: Run(r, more).ops == map[] && IsClosing(Run(r, more))
    decreases |r.ops|
  {
    hide Permitted, Owned, CutOk, PublishedOk, Targets, Logged, Counted, Workers, Attempts, Step;
    if r.ops == map[] {
      assert Run(r, []) == r;
    } else {
      var some: nat :| some in r.ops;
      var id := if r.attempt.Some? then r.attempt.value else some;
      NobodyWaits(r, id);
      CallCanEnd(r, id);
      var first :| Run(r, first).ops.Keys == r.ops.Keys - {id} && IsClosing(Run(r, first));
      RunKeepsWorkers(r, first);
      var t := Run(r, first);
      assert |t.ops| == |t.ops.Keys| && |r.ops| == |r.ops.Keys|;
      CanDrain(t);
      var rest :| Run(t, rest).ops == map[] && IsClosing(Run(t, rest));
      RunConcat(r, first, rest);
    }
  }

  /** From every state of every run in which closing has begun, some run drains the runtime: no call, and no worker,
      is ever left waiting for something that cannot come. */
  lemma ClosingCanDrain(events: seq<Event>)
    requires IsClosing(Run(START, events))
    ensures exists more :: var t := Run(START, events + more); t.ops == map[] && t.activeCalls == 0 && t.drains == 1
  {
    hide Inv, Workers, Step;
    StartHasNoWorkers();
    RunKeepsWorkers(START, events);
    CanDrain(Run(START, events));
    var more :| Run(Run(START, events), more).ops == map[] && IsClosing(Run(Run(START, events), more));
    RunConcat(START, events, more);
    CallsAreCounted(events + more);
  }

  /** The DNS worker waits only for an attempt that is registered. */
  lemma BusyWorkerWaits(events: seq<Event>, i: nat)
    ensures var r := Run(START, events);
      i in r.ops && r.ops[i].Dns? && r.ops[i].busy.Some? ==>
        r.ops[i].busy.value in r.ops && r.ops[r.ops[i].busy.value].Attempt?
  {
    hide Inv;
    StartHasNoWorkers();
    RunKeepsWorkers(START, events);
  }
}
