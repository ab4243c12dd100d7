/** Socket ownership and publication over every interleaving, and the theorems about whole runs. */
module LifecycleSockets {
  import opened Base
  import opened Lifecycle
  import opened LifecycleLaws

  ghost predicate Held(r: Rt) { Owned(r) && CutOk(r) && Attempts(r) && PublishedOk(r) }

  // ---- moving and closing sockets -------------------------------------------------------

  lemma SameOwners(c: Cells, d: Cells, sockets: seq<Socket>, after: seq<Socket>)
    requires OwnedBy(c, sockets) && |after| == |sockets|
    requires forall s: nat :: Owners(c, s) == Owners(d, s)
    requires forall s :: 0 <= s < |sockets| ==> after[s].closes == sockets[s].closes
    ensures OwnedBy(d, after)
  {
    hide Owners;
  }

  lemma OwnerCloses(c: Cells, d: Cells, sockets: seq<Socket>, after: seq<Socket>, x: nat)
    requires OwnedBy(c, sockets) && x < |sockets| == |after|
    requires forall s: nat :: Owners(c, s) == Owners(d, s) + if s == x then 1 else 0
    requires forall s :: 0 <= s < |sockets| ==> after[s].closes == sockets[s].closes + if s == x then 1 else 0
    ensures OwnedBy(d, after)
  {
    hide Owners;
  }

  lemma OwnerArrives(c: Cells, d: Cells, sockets: seq<Socket>, fresh_: Socket)
    requires OwnedBy(c, sockets) && fresh_.closes == 0
    requires forall s: nat :: Owners(d, s) == Owners(c, s) + if s == |sockets| then 1 else 0
    ensures OwnedBy(d, sockets + [fresh_])
  {
    hide Owners;
  }

  lemma OwnedExists(c: Cells, sockets: seq<Socket>, s: nat)
    requires OwnedBy(c, sockets) && Owners(c, s) > 0
    ensures s < |sockets| && sockets[s].closes == 0 && Owners(c, s) == 1
  {}

  /** The registered attempt's record is where its sockets are. */
  lemma AttemptCells(r: Rt, id: nat)
    requires Slots(r) && id in r.ops && r.ops[id].Attempt?
    ensures r.attempt == Some(id)
    ensures CellsOf(r) == Cells(r.published, r.ops[id].hand, r.ops[id].candidate, TodoOf(r))
  {}

  lemma MovedCells(r: Rt, t: Rt, id: nat)
    requires r.attempt == Some(id) && id in r.ops && OneMoves(r, t, id) && t.ops[id].Attempt? && t.closer == r.closer
    ensures CellsOf(t) == Cells(t.published, t.ops[id].hand, t.ops[id].candidate, TodoOf(r))
  {}

  // ---- the attempt's own steps ----------------------------------------------------------

  ghost predicate Ready(r: Rt, id: nat)
  {
    Slots(r) && Held(r) && id in r.ops && r.ops[id].Attempt? && r.attempt == Some(id) && AttemptOk(r, r.ops[id])
  }

  lemma IsReady(r: Rt, id: nat)
    requires Slots(r) && Held(r) && id in r.ops && r.ops[id].Attempt?
    ensures Ready(r, id)
  {}

  lemma DialKeeps(r: Rt, id: nat, connected: bool)
    requires Ready(r, id)
    ensures Held(AttemptStep(r, id, DialDone(connected)))
  {
    hide Slots;
    var t := AttemptStep(r, id, DialDone(connected));
    AttemptMoves(r, id, DialDone(connected));
    MovedCells(r, t, id);
    if r.ops[id].at == Dialing && connected {
      OwnerArrives(CellsOf(r), CellsOf(t), r.sockets, Socket(0, false));
    } else {
      SameOwners(CellsOf(r), CellsOf(t), r.sockets, t.sockets);
    }
  }

  lemma AttachKeeps(r: Rt, id: nat, canceled: bool, v5: bool)
    requires Ready(r, id)
    ensures Held(AttemptStep(r, id, Attach(canceled, v5)))
  {
    hide Slots;
    var t := AttemptStep(r, id, Attach(canceled, v5));
    AttemptMoves(r, id, Attach(canceled, v5));
    MovedCells(r, t, id);
    if r.ops[id].at == Dialed {
      OwnedExists(CellsOf(r), r.sockets, r.ops[id].hand.value);
    }
    SameOwners(CellsOf(r), CellsOf(t), r.sockets, t.sockets);
  }

  lemma AdmitKeeps(r: Rt, id: nat, canceled: bool)
    requires Ready(r, id)
    ensures Held(AttemptStep(r, id, AdmitBoot(canceled)))
  {
    hide Slots;
    var t := AttemptStep(r, id, AdmitBoot(canceled));
    AttemptMoves(r, id, AdmitBoot(canceled));
    MovedCells(r, t, id);
    SameOwners(CellsOf(r), CellsOf(t), r.sockets, t.sockets);
  }

  lemma BootKeeps(r: Rt, id: nat, full: bool, ready: bool)
    requires Ready(r, id)
    ensures Held(AttemptStep(r, id, BootWrite(full, ready)))
  {
    hide Slots;
    var act := BootWrite(full, ready);
    var t := AttemptStep(r, id, act);
    AttemptMoves(r, id, act);
    MovedCells(r, t, id);
    if r.ops[id].candidate.Some? {
      OwnedExists(CellsOf(r), r.sockets, r.ops[id].candidate.value);
    }
    SameOwners(CellsOf(r), CellsOf(t), r.sockets, t.sockets);
  }

  lemma PublishKeeps(r: Rt, id: nat, canceled: bool, committed: bool)
    requires Ready(r, id)
    ensures Held(AttemptStep(r, id, Publish(canceled, committed)))
  {
    hide Slots;
    var act := Publish(canceled, committed);
    var t := AttemptStep(r, id, act);
    AttemptMoves(r, id, act);
    MovedCells(r, t, id);
    SameOwners(CellsOf(r), CellsOf(t), r.sockets, t.sockets);
  }

  lemma CloseHandKeeps(r: Rt, id: nat)
    requires Ready(r, id)
    ensures Held(AttemptStep(r, id, CloseHand))
  {
    hide Slots;
    var t := AttemptStep(r, id, CloseHand);
    AttemptMoves(r, id, CloseHand);
    MovedCells(r, t, id);
    if t != r {
      var x := r.ops[id].hand.value;
      OwnedExists(CellsOf(r), r.sockets, x);
      OwnerCloses(CellsOf(r), CellsOf(t), r.sockets, t.sockets, x);
    }
  }

  lemma PlainKeeps(r: Rt, id: nat, act: AttemptAct)
    requires Ready(r, id) && act in {AcquirePermit, AcquireFails, ReleasePermit, Detach}
    ensures Held(AttemptStep(r, id, act))
  {
    hide Slots;
    var t := AttemptStep(r, id, act);
    AttemptMoves(r, id, act);
    MovedCells(r, t, id);
    SameOwners(CellsOf(r), CellsOf(t), r.sockets, t.sockets);
  }

  lemma AttemptKeeps(r: Rt, id: nat, act: AttemptAct)
    requires Slots(r) && Held(r) && id in r.ops && r.ops[id].Attempt?
    ensures Held(AttemptStep(r, id, act))
  {
    hide Slots, Held, AttemptStep;
    IsReady(r, id);
    hide Ready;
    match act
    case DialDone(connected) => DialKeeps(r, id, connected);
    case Attach(canceled, v5) => AttachKeeps(r, id, canceled, v5);
    case AdmitBoot(canceled) => AdmitKeeps(r, id, canceled);
    case BootWrite(full, ready) => BootKeeps(r, id, full, ready);
    case Publish(canceled, committed) => PublishKeeps(r, id, canceled, committed);
    case CloseHand => CloseHandKeeps(r, id);
    case _ => PlainKeeps(r, id, act);
  }

  // ---- the other steps ------------------------------------------------------------------

  /** Everything ownership depends on is as it was. */
  ghost predicate Untouched(r: Rt, t: Rt)
  {
    && t.sockets == r.sockets && t.published == r.published && t.closer == r.closer && t.cut == r.cut && t.attempt == r.attempt
    && (r.attempt.Some? ==>
          r.attempt.value in r.ops && r.attempt.value in t.ops && t.ops[r.attempt.value] == r.ops[r.attempt.value])
  }

  lemma UntouchedKeeps(r: Rt, t: Rt)
    requires Held(r) && Untouched(r, t)
    ensures Held(t)
  {
    hide OwnedBy;
  }

  lemma SenderKeeps(r: Rt, id: nat, act: SenderAct)
    requires Slots(r) && Held(r) && id in r.ops && Sends(r.ops[id])
    ensures Held(SenderStep(r, id, act))
  {
    hide Held;
    SenderMoves(r, id, act);
    SenderLeavesSockets(r, id, act);
    UntouchedKeeps(r, SenderStep(r, id, act));
  }

  lemma SenderLeavesSockets(r: Rt, id: nat, act: SenderAct)
    requires id in r.ops && Sends(r.ops[id])
    ensures SenderStep(r, id, act).sockets == r.sockets && SenderStep(r, id, act).published == r.published
    ensures SenderStep(r, id, act).cut == r.cut
  {}

  /** A new attempt has no socket yet and knows the endpoint it would replace. */
  lemma AttemptBegins(r: Rt, t: Rt, id: nat)
    requires Held(r) && r.attempt == None && !IsClosing(r)
    requires t.sockets == r.sockets && t.published == r.published && t.closer == r.closer && t.cut == r.cut
    requires t.attempt == Some(id)
    requires id in t.ops && exists initial :: t.ops[id] == Attempt(initial, r.published, Dialing, None, None, false)
    ensures Held(t)
  {
    hide OwnedBy;
    var initial :| t.ops[id] == Attempt(initial, r.published, Dialing, None, None, false);
    assert CellsOf(t) == CellsOf(r);
  }

  /** What a step that may begin an attempt leaves of the sockets. */
  ghost predicate BeginsAttempt(r: Rt, t: Rt)
  {
    && r.attempt == None && !IsClosing(r) && t.sockets == r.sockets && t.published == r.published
    && t.closer == r.closer && t.cut == r.cut && t.attempt == Some(r.next) && r.next in t.ops
    && exists initial :: t.ops[r.next] == Attempt(initial, r.published, Dialing, None, None, false)
  }

  lemma AttemptCalls(r: Rt, call: Call)
    requires Slots(r) && (call.StartCall? || call.MaintainCall?)
    ensures Untouched(r, BeginStep(r, call)) || BeginsAttempt(r, BeginStep(r, call))
  {
    if call.StartCall? {
      assert BeginStep(r, call) == r || BeginStep(r, call).ops[r.next] == Attempt(true, r.published, Dialing, None, None, false);
    } else {
      assert BeginStep(r, call) == r || BeginStep(r, call).ops[r.next] == Attempt(false, r.published, Dialing, None, None, false);
    }
  }

  lemma OtherCalls(r: Rt, call: Call)
    requires Slots(r) && (call.PackCall? || call.ConsumeCall?)
    ensures Untouched(r, BeginStep(r, call))
  {}

  lemma DnsCalls(r: Rt, tail: nat, timer: bool)
    requires Slots(r)
    ensures Untouched(r, BeginStep(r, StartDns(tail, timer)))
  {}

  lemma RefreshCalls(r: Rt, tail: nat, timer: bool)
    requires Slots(r)
    ensures Untouched(r, BeginStep(r, StartRefresh(tail, timer)))
  {}

  lemma BeginSockets(r: Rt, call: Call)
    requires Slots(r)
    ensures Untouched(r, BeginStep(r, call)) || BeginsAttempt(r, BeginStep(r, call))
  {
    hide Slots, BeginStep, Untouched, BeginsAttempt;
    match call
    case StartDns(tail, timer) => DnsCalls(r, tail, timer);
    case StartRefresh(tail, timer) => RefreshCalls(r, tail, timer);
    case PackCall => OtherCalls(r, call);
    case ConsumeCall => OtherCalls(r, call);
    case _ => AttemptCalls(r, call);
  }

  lemma BeginKeeps(r: Rt, call: Call)
    requires Slots(r) && Held(r)
    ensures Held(BeginStep(r, call))
  {
    hide Slots, Held, BeginStep;
    var t := BeginStep(r, call);
    BeginSockets(r, call);
    if Untouched(r, t) {
      UntouchedKeeps(r, t);
    } else {
      AttemptBegins(r, t, r.next);
    }
  }

  /** An attempt that ends has nothing left to own. */
  lemma UnregisterKeeps(r: Rt, id: nat)
    requires Slots(r) && Held(r) && id in r.ops && r.ops[id].Attempt? && r.activeCalls > 0
    requires r.ops[id].at == Detached && r.ops[id].hand == None
    ensures Held(UnregisterStep(r, id))
  {
    hide OwnedBy;
    AttemptCells(r, id);
    var t := UnregisterStep(r, id);
    assert t.sockets == r.sockets && t.published == r.published && t.closer == r.closer && t.attempt == None;
    assert CellsOf(t) == CellsOf(r);
  }

  lemma NotTheAttempt(r: Rt, id: nat)
    requires Slots(r) && id in r.ops && !r.ops[id].Attempt?
    ensures r.attempt != Some(id) && (r.attempt.Some? ==> r.attempt.value in r.ops)
  {}

  lemma ReturnLeavesSockets(r: Rt, id: nat)
    requires Slots(r) && id in r.ops && !r.ops[id].Attempt? && r.activeCalls > 0
    ensures Untouched(r, ReturnStep(r, id))
  {
    hide Slots, UnregisterStep;
    NotTheAttempt(r, id);
  }

  lemma ReturnKeeps(r: Rt, id: nat)
    requires Slots(r) && Held(r) && id in r.ops && r.activeCalls > 0
    ensures Held(ReturnStep(r, id))
  {
    hide Slots, Held, UnregisterStep, Untouched;
    if !r.ops[id].Attempt? {
      ReturnLeavesSockets(r, id);
      UntouchedKeeps(r, ReturnStep(r, id));
    } else if ReturnStep(r, id) != r {
      UnregisterKeeps(r, id);
    }
  }

  /** closeHandles moves both shared sockets to the closer. */
  lemma CloseKeeps(r: Rt)
    requires Slots(r) && Held(r) && !IsClosing(r)
    ensures Held(CloseStep(r))
  {
    var t := CloseStep(r);
    if r.attempt.Some? {
      AttemptCells(r, r.attempt.value);
    }
    assert t.sockets == r.sockets && t.published == None && t.attempt == r.attempt;
    assert HandOf(t) == HandOf(r) && CandidateOf(t) == None;
    SameOwnersOnClose(r, t);
    SameOwners(CellsOf(r), CellsOf(t), r.sockets, t.sockets);
  }

  lemma SameOwnersOnClose(r: Rt, t: Rt)
    requires Owned(r) && !IsClosing(r) && IsClosing(t)
    requires CellsOf(t) == Cells(None, HandOf(r), None, t.closer.todo)
    requires t.closer.todo == (if r.published.Some? then {r.published.value} else {})
                              + (if CandidateOf(r).Some? then {CandidateOf(r).value} else {})
    ensures forall s: nat :: Owners(CellsOf(r), s) == Owners(CellsOf(t), s)
  {
    forall s: nat
      ensures Owners(CellsOf(r), s) == Owners(CellsOf(t), s)
    {
      if Owners(CellsOf(r), s) > 0 {
        OwnedExists(CellsOf(r), r.sockets, s);
      }
    }
  }

  lemma CloserKeeps(r: Rt, s: nat)
    requires Held(r) && IsClosing(r) && s in r.closer.todo
    ensures Held(Step(r, CloserClose(s)))
  {
    hide BeginStep, AttemptStep, SenderStep, ReturnStep, CloseStep;
    var t := Step(r, CloserClose(s));
    OwnedExists(CellsOf(r), r.sockets, s);
    OwnerCloses(CellsOf(r), CellsOf(t), r.sockets, t.sockets, s);
  }

  lemma HeldStep(r: Rt, e: Event)
    requires Slots(r) && Held(r)
    ensures Held(Step(r, e))
  {
    hide Slots, Held, BeginStep, AttemptStep, SenderStep, ReturnStep, CloseStep;
    match e
    case Begin(call) => BeginKeeps(r, call);
    case OnAttempt(id, act) => if id in r.ops && r.ops[id].Attempt? { AttemptKeeps(r, id, act); }
    case OnSender(id, act) => if id in r.ops && Sends(r.ops[id]) { SenderKeeps(r, id, act); }
    case Return(id) => if id in r.ops && r.activeCalls > 0 { ReturnKeeps(r, id); }
    case CloseHandles => if !IsClosing(r) { CloseKeeps(r); }
    case CloserClose(s) => if IsClosing(r) && s in r.closer.todo { CloserKeeps(r, s); }
  }

  // ---- what senders send to -------------------------------------------------------------

  /** Targets and log of a step that writes nothing and leaves every targeting sender where it was. */
  ghost predicate Quiet(r: Rt, t: Rt)
  {
    && t.log == r.log && t.targets == r.targets && t.next >= r.next
    && (forall i :: i in t.ops && Targeting(t.ops[i]) ==> i in r.ops && t.ops[i] == r.ops[i])
    && (forall i :: i in t.ops && t.ops[i].Pack? && (t.ops[i].sender == Waiting || t.ops[i].sender == Holding) ==>
          i == r.next || (i in r.ops && r.ops[i].Pack? && (r.ops[i].sender == Waiting || r.ops[i].sender == Holding)))
    && PlacesKept(r, t)
  }

  /** An endpoint being sent to stays where it was, or goes to the closer, or from the closer to `cut`. */
  ghost predicate PlacesKept(r: Rt, t: Rt)
  {
    || (t.published == r.published && t.closer == r.closer && t.cut == r.cut)
    || (forall i :: i in r.ops ==> !Targeting(r.ops[i]))
    || (IsClosing(t) && forall s :: InFlight(r, r.published, s) ==> InFlight(t, t.published, s))
  }

  lemma QuietKeeps(r: Rt, t: Rt)
    requires Targets(r) && Logged(r) && Quiet(r, t)
    ensures Targets(t) && Logged(t)
  {}

  /** While an attempt publishes it holds the permit, so nobody is sending. */
  lemma PublisherIsAlone(r: Rt, id: nat)
    requires Permitted(r) && id in r.ops && r.ops[id].Attempt? && HoldsPermit(r.ops[id])
    ensures forall i :: i in r.ops ==> !Targeting(r.ops[i])
  {}

  lemma AttemptIsQuiet(r: Rt, id: nat, act: AttemptAct)
    requires Permitted(r) && id in r.ops && r.ops[id].Attempt? && !act.BootWrite?
    ensures Quiet(r, AttemptStep(r, id, act))
  {
    hide Permitted;
    AttemptMoves(r, id, act);
    AttemptLeavesLog(r, id, act);
    if act.Publish? && r.ops[id].at == Publishing {
      PublisherIsAlone(r, id);
    }
    hide AttemptStep;
  }

  lemma AttemptLeavesLog(r: Rt, id: nat, act: AttemptAct)
    requires id in r.ops && r.ops[id].Attempt?
    ensures AttemptStep(r, id, act).cut == r.cut
    ensures AttemptStep(r, id, act).targets == r.targets
    ensures !act.BootWrite? ==> AttemptStep(r, id, act).log == r.log
    ensures !(act.Publish? && r.ops[id].at == Publishing) ==> AttemptStep(r, id, act).published == r.published
  {
    hide PublishStep;
    if act.Publish? {
      PublishLeavesLog(r, id, act.canceled, act.committed);
    }
  }

  lemma PublishLeavesLog(r: Rt, id: nat, canceled: bool, committed: bool)
    requires id in r.ops && r.ops[id].Attempt?
    ensures PublishStep(r, id, canceled, committed).cut == r.cut
    ensures PublishStep(r, id, canceled, committed).targets == r.targets
    ensures PublishStep(r, id, canceled, committed).log == r.log
  {}

  /** A socket whose write was admitted is open exactly when the closer has not closed it since. */
  lemma OpenUnlessCut(r: Rt, place: Option<nat>, s: nat)
    requires Held(r) && InFlight(r, place, s)
    requires place == r.published || place == CandidateOf(r)
    ensures s < |r.sockets|
    ensures r.sockets[s].closes == 0 <==> s !in r.cut
    ensures s in r.cut ==> IsClosing(r)
  {
    if s !in r.cut {
      OwnedExists(CellsOf(r), r.sockets, s);
    }
  }

  lemma BootSocketOpen(r: Rt, id: nat)
    requires Slots(r) && Held(r) && id in r.ops && r.ops[id].Attempt?
    ensures r.ops[id].at.BootWriting? ==>
      var s := r.ops[id].at.socket;
      && s < |r.sockets| && (r.sockets[s].closes == 0 <==> s !in r.cut) && (s in r.cut ==> IsClosing(r))
  {
    AttemptCells(r, id);
    hide Slots;
    if r.ops[id].at.BootWriting? {
      OpenUnlessCut(r, r.ops[id].candidate, r.ops[id].at.socket);
    }
  }

  /** A bootstrap template is written to the attempt's own socket. */
  lemma BootWrites(r: Rt, id: nat, full: bool, ready: bool)
    requires Slots(r) && Held(r) && Targets(r) && Logged(r) && id in r.ops && r.ops[id].Attempt?
    ensures Targets(AttemptStep(r, id, BootWrite(full, ready)))
    ensures Logged(AttemptStep(r, id, BootWrite(full, ready)))
  {
    hide Slots, Held;
    var act := BootWrite(full, ready);
    BootSocketOpen(r, id);
    AttemptMoves(r, id, act);
    AttemptLeavesLog(r, id, act);
    var t := AttemptStep(r, id, act);
    var unlogged := t.(log := r.log);
    BootLogs(r, id, act);
    hide AttemptStep;
    QuietKeeps(r, unlogged);
  }

  lemma BootLogs(r: Rt, id: nat, act: AttemptAct)
    requires id in r.ops && r.ops[id].Attempt? && act.BootWrite?
    ensures var t := AttemptStep(r, id, act);
      if r.ops[id].at.BootWriting? then t.log == Log(r, id, r.ops[id].at.socket, Bootstrap).log else t.log == r.log
  {}

  /** The admitted datagram is written, on whatever has become of the socket. */
  lemma DatagramWrites(r: Rt, id: nat)
    requires Held(r) && Targets(r) && Logged(r) && id in r.ops && Sends(r.ops[id])
    ensures Targets(SenderStep(r, id, WriteDatagram)) && Logged(SenderStep(r, id, WriteDatagram))
  {
    if r.ops[id].sender.Writing? {
      OpenUnlessCut(r, r.published, r.ops[id].sender.target);
    }
    hide Held;
  }

  lemma ReaderSends(r: Rt, id: nat, canceled: bool, available: bool)
    requires Held(r) && Targets(r) && Logged(r) && id in r.ops && Sends(r.ops[id]) && id < r.next
    ensures Targets(SenderStep(r, id, ReadEndpoint(canceled, available)))
    ensures Logged(SenderStep(r, id, ReadEndpoint(canceled, available)))
  {
    hide Held;
  }

  lemma OtherSends(r: Rt, id: nat, act: SenderAct)
    requires Targets(r) && Logged(r) && id in r.ops && Sends(r.ops[id]) && !act.WriteDatagram? && !act.ReadEndpoint?
    ensures Targets(SenderStep(r, id, act)) && Logged(SenderStep(r, id, act))
  {
    SenderMoves(r, id, act);
    SenderLeavesSockets(r, id, act);
  }

  lemma SenderSends(r: Rt, id: nat, act: SenderAct)
    requires Held(r) && Targets(r) && Logged(r) && id in r.ops && Sends(r.ops[id]) && id < r.next
    ensures Targets(SenderStep(r, id, act)) && Logged(SenderStep(r, id, act))
  {
    hide Held, Targets, Logged, SenderStep;
    match act
    case WriteDatagram => DatagramWrites(r, id);
    case ReadEndpoint(canceled, available) => ReaderSends(r, id, canceled, available);
    case _ => OtherSends(r, id, act);
  }

  /** Every call is as it was, is not a sender, or is a fresh sender that waits. */
  ghost predicate SendersSame(r: Rt, t: Rt)
  {
    && t.log == r.log && t.targets == r.targets && t.next >= r.next && t.published == r.published && t.closer == r.closer
    && t.cut == r.cut
    && forall i :: i in t.ops ==>
         || (i in r.ops && t.ops[i] == r.ops[i]) || !Sends(t.ops[i])
         || (i == r.next && !Targeting(t.ops[i]))
  }

  lemma SameSendersQuiet(r: Rt, t: Rt)
    requires SendersSame(r, t)
    ensures Quiet(r, t)
  {}

  lemma BeginIsQuiet(r: Rt, call: Call)
    requires Slots(r)
    ensures Quiet(r, BeginStep(r, call))
  {
    hide Slots, Quiet;
    SameSendersQuiet(r, BeginStep(r, call));
  }

  lemma ReturnIsQuiet(r: Rt, id: nat)
    requires Slots(r) && id in r.ops && r.activeCalls > 0
    ensures Quiet(r, ReturnStep(r, id))
  {
    hide Quiet, UnregisterStep, SendersSame, Slots, EndCall;
    if r.ops[id].Attempt? {
      UnregisterSenders(r, id);
      StillQuiet(r);
    } else {
      ReturnSenders(r, id);
    }
    SameSendersQuiet(r, ReturnStep(r, id));
  }

  lemma StillQuiet(r: Rt)
    ensures SendersSame(r, r)
  {}

  lemma ReturnSenders(r: Rt, id: nat)
    requires id in r.ops && !r.ops[id].Attempt? && r.activeCalls > 0
    ensures SendersSame(r, ReturnStep(r, id))
  {
    hide UnregisterStep;
  }

  lemma UnregisterSenders(r: Rt, id: nat)
    requires Slots(r) && id in r.ops && r.ops[id].Attempt? && r.activeCalls > 0
    ensures SendersSame(r, UnregisterStep(r, id))
  {
    hide Slots;
  }

  lemma CloseIsQuiet(r: Rt)
    requires Slots(r) && !IsClosing(r)
    ensures Quiet(r, CloseStep(r))
  {}

  lemma SendsStep(r: Rt, e: Event)
    requires Slots(r) && Permitted(r) && Held(r) && Targets(r) && Logged(r)
    ensures Targets(Step(r, e)) && Logged(Step(r, e))
  {
    hide Slots, Permitted, Held, Targets, Logged, Quiet, BeginStep, AttemptStep, SenderStep, ReturnStep, CloseStep;
    match e
    case Begin(call) => BeginIsQuiet(r, call); QuietKeeps(r, Step(r, e));
    case OnAttempt(id, act) =>
      if id in r.ops && r.ops[id].Attempt? {
        if act.BootWrite? {
          BootWrites(r, id, act.full, act.ready);
        } else {
          AttemptIsQuiet(r, id, act);
          QuietKeeps(r, Step(r, e));
        }
      }
    case OnSender(id, act) => if id in r.ops && Sends(r.ops[id]) { SlotOfCall(r, id); SenderSends(r, id, act); }
    case Return(id) => if id in r.ops && r.activeCalls > 0 { ReturnIsQuiet(r, id); QuietKeeps(r, Step(r, e)); }
    case CloseHandles => if !IsClosing(r) { CloseIsQuiet(r); QuietKeeps(r, Step(r, e)); }
    case CloserClose(s) => CloserIsQuiet(r, s); QuietKeeps(r, Step(r, e));
  }

  lemma CloserIsQuiet(r: Rt, s: nat)
    ensures Quiet(r, Step(r, CloserClose(s)))
  {}

  // ---- every run ------------------------------------------------------------------------

  lemma StepKeepsInv(r: Rt, e: Event)
    requires Inv(r)
    ensures Inv(Step(r, e))
  {
    hide Slots, Counted, Permitted, Owned, Attempts, PublishedOk, Targets, Logged, Step;
    CallsStep(r, e);
    PermitStep(r, e);
    HeldStep(r, e);
    SendsStep(r, e);
  }

  /** Every interleaving, of any length and any number of calls, keeps the invariant. */
  lemma {:induction false} RunKeepsInv(r: Rt, events: seq<Event>)
    requires Inv(r)
    ensures Inv(Run(r, events))
    decreases |events|
  {
    hide Inv, Step;
    if events != [] {
      StepKeepsInv(r, events[0]);
      RunKeepsInv(Step(r, events[0]), events[1..]);
    }
  }

  function SlotSet(slot: Option<nat>): set<nat> { if slot.Some? then {slot.value} else {} }

  lemma UnionSize(a: set<nat>, slot: Option<nat>)
    ensures |a + SlotSet(slot)| <= |a| + 1
  {
    if slot.Some? && slot.value !in a {
      assert |a + {slot.value}| == |a| + 1;
    } else {
      assert a + SlotSet(slot) == a;
    }
  }

  /** The registered calls all sit in the five slots. */
  function FilledSlots(r: Rt): set<nat>
  {
    SlotSet(r.attempt) + SlotSet(r.packCancel) + SlotSet(r.requestCancel) + SlotSet(r.dnsCancel) + SlotSet(r.refreshCancel)
  }

  lemma AtMostFive(r: Rt)
    ensures |FilledSlots(r)| <= 5
  {
    hide SlotSet;
    var one := SlotSet(r.attempt);
    UnionSize({}, r.attempt);
    assert {} + one == one;
    UnionSize(one, r.packCancel);
    UnionSize(one + SlotSet(r.packCancel), r.requestCancel);
    UnionSize(one + SlotSet(r.packCancel) + SlotSet(r.requestCancel), r.dnsCancel);
    UnionSize(one + SlotSet(r.packCancel) + SlotSet(r.requestCancel) + SlotSet(r.dnsCancel), r.refreshCancel);
  }

  lemma CallSitsInSlot(r: Rt, i: nat)
    requires Slots(r) && i in r.ops
    ensures i in FilledSlots(r)
  {
    SlotOfCall(r, i);
  }

  lemma FiveSlots(r: Rt)
    requires Slots(r)
    ensures |r.ops| <= 5
  {
    hide Slots, FilledSlots;
    forall i | i in r.ops
      ensures i in FilledSlots(r)
    {
      CallSitsInSlot(r, i);
    }
    assert r.ops.Keys <= FilledSlots(r);
    SubsetSize(r.ops.Keys, FilledSlots(r));
    AtMostFive(r);
  }

  /** The call count is the number of registered calls, never underflows and never exceeds five, and the
      drained channel is closed exactly when closing has begun and no call is left: once. */
  lemma CallsAreCounted(events: seq<Event>)
    ensures var r := Run(START, events);
      && r.activeCalls == |r.ops| <= 5 && (forall i :: i in r.ops ==> r.activeCalls > 0)
      && r.drains <= 1 && (r.drains == 1 <==> IsClosing(r) && r.ops == map[])
  {
    hide Permitted, Owned, Attempts, PublishedOk, Targets, Logged, Slots;
    StartInv();
    RunKeepsInv(START, events);
    var r := Run(START, events);
    FiveSlots(r);
    EmptyMap(r.ops);
  }

  /** After the drain nothing can register, nothing is sent, and the channel is not closed again. */
  lemma {:induction false} DrainedIsFinal(r: Rt, events: seq<Event>)
    requires Inv(r) && r.drains == 1
    ensures var t := Run(r, events); t.drains == 1 && t.ops == map[] && t.published == None && t.log == r.log
    decreases |events|
  {
    hide Slots, Permitted, Owned, Attempts, Targets, Logged;
    if events != [] {
      StepKeepsInv(r, events[0]);
      DrainedStep(r, events[0]);
      hide Step, Inv, Counted, PublishedOk;
      DrainedIsFinal(Step(r, events[0]), events[1..]);
    }
  }

  lemma DrainedStep(r: Rt, e: Event)
    requires r.ops == map[] && IsClosing(r) && r.drains == 1 && r.published == None
    ensures Step(r, e).log == r.log && Step(r, e).drains == 1
  {}

  /** Once drained and once the closer has finished, every socket ever dialed has been closed exactly once. */
  lemma NoSocketIsLeaked(events: seq<Event>)
    ensures var r := Run(START, events);
      r.drains == 1 && TodoOf(r) == {} ==> forall s :: 0 <= s < |r.sockets| ==> r.sockets[s].closes == 1
  {
    hide Slots, Permitted, Attempts, Targets, Logged;
    StartInv();
    RunKeepsInv(START, events);
    var r := Run(START, events);
    if r.drains == 1 && TodoOf(r) == {} {
      forall s | 0 <= s < |r.sockets|
        ensures r.sockets[s].closes == 1
      {
        assert Owners(CellsOf(r), s) == 0;
      }
    }
  }

  /** At every step a socket has exactly one owner or has been closed once; what is published is open,
      fully bootstrapped and owned by nobody else; and nothing is published once closing has begun. */
  lemma OneOwner(events: seq<Event>, s: nat)
    ensures var r := Run(START, events);
      && (s < |r.sockets| ==> r.sockets[s].closes + Owners(CellsOf(r), s) == 1)
      && (r.published == Some(s) ==> s < |r.sockets| && r.sockets[s] == Socket(0, true) && !IsClosing(r)
                                     && HandOf(r) != Some(s) && CandidateOf(r) != Some(s) && s !in TodoOf(r))
  {
    hide Slots, Permitted, Attempts, Targets, Logged, Counted;
    StartInv();
    RunKeepsInv(START, events);
    var r := Run(START, events);
    assert r.published == Some(s) ==> Owners(CellsOf(r), s) >= 1;
  }

  /** Every datagram of a run went to an open socket exactly when the closer had not closed it between the
      write's admission and the write, so always while closing had not begun; and all data datagrams of one
      Pack went to the same socket, whatever was published or closed meanwhile. */
  lemma OneEndpointPerPack(events: seq<Event>, j: nat, k: nat)
    ensures var r := Run(START, events);
      && (j < |r.log| ==> (r.log[j].open <==> !r.log[j].cut) && (!r.log[j].closing ==> r.log[j].open))
      && (j < |r.log| && k < |r.log| && r.log[j].kind == r.log[k].kind == Data && r.log[j].op == r.log[k].op ==>
            r.log[j].socket == r.log[k].socket)
  {
    hide Slots, Permitted, Held, Targets, Counted, Owned, Attempts, PublishedOk, CutOk;
    StartInv();
    RunKeepsInv(START, events);
  }

  /** A write is only ever admitted on an open socket, before closing has begun. */
  lemma AdmittedOpen(r: Rt, id: nat, act: SenderAct)
    requires Inv(r) && id in r.ops && Sends(r.ops[id]) && act.AdmitWrite?
    requires SenderStep(r, id, act).ops[id].sender.Writing? && !r.ops[id].sender.Writing?
    ensures var s := SenderStep(r, id, act).ops[id].sender.target;
      !IsClosing(r) && s < |r.sockets| && r.sockets[s].closes == 0 && s !in r.cut
  {
    hide Slots, Permitted, Counted, Targets, Logged;
    OpenUnlessCut(r, r.published, r.published.value);
  }

  /** From START: a v5 candidate is published, a Pack is admitted to write, the runtime closes and the closer
      closes the socket, and only then does the write reach it. */
  function LateWrite(): seq<Event>
  {
    [Begin(StartCall), OnAttempt(0, DialDone(true)), OnAttempt(0, Attach(false, true)), OnAttempt(0, AcquirePermit),
     OnAttempt(0, Publish(false, true)), OnAttempt(0, ReleasePermit), Begin(PackCall), OnSender(1, Acquire),
     OnSender(1, ReadEndpoint(false, true)), OnSender(1, AdmitWrite(true)), CloseHandles, CloserClose(0),
     OnSender(1, WriteDatagram)]
  }

  lemma RunAt(events: seq<Event>, k: nat, r: Rt)
    requires k < |events|
    ensures Run(r, events[k..]) == Run(Step(r, events[k]), events[k + 1..])
  {
    hide Step;
    assert events[k..][1..] == events[k + 1..];
  }

  /** The published socket, with its Start about to unregister and nobody sending. */
  const LATE_PUBLISHED := Rt(NotClosing, Some(0), Some(0), 1, None, None, None, None, None, 0, 1,
                             map[0 := Attempt(true, None, Ending, None, None, true)], map[], [Socket(0, true)], map[], {}, [])

  /** The same with a Pack whose write has been admitted. */
  const LATE_ADMITTED := LATE_PUBLISHED.(activeCalls := 2, packCancel := Some(1), permit := Some(1), next := 2,
                                         ops := LATE_PUBLISHED.ops[1 := Pack(Writing(0))], targets := map[1 := 0])

  lemma LateDials(events: seq<Event>)
    requires events == LateWrite()
    ensures Run(START, events) == Run(START.(activeCalls := 1, attempt := Some(0), next := 1, sockets := [Socket(0, true)],
                                             ops := map[0 := Attempt(true, None, Booted, None, Some(0), false)]), events[3..])
  {
    hide Run, SenderStep, ReturnStep, CloseStep, PublishStep, BootStep, AdmitStep;
    assert events[0..] == events;
    var r1 := Step(START, events[0]);
    assert r1 == START.(activeCalls := 1, attempt := Some(0), next := 1,
                        ops := map[0 := Attempt(true, None, Dialing, None, None, false)]);
    var r2 := Step(r1, events[1]);
    assert r2 == r1.(ops := map[0 := Attempt(true, None, Dialed, Some(0), None, false)], sockets := [Socket(0, false)]);
    var r3 := Step(r2, events[2]);
    assert r3 == r2.(ops := map[0 := Attempt(true, None, Booted, None, Some(0), false)], sockets := [Socket(0, true)]);
    RunAt(events, 0, START);
    RunAt(events, 1, r1);
    RunAt(events, 2, r2);
  }

  lemma LatePublishes(events: seq<Event>, r3: Rt)
    requires events == LateWrite()
    requires r3 == START.(activeCalls := 1, attempt := Some(0), next := 1, sockets := [Socket(0, true)],
                          ops := map[0 := Attempt(true, None, Booted, None, Some(0), false)])
    ensures Run(r3, events[3..]) == Run(LATE_PUBLISHED, events[6..])
  {
    hide Run, SenderStep, ReturnStep, CloseStep, AttachStep, BootStep, AdmitStep, BeginStep;
    var r4 := Step(r3, events[3]);
    assert r4 == r3.(ops := map[0 := Attempt(true, None, Publishing, None, Some(0), false)], permit := Some(0));
    var r5 := Step(r4, events[4]);
    assert r5 == r4.(ops := map[0 := Attempt(true, None, Decided, None, None, true)], published := Some(0));
    assert Step(r5, events[5]) == LATE_PUBLISHED;
    RunAt(events, 3, r3);
    RunAt(events, 4, r4);
    RunAt(events, 5, r5);
  }

  const LATE_HOLDING := LATE_PUBLISHED.(activeCalls := 2, packCancel := Some(1), permit := Some(1), next := 2,
                                        ops := LATE_PUBLISHED.ops[1 := Pack(Holding)])

  lemma LateRegisters(events: seq<Event>)
    requires events == LateWrite()
    ensures Run(LATE_PUBLISHED, events[6..]) == Run(LATE_HOLDING, events[8..])
  {
    hide Run, AttemptStep, ReturnStep, CloseStep;
    var r1 := Step(LATE_PUBLISHED, events[6]);
    assert r1 == LATE_PUBLISHED.(activeCalls := 2, packCancel := Some(1), next := 2,
                                 ops := LATE_PUBLISHED.ops[1 := Pack(Waiting)]);
    assert r1.ops[1 := Pack(Holding)] == LATE_HOLDING.ops;
    assert Step(r1, events[7]) == LATE_HOLDING;
    RunAt(events, 6, LATE_PUBLISHED);
    RunAt(events, 7, r1);
  }

  lemma LateAdmits(events: seq<Event>)
    requires events == LateWrite()
    ensures Run(LATE_HOLDING, events[8..]) == Run(LATE_ADMITTED, events[10..])
  {
    hide Run, AttemptStep, ReturnStep, CloseStep, BeginStep;
    var r3 := Step(LATE_HOLDING, events[8]);
    assert LATE_HOLDING.ops[1 := Pack(Sending(0))][1 := Pack(Writing(0))] == LATE_ADMITTED.ops;
    assert r3 == LATE_HOLDING.(ops := LATE_HOLDING.ops[1 := Pack(Sending(0))], targets := map[1 := 0]);
    assert Step(r3, events[9]) == LATE_ADMITTED;
    RunAt(events, 8, LATE_HOLDING);
    RunAt(events, 9, r3);
  }

  lemma LateCloses(events: seq<Event>)
    requires events == LateWrite()
    ensures Run(LATE_ADMITTED, events[10..]).log == [Sent(1, 0, Data, false, true, true)]
  {
    hide Run, AttemptStep, ReturnStep, BeginStep;
    var op := LATE_ADMITTED.ops[0];
    assert op.(candidate := None) == op && LATE_ADMITTED.ops[0 := op] == LATE_ADMITTED.ops;
    var none: set<nat> := {};
    assert {0} + none == {0};
    var closing := Step(LATE_ADMITTED, events[10]);
    assert closing == LATE_ADMITTED.(closer := Closing({0}), published := None);
    var cut := Step(closing, events[11]);
    assert cut == closing.(closer := Closing({}), sockets := [Socket(1, true)], cut := {0});
    var last := Step(cut, events[12]);
    assert last.log == [Sent(1, 0, Data, false, true, true)];
    RunAt(events, 10, LATE_ADMITTED);
    RunAt(events, 11, closing);
    RunAt(events, 12, cut);
    RunEnds(last, events[13..]);
  }

  lemma RunEnds(r: Rt, events: seq<Event>)
    requires events == []
    ensures Run(r, events) == r
  {}

  /** A write can reach a closed socket: its admission does not hold the socket open. */
  lemma WriteMayFindItsSocketClosed()
    ensures Run(START, LateWrite()).log == [Sent(1, 0, Data, false, true, true)]
  {
    hide Run, Step;
    var events := LateWrite();
    LateDials(events);
    LatePublishes(events, START.(activeCalls := 1, attempt := Some(0), next := 1, sockets := [Socket(0, true)],
                                 ops := map[0 := Attempt(true, None, Booted, None, Some(0), false)]));
    LateRegisters(events);
    LateAdmits(events);
    LateCloses(events);
  }

  /** Publication is never overtaken: an attempt that holds the permit finds its socket attached, its state
      ready and the endpoint it replaces still published, so only closing, cancellation or the resolver
      can refuse it. */
  lemma PublishIsNotOvertaken(r: Rt, id: nat)
    requires Inv(r) && id in r.ops && r.ops[id].Attempt? && r.ops[id].at == Publishing && !IsClosing(r)
    ensures var t := AttemptStep(r, id, Publish(false, true));
      && r.ops[id].candidate.Some? && t.published == r.ops[id].candidate && t.ops[id].hand == r.published
  {
    hide Permitted, Targets, Logged, Counted, Owned;
    SlotOfCall(r, id);
  }
}
