/** The runtime's lifecycle as a transition system. Every critical section under the lifecycle lock is
    one step, socket closes and writes are steps of their own between them, and any number of calls may
    be in progress. A write is admitted under the lock and made after it: anything may happen in between.
    Cancellation, dial results, write results and resolver answers are arbitrary. */
module Lifecycle {
  import opened Base

  /** Where one candidate attempt stands, from registration to unregistration. */
  datatype AttemptAt =
    | Dialing                 // registered; lookup and dial in progress
    | Dialed                  // holds a socket it has not attached
    | Refused                 // must close its private socket
    | Booting                 // attached; writing bootstrap templates
    | BootWriting(socket: nat) // a bootstrap write was admitted and is not yet made
    | Booted                  // state ready; waits for the send permit
    | Publishing              // holds the permit
    | Decided                 // published or not; holds the permit and any retired socket
    | Retiring                // must close the retired socket
    | Ending                  // about to detach whatever is still attached
    | Detached                // must close what it detached, then unregister

  datatype SenderAt =
    | Idle                    // refresh worker between rounds
    | Waiting                 // wants the permit
    | Holding                 // holds the permit; has not read the endpoint
    | Sending(target: nat)    // holds the permit; sends to the endpoint it read
    | Writing(target: nat)    // a write was admitted and is not yet made
    | Finishing(holds: bool)  // done; the permit goes back when it holds it

  datatype Op =
    | Attempt(initial: bool, previous: Option<nat>, at: AttemptAt, hand: Option<nat>, candidate: Option<nat>, started: bool)
    | Pack(sender: SenderAt)
    | Consume
    | Dns(busy: Option<nat>)
    | Refresh(sender: SenderAt)

  /** A Start that has unregistered and will try to start its workers. */
  datatype Tail = Tail(dnsDone: bool)

  /** A socket and how often it was closed. */
  datatype Socket = Socket(closes: nat, booted: bool)

  datatype Kind = Bootstrap | Template | Data

  /** One datagram given to a socket: by whom, whether the socket was still open, whether the closer had
      closed it, and whether closing had begun. */
  datatype Sent = Sent(op: nat, socket: nat, kind: Kind, open: bool, cut: bool, closing: bool)

  datatype Closer = NotClosing | Closing(todo: set<nat>)

  /** The runtime's fields, and history: the calls in progress, every socket dialed, the endpoint each Pack
      read, the sockets the closer has closed, and the datagrams written. */
  datatype Rt = Rt(
    closer: Closer,
    attempt: Option<nat>,
    published: Option<nat>,
    activeCalls: nat,
    packCancel: Option<nat>,
    requestCancel: Option<nat>,
    dnsCancel: Option<nat>,
    refreshCancel: Option<nat>,
    permit: Option<nat>,
    drains: nat,
    next: nat,
    ops: map<nat, Op>,
    tails: map<nat, Tail>,
    sockets: seq<Socket>,
    targets: map<nat, nat>,
    cut: set<nat>,
    log: seq<Sent>)

  const START := Rt(NotClosing, None, None, 0, None, None, None, None, None, 0, 0, map[], map[], [], map[], {}, [])

  predicate IsClosing(r: Rt) { r.closer.Closing? }

  // ---- shared pieces --------------------------------------------------------------------

  /** Registration: one more call, under the lock. */
  function Register(r: Rt, op: Op): Rt
  {
    r.(ops := r.ops[r.next := op], next := r.next + 1, activeCalls := r.activeCalls + 1)
  }

  /** endCallLocked: the last call of a closing runtime closes the drained channel. */
  function EndCall(r: Rt, id: nat): Rt
    requires r.activeCalls > 0
  {
    var calls := r.activeCalls - 1;
    r.(ops := r.ops - {id}, activeCalls := calls, drains := if IsClosing(r) && calls == 0 then r.drains + 1 else r.drains)
  }

  function Close(r: Rt, s: nat): Rt
  {
    if s < |r.sockets| then r.(sockets := r.sockets[s := r.sockets[s].(closes := r.sockets[s].closes + 1)]) else r
  }

  function Log(r: Rt, id: nat, s: nat, kind: Kind): Rt
  {
    r.(log := r.log + [Sent(id, s, kind, s < |r.sockets| && r.sockets[s].closes == 0, s in r.cut, IsClosing(r))])
  }

  function Set(r: Rt, id: nat, op: Op): Rt { r.(ops := r.ops[id := op]) }

  // ---- events ---------------------------------------------------------------------------

  /** Calls that register. */
  datatype Call =
    | StartCall
    | MaintainCall(dns: nat, canceled: bool)
    | PackCall
    | ConsumeCall
    | StartDns(tail: nat, timer: bool)
    | StartRefresh(tail: nat, timer: bool)

  /** What a registered attempt does next. */
  datatype AttemptAct =
    | DialDone(connected: bool)
    | Attach(canceled: bool, v5: bool)
    | AdmitBoot(canceled: bool)
    | BootWrite(full: bool, ready: bool)
    | AcquirePermit
    | AcquireFails
    | Publish(canceled: bool, committed: bool)
    | ReleasePermit
    | CloseHand
    | Detach

  /** What a registered Pack or the refresh worker does next. */
  datatype SenderAct =
    | Want(due: bool, canceled: bool)
    | Acquire
    | AcquireFail
    | ReadEndpoint(canceled: bool, available: bool)
    | AdmitWrite(available: bool)
    | WriteDatagram
    | StopSending
    | ReturnPermit

  datatype Event =
    | Begin(call: Call)
    | OnAttempt(id: nat, act: AttemptAct)
    | OnSender(id: nat, sends: SenderAct)
    | Return(id: nat)
    | CloseHandles
    | CloserClose(socket: nat)

  function Step(r: Rt, e: Event): Rt
  {
    match e
    case Begin(call) => BeginStep(r, call)
    case OnAttempt(id, act) => if id in r.ops && r.ops[id].Attempt? then AttemptStep(r, id, act) else r
    case OnSender(id, act) => if id in r.ops && Sends(r.ops[id]) then SenderStep(r, id, act) else r
    case Return(id) => if id in r.ops && r.activeCalls > 0 then ReturnStep(r, id) else r
    case CloseHandles => if IsClosing(r) then r else CloseStep(r)
    case CloserClose(s) =>
      if !IsClosing(r) || s !in r.closer.todo then r
      else Close(r, s).(closer := Closing(r.closer.todo - {s}), cut := r.cut + {s})
  }

  function BeginStep(r: Rt, call: Call): Rt
  {
    match call
    case StartCall =>
      if IsClosing(r) || r.published.Some? || r.attempt.Some? then r
      else Register(r, Attempt(true, None, Dialing, None, None, false)).(attempt := Some(r.next))
    case MaintainCall(dns, canceled) =>
      if dns !in r.ops || r.ops[dns] != Dns(None) || IsClosing(r) || canceled || r.published == None || r.attempt.Some? then r
      else
        Register(Set(r, dns, Dns(Some(r.next))), Attempt(false, r.published, Dialing, None, None, false))
        .(attempt := Some(r.next))
    case PackCall =>
      if IsClosing(r) || r.packCancel.Some? then r
      else Register(r, Pack(Waiting)).(packCancel := Some(r.next))
    case ConsumeCall =>
      if IsClosing(r) || r.requestCancel.Some? then r
      else Register(r, Consume).(requestCancel := Some(r.next))
    case StartDns(tail, timer) =>
      if tail !in r.tails || r.tails[tail].dnsDone then r
      else
        var after := r.(tails := r.tails[tail := Tail(true)]);
        if IsClosing(r) || r.published == None || r.dnsCancel.Some? || !timer then after
        else Register(after, Dns(None)).(dnsCancel := Some(r.next))
    case StartRefresh(tail, timer) =>
      if tail !in r.tails || !r.tails[tail].dnsDone then r
      else
        var after := r.(tails := r.tails - {tail});
        if IsClosing(r) || r.published == None || r.refreshCancel.Some? || !timer then after
        else Register(after, Refresh(Idle)).(refreshCancel := Some(r.next))
  }

  function AttemptStep(r: Rt, id: nat, act: AttemptAct): Rt
    requires id in r.ops && r.ops[id].Attempt?
  {
    var op := r.ops[id];
    match act
    case DialDone(connected) =>
      if op.at != Dialing then r
      else if !connected then Set(r, id, op.(at := Ending))
      else Set(r, id, op.(at := Dialed, hand := Some(|r.sockets|))).(sockets := r.sockets + [Socket(0, false)])
    case Attach(canceled, v5) => if op.at != Dialed then r else AttachStep(r, id, canceled, v5)
    case AdmitBoot(canceled) => if op.at != Booting then r else AdmitStep(r, id, canceled)
    case BootWrite(full, ready) => if !op.at.BootWriting? then r else BootStep(r, id, full, ready)
    case AcquirePermit =>
      if r.permit.Some? || op.at != Booted then r else Set(r, id, op.(at := Publishing)).(permit := Some(id))
    case AcquireFails => if op.at != Booted then r else Set(r, id, op.(at := Ending))
    case Publish(canceled, committed) => if op.at != Publishing then r else PublishStep(r, id, canceled, committed)
    case ReleasePermit =>
      if op.at != Decided then r
      else Set(r, id, op.(at := if op.hand.Some? then Retiring else Ending)).(permit := None)
    case CloseHand =>
      if op.at !in {Refused, Retiring, Detached} || op.hand == None then r
      else Set(Close(r, op.hand.value), id, op.(hand := None, at := if op.at == Detached then Detached else Ending))
    case Detach =>
      if op.at != Ending then r else Set(r, id, op.(hand := op.candidate, candidate := None, at := Detached))
  }

  function SenderStep(r: Rt, id: nat, act: SenderAct): Rt
    requires id in r.ops && Sends(r.ops[id])
  {
    var op := r.ops[id];
    match act
    case Want(due, canceled) =>
      if op != Refresh(Idle) || IsClosing(r) || r.published == None || canceled || !due then r
      else Set(r, id, WithSender(op, Waiting))
    case Acquire =>
      if r.permit.Some? || op.sender != Waiting then r else Set(r, id, WithSender(op, Holding)).(permit := Some(id))
    case AcquireFail => if op.sender != Waiting then r else Set(r, id, WithSender(op, Finishing(false)))
    case ReadEndpoint(canceled, available) =>
      if op.sender != Holding then r
      else if IsClosing(r) || canceled || r.published == None || !available then Set(r, id, WithSender(op, Finishing(true)))
      else
        Set(r, id, WithSender(op, Sending(r.published.value)))
        .(targets := if op.Pack? then r.targets[id := r.published.value] else r.targets)
    case AdmitWrite(available) =>
      if !op.sender.Sending? || IsClosing(r) || r.published != Some(op.sender.target) || !available then r
      else Set(r, id, WithSender(op, Writing(op.sender.target)))
    case WriteDatagram =>
      if !op.sender.Writing? then r
      else Log(Set(r, id, WithSender(op, Sending(op.sender.target))), id, op.sender.target, if op.Pack? then Data else Template)
    case StopSending => if !op.sender.Sending? then r else Set(r, id, WithSender(op, Finishing(true)))
    case ReturnPermit =>
      if !op.Refresh? || !op.sender.Finishing? then r
      else Set(r, id, Refresh(Idle)).(permit := if op.sender.holds then None else r.permit)
  }

  /** The end of a call: its slot is freed and it is no longer counted, in one critical section. */
  function ReturnStep(r: Rt, id: nat): Rt
    requires id in r.ops && r.activeCalls > 0
  {
    var op := r.ops[id];
    match op
    case Attempt(_, _, at, hand, _, _) => if at != Detached || hand.Some? then r else UnregisterStep(r, id)
    case Pack(sender) =>
      if !sender.Finishing? then r
      else EndCall(r.(permit := if sender.holds then None else r.permit, packCancel := None), id)
    case Consume => EndCall(r.(requestCancel := None), id)
    case Dns(busy) => if busy.Some? then r else EndCall(r.(dnsCancel := None), id)
    case Refresh(sender) => if sender != Idle then r else EndCall(r.(refreshCancel := None), id)
  }

  predicate Sends(op: Op) { op.Pack? || op.Refresh? }

  function WithSender(op: Op, at: SenderAt): Op
    requires Sends(op)
  {
    if op.Pack? then Pack(at) else Refresh(at)
  }

  /** prepareCandidate: a closing runtime or a canceled attempt keeps the socket private and closes it. */
  function AttachStep(r: Rt, id: nat, canceled: bool, v5: bool): Rt
    requires id in r.ops && r.ops[id].Attempt?
  {
    var op := r.ops[id];
    if IsClosing(r) || canceled then Set(r, id, op.(at := Refused))
    else
      var attached := Set(r, id, op.(candidate := op.hand, hand := None, at := if v5 then Booted else Booting));
      if v5 && op.hand.Some? then MarkBooted(attached, op.hand.value) else attached
  }

  function MarkBooted(r: Rt, s: nat): Rt
  {
    if s < |r.sockets| then r.(sockets := r.sockets[s := r.sockets[s].(booted := true)]) else r
  }

  /** One bootstrap template is admitted only for the registered attempt, on its own attached socket. */
  function AdmitStep(r: Rt, id: nat, canceled: bool): Rt
    requires id in r.ops && r.ops[id].Attempt?
  {
    var op := r.ops[id];
    if IsClosing(r) || r.attempt != Some(id) || op.candidate == None || canceled then Set(r, id, op.(at := Ending))
    else Set(r, id, op.(at := BootWriting(op.candidate.value)))
  }

  /** The admitted template is written, on whatever has become of the socket, and its result committed. */
  function BootStep(r: Rt, id: nat, full: bool, ready: bool): Rt
    requires id in r.ops && r.ops[id].Attempt? && r.ops[id].at.BootWriting?
  {
    var op := r.ops[id];
    var written := Log(r, id, op.at.socket, Bootstrap);
    if !full then Set(written, id, op.(at := Ending))
    else if ready then MarkBooted(Set(written, id, op.(at := Booted)), op.at.socket)
    else Set(written, id, op.(at := Booting))
  }

  /** publish: the last fallible step is the resolver's commit; then ownership moves. */
  function PublishStep(r: Rt, id: nat, canceled: bool, committed: bool): Rt
    requires id in r.ops && r.ops[id].Attempt?
  {
    var op := r.ops[id];
    if IsClosing(r) || canceled || r.attempt != Some(id) || op.candidate == None || r.published != op.previous
      || !(op.candidate.value < |r.sockets| && r.sockets[op.candidate.value].booted) || !committed
    then Set(r, id, op.(at := Decided))
    else
      Set(r, id, op.(at := Decided, hand := r.published, candidate := None, started := op.initial)).(published := op.candidate)
  }

  function UnregisterStep(r: Rt, id: nat): Rt
    requires id in r.ops && r.ops[id].Attempt? && r.activeCalls > 0
  {
    var op := r.ops[id];
    var freed := if r.attempt == Some(id) then r.(attempt := None) else r;
    var idle := FreeWorker(freed, id);
    var ended := EndCall(idle, id);
    if op.started then ended.(tails := ended.tails[id := Tail(false)]) else ended
  }

  /** The worker that ran this replacement attempt goes back to its loop. */
  function FreeWorker(r: Rt, id: nat): Rt
  {
    match r.dnsCancel
    case None => r
    case Some(dns) => if dns in r.ops && r.ops[dns] == Dns(Some(id)) then Set(r, dns, Dns(None)) else r
  }

  /** closeHandles, under closeOnce: admission closes and both owned sockets become the closer's. */
  function CloseStep(r: Rt): Rt
  {
    var held := match r.attempt
      case None => None
      case Some(id) => if id in r.ops && r.ops[id].Attempt? then r.ops[id].candidate else None;
    var todo := (if r.published.Some? then {r.published.value} else {}) + (if held.Some? then {held.value} else {});
    var stripped := match r.attempt
      case None => r
      case Some(id) => if id in r.ops && r.ops[id].Attempt? then Set(r, id, r.ops[id].(candidate := None)) else r;
    stripped.(closer := Closing(todo), published := None, drains := if r.activeCalls == 0 then r.drains + 1 else r.drains)
  }

  ghost function Run(r: Rt, events: seq<Event>): Rt
    decreases |events|
  {
    if events == [] then r else Run(Step(r, events[0]), events[1..])
  }
}
