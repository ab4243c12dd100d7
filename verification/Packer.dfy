/** The packetiser: one request's records, one at a time, through the ledger and the state machine.
    Clock samples, availability answers, write results and the appender's and writer's own answers
    are arbitrary; each is drawn from `outside` where the source asks for it. */
module Packers {
  import opened Base
  import opened Sizes
  import opened StateModel
  import opened StateLaws
  import opened States
  import opened SourceLedgers
  import opened LedgerModel
  import opened Handoffs
  import opened PackerLaws
  import opened Outsides
  import opened Journals
  import opened SourceRecords

  /** A refresh round was completed on a sample of this request. */
  ghost predicate Drained(c: Config, s: St, answers: seq<Answer>)
  {
    && !s.refreshDue && !s.refreshActive && !CountReached(c, s)
    && s.lastRefreshMono.Some? && Clocked(answers, s.lastRefreshMono.value)
  }

  /** What was committed between two points of a request is what was written in full between them. */
  ghost predicate DeliveredBetween(before: seq<Sent>, after: seq<Sent>, asked: seq<Answer>, answers: seq<Answer>)
  {
    before <= after && Delivered(answers) == Delivered(asked) + Kinds(after[|before|..])
  }

  /** A drain of the round that stood at `before`: complete exactly when its last template is sent, each
      committed template answered by a write in full. */
  ghost predicate DrainedTo(c: Config, before: St, after: St, completed: bool, asked: seq<Answer>, answers: seq<Answer>)
  {
    && DeliveredBetween(before.trace, after.trace, asked, answers)
    && if Refreshing(c, before) then
         && RoundAt(c, before, after, if completed then |c.shapes| else after.nextTemplateIndex)
         && (if completed then Drained(c, after, answers) else Refreshing(c, after))
       else after == before
  }

  /** Due again within the request: the clock moved by a whole interval. */
  lemma DueAgain(c: Config, s: St, asked: seq<Answer>, wall: nat, mono: nat)
    requires Drained(c, s, asked) && (MarkDue(c, s, mono).refreshDue || MarkDue(c, s, mono).refreshActive)
    ensures Interrupted(c, asked + [ClockAnswer(wall, mono)])
  {
    hide Interrupted, CountReached;
    ClockLeaps(c, asked, s.lastRefreshMono.value, wall, mono);
  }

  lemma RoundDrained(c: Config, before: St, marked: St, after: St, completed: bool, asked: seq<Answer>,
                     answers: seq<Answer>)
    requires Steady(before, marked) && marked.nextTemplateIndex == before.nextTemplateIndex && Refreshing(c, marked)
    requires DrainedTo(c, marked, after, completed, asked, answers)
    ensures AtMostOneRound(c, before, after.trace) && (completed ==> Drained(c, after, answers))
  {}

  /** One more template, as the log sees it. */
  lemma TemplateKinds(c: Config, before: St, after: St, mono: nat)
    requires TemplateSent(c, before, after, mono)
    ensures Kinds(after.trace) == Kinds(before.trace) + [TemplatePacket]
  {
    var sent := after.trace[|before.trace|];
    assert after.trace == before.trace + [sent];
    KindsGrow(before.trace, sent);
  }

  lemma DataKindsLogged(before: seq<Sent>, fill: Fill, write: WriteClass, after: seq<Sent>)
    requires if write == WriteFull
             then |after| == |before| + 1 && before <= after && after[|before|].kind == Data(fill.shape, fill.records)
             else after == before
    ensures Kinds(after) == Kinds(before) + if write == WriteFull then [DataPacket(fill.records)] else []
  {
    if write == WriteFull {
      assert after == before + [after[|before|]];
      KindsGrow(before, after[|before|]);
    } else {
      assert Kinds(before) + [] == Kinds(before);
    }
  }

  /** The last answer is the write of the last hand-off. */
  ghost predicate LastWrite(answers: seq<Answer>, handoffs: seq<Handoff>)
  {
    && answers != [] && handoffs != []
    && var a, h := answers[|answers| - 1], handoffs[|handoffs| - 1];
       a.WriteAnswer? && !a.template && a.length == h.length && ClassifyWrite(a.n, a.length, a.failed) == h.write
  }

  /** The template of this length was just encoded. */
  predicate JustEncoded(answers: seq<Answer>, length: nat)
  {
    answers != [] && answers[|answers| - 1] == EncodeAnswer(Some(length), length)
  }

  predicate JustAvailable(answers: seq<Answer>) { answers != [] && answers[|answers| - 1] == AvailableAnswer(true) }

  class Packer {
    const state: State
    const outside: Outside
    var ledger: SourceLedger
    var packet: Option<Packet>
    var packetOpen: bool
    var ledgerOpen: bool
    var packetShape: nat
    var packetSample: nat
    var stopped: bool
    var transient: bool
    var internal: bool
    var previewInstant: Option<nat>
    var packets: nat
    var confirmedPackets: nat
    var ambiguousPackets: nat

    /** The data datagrams given to the transport, the ordinals in the open one, whether a ledger call
        was ever refused, and what the request started from: the packets committed before it, the epoch
        and the source records. */
    ghost var handoffs: seq<Handoff>
    ghost var batch: seq<nat>
    ghost var ledgerFault: bool
    ghost var base: seq<Kind>
    ghost var done: seq<Packed>
    ghost var start: Epoch
    ghost var sources: seq<Source>

    /** What the open datagram holds, read off its ordinals. */
    ghost function Batch(): Fill
      reads `packetShape, `packetSample, `batch, `sources
    {
      Fill(packetShape, packetSample, |batch|, BytesOf(sources, batch))
    }

    ghost function Asked(): Request
      reads `start, `sources
    {
      Request(state.config, start, sources)
    }

    ghost function At(): Standing
      reads `internal, `transient, `previewInstant, state`epoch
    {
      Standing(internal, transient, state.epoch, previewInstant)
    }

    /** The state machine is between packets. */
    ghost predicate AtRest()
      reads state
    {
      state.pending == None && state.Valid() && state.epoch.ready
    }

    /** The state machine holds exactly the packet being filled. */
    ghost predicate StateSide(fill: Fill)
      reads `packetOpen, `packet, state, state.Streams()
    {
      if packetOpen then
        state.Valid() && packet.Some? && state.HoldsStream(packet.value) && Filling(state.config, state.Model(), fill)
      else AtRest()
    }

    /** The ledger, the hand-offs and the open datagram agree. */
    ghost predicate LedgerSide()
      reads `ledger, `batch, `handoffs, `ledgerOpen, `ledgerFault, ledger, ledger.classes
    {
      && ledger.Valid()
      && Books(ledger.ledger.records, batch, handoffs)
      && ledgerOpen == ledger.ledger.open && (ledgerOpen <==> batch != [])
      && !ledgerFault
    }

    /** Every datagram, the open one included, holds records of its own shape and sampling rate. */
    ghost predicate ShapeRule()
      reads `sources, `handoffs, `batch, `packetShape, `packetSample
    {
      && AllWellFormed(state.config, sources, handoffs)
      && Uniform(state.config, sources, batch, packetShape, packetSample)
    }

    /** Nothing goes out after the first datagram that was not written in full. */
    ghost predicate StopRule()
      reads `handoffs, `stopped, `packetOpen, `internal, `transient, `ledgerOpen, `ledger, ledger
    {
      && StopsAtFailure(handoffs)
      && (stopped ==> !packetOpen && (internal || transient))
      && (!stopped ==> AllFull(handoffs) && !ledger.ledger.stopped)
      && (ledgerOpen ==> packetOpen)
    }

    /** The flags and the invalid records are accounted for by the answers so far. */
    ghost predicate Accounted()
      reads `start, `sources, `internal, `transient, `previewInstant, `ledger, state`epoch, ledger, outside
    {
      Accounts(Asked(), outside.answers, At(), ledger.ledger.records)
    }

    ghost function Opened(): Option<seq<nat>>
      reads `packetOpen, `batch
    {
      if packetOpen then Some(batch) else None
    }

    /** The answers so far tell exactly what was handed off, what the open datagram holds and what the state
        committed. */
    ghost predicate Logged()
      reads `handoffs, `packetOpen, `batch, `done, state`trace, outside
    {
      Journaled(outside.answers, handoffs, Opened(), done, Kinds(state.trace))
    }

    /** No answer so far ended the request, unless it has stopped. */
    ghost predicate Running()
      reads `stopped, outside
    {
      !stopped ==> !Halted(outside.answers)
    }

    /** The packer and the answers so far agree. */
    ghost predicate Told()
      reads `start, `sources, `internal, `transient, `previewInstant, `ledger, state`epoch, ledger, outside
      reads `handoffs, `packetOpen, `batch, `done, `stopped, state`trace
    {
      Accounted() && Logged() && Running()
    }

    /** The answers so far are to blame for an internal failure. */
    ghost predicate Blame()
      reads `start, `sources, outside
    {
      Blamed(Asked(), outside.answers)
    }

    /** The packet counters count the datagrams; `finished` one is complete and not yet handed off. */
    ghost predicate Tallied(finished: nat)
      reads `handoffs, `packets, `confirmedPackets, `ambiguousPackets
    {
      && packets == |handoffs| + finished && confirmedPackets == |FullPackets(handoffs)|
      && ambiguousPackets == Doubtful(handoffs)
    }

    /** The committed data packets are exactly the datagrams written in full, with the same records. */
    ghost predicate Coupled()
      reads `base, `handoffs, `packets, `confirmedPackets, `ambiguousPackets, state`trace
    {
      DataKinds(state.trace) == base + FullPackets(handoffs) && Tallied(0)
    }

    ghost predicate Valid()
      reads this, state, state.Streams(), ledger, ledger.classes, outside
    {
      StateSide(Batch()) && LedgerSide() && StopRule() && ShapeRule() && Told()
    }

    constructor (state: State)
      requires state.Valid() && Resting(state.Model())
      ensures Valid() && this.state == state && fresh(ledger) && fresh(ledger.classes) && fresh(outside)
      ensures handoffs == [] && ledger.ledger == EMPTY && !stopped
    {
      hide StateLaws.Inv, SourceLedger.Valid, Valid, DataKinds, Kinds, FullPackets;
      this.state := state;
      outside := new Outside();
      ledger := new SourceLedger();
      packet, packetOpen, ledgerOpen, packetShape, packetSample := None, false, false, 0, 0;
      stopped, transient, internal, previewInstant := false, false, false, None;
      packets, confirmedPackets, ambiguousPackets := 0, 0, 0;
      handoffs, batch, ledgerFault, sources := [], [], false, [];
      base, done, start := DataKinds(state.trace), Kinds(state.trace), state.epoch;
      new;
      StartsConsumed();
    }

    /** Only a published, unexhausted epoch is packed for. */
    static method NewPacker(state: State) returns (packer: Option<Packer>, err: Option<Error>)
      requires state.Valid() && state.pending == None
      ensures packer.Some? <==> state.epoch.ready && !state.epoch.exhausted
      ensures packer.Some? ==> fresh(packer.value) && packer.value.Valid() && packer.value.state == state
      ensures err == if !state.epoch.ready then Some(ErrNotReady)
                     else if state.epoch.exhausted then Some(ErrUptimeExhausted) else None
    {
      if !state.epoch.ready {
        return None, Some(ErrNotReady);
      }
      if state.epoch.exhausted {
        return None, Some(ErrUptimeExhausted);
      }
      var made := new Packer(state);
      return Some(made), None;
    }

    /** The request and what it started from are as before. */
    twostate predicate SameRequest()
      reads this
    {
      sources == old(sources) && base == old(base) && done == old(done) && start == old(start)
    }

    /** Answers are only added, and an internal failure is not forgotten. */
    twostate predicate Onward()
      reads this, outside
    {
      old(outside.answers) <= outside.answers && (old(internal) ==> internal)
    }

    /** The first question was whether the destination is available. */
    twostate predicate AsksFirst()
      reads outside
    {
      |outside.answers| > |old(outside.answers)| && outside.answers[|old(outside.answers)|].AvailableAnswer?
    }

    // ---- asking and stopping ----

    /** One more answer that is no write result: all that was told before still is. */
    lemma Heard(before: seq<Answer>, a: Answer)
      requires outside.answers == before + [a] && !a.WriteAnswer?
      requires Accounts(Asked(), before, At(), ledger.ledger.records) && (!stopped ==> !Halted(before))
      requires Journaled(before, handoffs, Opened(), done, Kinds(state.trace))
      ensures Accounted() && (Halts(a) || Running())
      ensures Journaled(outside.answers, handoffs, Filled(Opened(), a), done, Kinds(state.trace))
      ensures Filled(Opened(), a) == Opened() || !packetOpen ==> Logged()
    {
      hide Accounts, Halted, Orderly, Dispatched, Delivered, Accepted;
      AccountsGrow(Asked(), before, outside.answers, At(), ledger.ledger.records);
      JournalGrows(before, handoffs, Opened(), done, Kinds(state.trace), a);
      HaltedGrows(before, a);
    }

    /** Packer.clock. */
    method Clock() returns (wall: uint64, mono: uint64)
      requires Told()
      modifies outside
      ensures Told() && outside.answers == old(outside.answers) + [ClockAnswer(wall, mono)]
    {
      hide Accounts, Journaled, Halted;
      ghost var before := outside.answers;
      wall, mono := outside.Clock();
      Heard(before, ClockAnswer(wall, mono));
    }

    /** Packer.write: an illegal count is to blame, any other result that is not full interrupts. */
    method Write(ghost template: bool, length: nat) returns (n: int, failed: bool)
      requires Accounted()
      modifies outside
      ensures Accounted() && outside.answers == old(outside.answers) + [WriteAnswer(template, n, length, failed)]
      ensures ClassifyWrite(n, length, failed) == WriteInvalid ==> Blame()
      ensures Ambiguates(ClassifyWrite(n, length, failed)) ==> Interrupted(state.config, outside.answers)
    {
      hide Accounts, Blamed, Interrupted, ClassifyWrite;
      ghost var before := outside.answers;
      n, failed := outside.Write(template, length);
      AccountsGrow(Asked(), before, outside.answers, At(), ledger.ledger.records);
      WriteJudged(Asked(), outside.answers, template, n, length, failed);
    }

    method StopInternal()
      requires Accounted() && Blame()
      modifies this`internal, this`stopped
      ensures Accounted() && Running() && internal && stopped
      ensures old(StopRule()) && !packetOpen ==> StopRule()
    {
      hide Blamed, Interrupted, Reasons, Usable;
      internal, stopped := true, true;
    }

    method StopTransient()
      requires Accounted() && Interrupted(state.config, outside.answers)
      modifies this`transient, this`stopped
      ensures Accounted() && Running() && transient && stopped
      ensures old(StopRule()) && !packetOpen ==> StopRule()
    {
      hide Blamed, Interrupted, Reasons, Usable;
      transient, stopped := true, true;
    }

    // ---- giving a packet up ----

    method DropPacket(ghost fill: Fill) returns (err: Option<Error>)
      requires packetOpen && StateSide(fill)
      modifies this`packetOpen, state
      ensures !packetOpen && AtRest() && state.Streams() == {} && err == None
      ensures state.trace == old(state.trace) && state.epoch == old(state.epoch)
      ensures (old(Accounted() && Logged()) ==> Accounted() && Logged())
    {
      hide StateLaws.Inv, StateModel.Abort, Filling, Rollback, Accounts, Halted, Orderly;
      FillingAborts(state.config, state.Model(), fill);
      err := state.AbortPacket(packet.value);
      packetOpen := false;
    }

    method DropLedger() returns (err: Option<LedgerError>)
      requires ledgerOpen && LedgerSide() && Accounted() && Logged() && !packetOpen
      modifies this`ledgerOpen, this`batch, this`ledgerFault, ledger
      ensures !ledgerOpen && LedgerSide() && Accounted() && Logged() && err == None
      ensures ledger.classes == old(ledger.classes)
      ensures OnlyPendingMoves(old(ledger.ledger.records), ledger.ledger.records)
    {
      hide Books, SourceLedger.Valid, Accounts, Journaled, Halted;
      ghost var records := ledger.ledger.records;
      AbortBooked(records, batch, handoffs);
      err := ledger.AbortPacket();
      ledgerFault := err.Some?;
      ledgerOpen, batch := false, [];
      AccountsMove(Asked(), outside.answers, At(), records, ledger.ledger.records);
    }

    /** The availability answer; a refusal interrupts the request. */
    method Unavailable() returns (unavailable: bool)
      requires Told()
      modifies outside
      ensures Accounted() && Logged() && outside.answers == old(outside.answers) + [AvailableAnswer(!unavailable)]
      ensures if unavailable then Interrupted(state.config, outside.answers) else Running()
    {
      hide Accounts, Journaled, Halted;
      ghost var before := outside.answers;
      var available := outside.Available();
      Heard(before, AvailableAnswer(available));
      assert IsInterruption(AvailableAnswer(false));
      unavailable := !available;
    }

    lemma OpenBatch()
      requires LedgerSide()
      ensures ledgerOpen <==> batch != []
    {
      hide SourceLedger.Valid, Books;
    }

    lemma NothingOpen()
      requires LedgerSide() && StopRule() && !packetOpen
      ensures batch == [] && !ledgerOpen
    {
      hide SourceLedger.Valid, Books;
    }

    /** Both sides of the open datagram are released. */
    method DropData()
      requires packetOpen && StateSide(Batch()) && LedgerSide() && ShapeRule() && Accounted() && Logged()
      modifies this`packetOpen, this`ledgerOpen, this`batch, this`ledgerFault, this`internal, state, ledger
      ensures !packetOpen && !ledgerOpen && batch == [] && LedgerSide() && ShapeRule() && Accounted() && Logged()
      ensures AtRest() && state.trace == old(state.trace) && state.epoch == old(state.epoch)
      ensures internal == old(internal) && ledger.classes == old(ledger.classes)
      ensures OnlyPendingMoves(old(ledger.ledger.records), ledger.ledger.records)
    {
      hide Books, SourceLedger.Valid, StateLaws.Inv, Filling, AllWellFormed, Uniform, BytesOf, OnlyPendingMoves,
           Accounted, Logged;
      StillMoves(ledger.ledger.records);
      NothingConforms(state.config, sources, packetShape, packetSample);
      var err := DropPacket(Batch());
      internal := internal || err.Some?;
      if ledgerOpen {
        var err := DropLedger();
        internal := internal || err.Some?;
      }
    }

    /** stopUnavailable while no data packet is open: nothing but the flags can change. It stops exactly
        when the destination is not available. */
    method StopIdle() returns (stop: bool)
      requires StopRule() && Told() && !packetOpen
      modifies this`transient, this`stopped, outside
      ensures StopRule() && Told() && outside.answers == old(outside.answers) + [AvailableAnswer(!stop)]
      ensures if stop then stopped && transient else stopped == old(stopped) && transient == old(transient)
    {
      hide StopRule, Accounted, Logged, Running, Interrupted;
      stop := Unavailable();
      if stop {
        StopTransient();
      }
    }

    /** stopUnavailable between packets. */
    method StopBetween() returns (stop: bool)
      requires Valid() && !packetOpen
      modifies this`transient, this`stopped, outside
      ensures Valid() && outside.answers == old(outside.answers) + [AvailableAnswer(!stop)]
      ensures if stop then stopped && transient else stopped == old(stopped) && transient == old(transient)
    {
      hide AtRest, LedgerSide, ShapeRule, StopRule, Accounted, Logged, Running;
      stop := StopIdle();
    }

    /** Whatever is open is released and the request stops, exactly when the destination is not available. */
    method StopUnavailable() returns (stop: bool)
      requires Valid()
      modifies this`packetOpen, this`ledgerOpen, this`batch, this`ledgerFault, this`internal, this`transient, this`stopped,
               state, ledger, outside
      ensures Valid() && ledger.classes == old(ledger.classes) && state.trace == old(state.trace)
      ensures outside.answers == old(outside.answers) + [AvailableAnswer(!stop)]
      ensures !stop ==> unchanged(this) && unchanged(state) && unchanged(ledger)
      ensures stop ==> stopped && transient && !packetOpen && batch == []
      ensures internal == old(internal) && state.Streams() <= old(state.Streams())
      ensures OnlyPendingMoves(old(ledger.ledger.records), ledger.ledger.records)
    {
      hide StateLaws.Inv, LedgerSide, ShapeRule, Accounted, Logged, Running, Filling, OnlyPendingMoves, Interrupted,
           BytesOf;
      StillMoves(ledger.ledger.records);
      var unavailable := Unavailable();
      if !unavailable {
        return false;
      }
      if packetOpen {
        DropData();
      } else {
        NothingOpen();
      }
      StopTransient();
      return true;
    }

    // ---- template refresh ----

    /** The state machine holds an encoded template packet, reserved at `mono`, of the refresh round that
        stood at `before`. */
    ghost predicate TemplateSide(template: Packet, length: nat, before: St, mono: nat)
      reads state, state.Streams()
    {
      && state.Valid() && state.Holds(template) && Offered(state.config, state.Model(), before, mono)
      && state.pending.value.encoded && state.pending.value.length == length
    }

    /** Reserves the next template; only an instant the epoch cannot use keeps it from that. */
    method BeginTemplate(wall: nat, mono: nat) returns (r: Outcome<Packet>)
      requires AtRest() && Refreshing(state.config, state.Model())
      requires Told() && ClockAnswer(wall, mono) in outside.answers
      modifies state
      ensures Told() && state.trace == old(state.trace)
      ensures if r.Done? then state.Valid() && state.Holds(r.value)
                              && Offered(state.config, state.Model(), old(state.Model()), mono)
                              && r.value.stream == null && state.pending == Some(r.value) && !r.value.encoded
              else AtRest() && NotSent(state.config, old(state.Model()), state.Model()) && Blame()
    {
      hide StateLaws.Inv, StateModel.BeginTemplate, Accounts, Journaled, Halted, Blamed, Spent;
      ghost var before, at := state.Model(), At();
      RefreshPosition(state.config, before);
      TemplateBegins(state.config, before, wall, mono);
      r := state.BeginTemplate(wall, mono, state.progress.nextTemplateIndex);
      ClockJudged(Asked(), outside.answers, at, ledger.ledger.records, before, state.Model(), wall, mono);
    }

    /** Encodes it; only a byte count that is not the packet's length keeps it from that. */
    method EncodeTemplate(template: Packet, ghost before: St, ghost mono: nat) returns (r: Outcome<nat>)
      requires state.Valid() && state.Holds(template) && Offered(state.config, state.Model(), before, mono)
      requires state.pending == Some(template) && template.stream == null && !template.encoded && Told()
      modifies state, outside
      ensures if r.Done? then TemplateSide(template, r.value, before, mono) && JustEncoded(outside.answers, r.value)
              else AtRest() && NotSent(state.config, before, state.Model()) && Blame()
      ensures Told() && state.trace == old(state.trace) && old(outside.answers) <= outside.answers
    {
      hide StateLaws.Inv, StateModel.Encode, Accounts, Journaled, Halted, Blamed;
      ghost var asked := outside.answers;
      var written := outside.Encode(template.length);
      Heard(asked, EncodeAnswer(written, template.length));
      TemplateEncodes(state.config, state.Model(), before, mono, written);
      if written != Some(template.length) {
        FaultIsBlamed(Asked(), outside.answers, EncodeAnswer(written, template.length));
      }
      r := state.Encode(template, written);
    }

    method WithdrawTemplate(template: Packet, length: nat, ghost before: St, ghost mono: nat)
      requires TemplateSide(template, length, before, mono)
      modifies state
      ensures AtRest() && NotSent(state.config, before, state.Model()) && (old(Told()) ==> Told())
    {
      hide StateLaws.Inv, StateModel.Abort, Accounts, Journaled, Halted;
      TemplateAborts(state.config, state.Model(), before, mono);
      var _ := state.AbortPacket(template);
    }

    /** Writes and commits the offered template. */
    method WriteTemplate(template: Packet, length: nat, ghost before: St, ghost mono: nat) returns (write: WriteClass)
      requires TemplateSide(template, length, before, mono) && Told() && !packetOpen && !stopped
      requires Cleared(outside.answers, true, length)
      modifies state, outside
      ensures AtRest() && Accounted() && Logged() && old(outside.answers) <= outside.answers
      ensures if write == WriteFull then TemplateSent(state.config, before, state.Model(), mono) && Running()
              else NotSent(state.config, before, state.Model())
      ensures write == WriteInvalid ==> Blame()
      ensures Ambiguates(write) ==> Interrupted(state.config, outside.answers)
    {
      hide StateLaws.Inv, CommitState, Accounts, Blamed, Interrupted, Journaled, Halted, Cleared, Kinds;
      ghost var at, asked, kinds := At(), outside.answers, Kinds(state.trace);
      var n, failed := Write(true, length);
      var class_ := ClassifyWrite(n, length, failed);
      TemplateCommits(state.config, state.Model(), before, mono, class_);
      JournalTemplate(asked, handoffs, done, kinds, n, length, failed);
      HaltedGrows(asked, WriteAnswer(true, n, length, failed));
      var commit, commitErr := state.Commit(template, n, failed);
      if class_ == WriteFull {
        TemplateKinds(state.config, before, state.Model(), mono);
      } else {
        assert kinds + [] == kinds;
      }
      AccountsEpoch(Asked(), outside.answers, at, ledger.ledger.records, state.epoch);
      return if commitErr.Some? then WriteInvalid else commit.value.write;
    }

    /** Unless the destination became unavailable meanwhile, the offered template is written and committed. */
    method DeliverTemplate(template: Packet, length: nat, ghost before: St, ghost mono: nat) returns (sent: bool)
      requires TemplateSide(template, length, before, mono) && LedgerSide() && StopRule() && ShapeRule() && Told()
      requires !packetOpen && !stopped && JustEncoded(outside.answers, length)
      modifies this`internal, this`transient, this`stopped, state, outside
      ensures Valid() && Onward()
      ensures if sent then TemplateSent(state.config, before, state.Model(), mono)
              else NotSent(state.config, before, state.Model())
      ensures if sent then !stopped && internal == old(internal) && transient == old(transient) else stopped
    {
      hide AtRest, TemplateSide, State.Model, State.Valid, LedgerSide, ShapeRule, StopRule, Accounted, Logged,
           Running, Blame, TemplateSent, NotSent,
           Interrupted, BytesOf;
      assert this !in state.Streams() && outside !in state.Streams();
      var stop := StopIdle();
      if stop {
        WithdrawTemplate(template, length, before, mono);
        return false;
      }
      var write := WriteTemplate(template, length, before, mono);
      assert this !in state.Streams();
      if write == WriteInvalid {
        StopInternal();
        return false;
      }
      if write != WriteFull {
        StopTransient();
        return false;
      }
      return true;
    }

    /** One template of the current refresh round: reserved, encoded, written and committed. */
    method SendTemplate(wall: nat, mono: nat) returns (sent: bool)
      requires Valid() && !packetOpen && !stopped && Refreshing(state.config, state.Model())
      requires ClockAnswer(wall, mono) in outside.answers
      modifies this`internal, this`transient, this`stopped, state, outside
      ensures Valid() && Onward()
      ensures if sent then TemplateSent(state.config, old(state.Model()), state.Model(), mono)
              else NotSent(state.config, old(state.Model()), state.Model())
      ensures if sent then !stopped && internal == old(internal) && transient == old(transient) else stopped
    {
      hide AtRest, TemplateSide, State.Model, State.Valid, LedgerSide, ShapeRule, StopRule, Accounted, Logged,
           Running, Blame, Offered, TemplateSent,
           NotSent, BytesOf;
      ghost var before := state.Model();
      var begun := BeginTemplate(wall, mono);
      assert this !in state.Streams();
      if begun.Failed? {
        StopInternal();
        return false;
      }
      var encoded := EncodeTemplate(begun.value, before, mono);
      assert this !in state.Streams();
      if encoded.Failed? {
        StopInternal();
        return false;
      }
      sent := DeliverTemplate(begun.value, encoded.value, before, mono);
    }

    lemma RoundBegins()
      requires Valid() && !packetOpen
      ensures Refreshing(state.config, state.Model()) <==> state.progress.refreshDue || state.progress.refreshActive
      ensures Refreshing(state.config, state.Model()) ==>
        state.progress.nextTemplateIndex < |state.config.shapes|
        && RoundAt(state.config, state.Model(), state.Model(), state.progress.nextTemplateIndex)
    {
      hide StateLaws.Inv;
      if Refreshing(state.config, state.Model()) {
        RoundStarts(state.config, state.Model());
      }
    }

    /** What was committed since the request began is what was written in full since. */
    lemma TraceIsLogged()
      requires Valid()
      ensures Kinds(state.trace) == done + Delivered(outside.answers)
    {
      hide StateSide, LedgerSide, ShapeRule, Accounted, Running;
    }

    /** Sends the rest of the due round: it completes exactly when every template of the round from its
        position on was committed, once each and in order, and each was answered by a write in full. */
    method DrainRefresh(firstWall: nat, firstMono: nat, ghost before: St) returns (completed: bool)
      requires Valid() && !packetOpen && !stopped && ClockAnswer(firstWall, firstMono) in outside.answers
      requires state.Model() == before
      modifies this`internal, this`transient, this`stopped, state, outside
      ensures Valid() && !packetOpen && Onward()
      ensures if completed then !stopped && internal == old(internal) && transient == old(transient) else stopped
      ensures DrainedTo(state.config, before, state.Model(), completed, old(outside.answers), outside.answers)
    {
      hide Valid, Drained, RoundAt, Kinds, Delivered;
      ghost var asked := outside.answers;
      TraceIsLogged();
      completed := DrainLoop(firstWall, firstMono, before);
      TraceIsLogged();
      RoundKeepsTrace(state.config, before, state.Model(),
                      if completed then |state.config.shapes| else state.progress.nextTemplateIndex);
      DeliveredSince(asked, outside.answers, done, before.trace, state.trace);
    }

    method DrainLoop(firstWall: nat, firstMono: nat, ghost before: St) returns (completed: bool)
      requires Valid() && !packetOpen && !stopped && ClockAnswer(firstWall, firstMono) in outside.answers
      requires state.Model() == before
      modifies this`internal, this`transient, this`stopped, state, outside
      ensures Valid() && !packetOpen && Onward()
      ensures if completed then !stopped && internal == old(internal) && transient == old(transient) else stopped
      ensures if Refreshing(state.config, before) then
                RoundAt(state.config, before, state.Model(),
                        if completed then |state.config.shapes| else state.progress.nextTemplateIndex)
                && (if completed then Drained(state.config, state.Model(), outside.answers)
                    else Refreshing(state.config, state.Model()))
              else state.Model() == before
    {
      hide Valid, TemplatesSent, TemplateSent, NotSent;
      var wall, mono := firstWall, firstMono;
      var first := true;
      ghost var upto: nat := before.nextTemplateIndex;
      RoundBegins();
      while true
        invariant Valid() && !packetOpen && !stopped
        invariant old(outside.answers) <= outside.answers
        invariant internal == old(internal) && transient == old(transient)
        invariant ClockAnswer(wall, mono) in outside.answers
        invariant if Refreshing(state.config, before)
                  then RoundAt(state.config, before, state.Model(), upto) && upto < |state.config.shapes|
                  else state.Model() == before
        decreases |state.config.shapes| - state.progress.nextTemplateIndex
      {
        var stop := StopBetween();
        if stop {
          return false;
        }
        if !state.progress.refreshActive && !state.progress.refreshDue {
          return true;
        }
        if !first {
          wall, mono := Tick();
        }
        first := false;
        ghost var s := state.Model();
        var sent := SendTemplate(wall, mono);
        RoundMoves(state.config, before, s, upto, state.Model(), mono);
        if !sent {
          return false;
        }
        upto := upto + 1;
        SampleClocked(outside.answers, wall, mono);
        if !state.progress.refreshActive && !state.progress.refreshDue {
          return true;
        }
      }
    }

    // ---- data packets ----

    method Tick() returns (wall: uint64, mono: uint64)
      requires Valid()
      modifies outside
      ensures Valid() && outside.answers == old(outside.answers) + [ClockAnswer(wall, mono)]
    {
      hide StateLaws.Inv, AtRest, LedgerSide, ShapeRule, StopRule, Accounted, Logged, Running, Filling;
      wall, mono := Clock();
    }

    /** A clock sample, and State.RefreshDue at it. */
    method Sample() returns (wall: uint64, mono: uint64, due: bool)
      requires Valid() && !packetOpen
      modifies state, outside
      ensures Valid() && state.Model() == MarkDue(state.config, old(state.Model()), mono)
      ensures outside.answers == old(outside.answers) + [ClockAnswer(wall, mono)]
      ensures due == (state.progress.refreshDue || state.progress.refreshActive)
      ensures MarkDue(state.config, state.Model(), mono) == state.Model() && Steady(old(state.Model()), state.Model())
      ensures state.progress.nextTemplateIndex == old(state.progress.nextTemplateIndex)
      ensures due ==> Refreshing(state.config, state.Model())
    {
      hide AtRest, LedgerSide, ShapeRule, Accounted, Logged, Running, MarkDue;
      assert this !in state.Streams() && outside !in state.Streams();
      wall, mono := Clock();
      due := CheckDue(mono);
    }

    /** State.RefreshDue at a clock sample. */
    method CheckDue(mono: nat) returns (due: bool)
      requires AtRest()
      modifies state
      ensures AtRest() && state.Model() == MarkDue(state.config, old(state.Model()), mono)
      ensures due == (state.progress.refreshDue || state.progress.refreshActive)
      ensures MarkDue(state.config, state.Model(), mono) == state.Model() && Steady(old(state.Model()), state.Model())
      ensures state.progress.nextTemplateIndex == old(state.progress.nextTemplateIndex)
      ensures due ==> Refreshing(state.config, state.Model())
      ensures old(Told()) ==> Told()
    {
      hide StateLaws.Inv, MarkDue, Accounts, Journaled, Halted;
      DueRests(state.config, state.Model(), mono);
      due := state.RefreshDue(mono);
    }

    /** BeginDataStream, on a state whose refresh is not due at `mono`. */
    method BeginData(wall: nat, mono: nat, shape: nat, sampling: nat) returns (ok: bool)
      requires Valid() && !packetOpen && !stopped && shape < |state.config.shapes| && Carried(state.config, sampling)
      requires MarkDue(state.config, state.Model(), mono) == state.Model() && ClockAnswer(wall, mono) in outside.answers
      requires !state.progress.refreshDue && !state.progress.refreshActive
      modifies this`internal, this`stopped, this`packet, this`packetOpen, this`packetShape, this`packetSample, state, outside
      ensures Valid() && batch == [] && state.trace == old(state.trace) && Onward()
      ensures if ok then packetOpen && !stopped && !ledgerOpen && fresh(packet.value.stream) && packetShape == shape
                         && packetSample == sampling
              else stopped && !packetOpen
    {
      hide StateLaws.Inv, AtRest, LedgerSide, ShapeRule, Filling, Accounted, Logged, Running, Journaled, Blame, MarkDue;
      NothingOpen();
      var r := ReserveData(wall, mono, shape, sampling);
      if r.Failed? {
        StopInternal();
        return false;
      }
      InstallPacket(r.value, shape, sampling);
      return true;
    }

    /** The reserved packet is the open one, still empty. */
    method InstallPacket(reserved: Packet, shape: nat, sampling: nat)
      requires state.Valid() && state.HoldsStream(reserved)
      requires Filling(state.config, state.Model(), Fill(shape, sampling, 0, 0))
      requires LedgerSide() && StopRule() && ShapeRule() && Accounted() && Running() && !packetOpen && !stopped
      requires batch == []
      requires Journaled(outside.answers, handoffs, Some([]), done, Kinds(state.trace))
      modifies this`packet, this`packetOpen, this`packetShape, this`packetSample
      ensures Valid() && packetOpen && packet == Some(reserved) && packetShape == shape && packetSample == sampling
    {
      hide StateLaws.Inv, LedgerSide, Filling, Accounted, Running, Journaled, AllWellFormed, Uniform, StopsAtFailure,
           AllFull;
      NothingConforms(state.config, sources, shape, sampling);
      packet, packetOpen, packetShape, packetSample := Some(reserved), true, shape, sampling;
    }

    /** The reservation: only an instant the epoch cannot use or the appender's refusal keeps it from that.
        The appender is asked only once the instant is granted. */
    method ReserveData(wall: nat, mono: nat, shape: nat, sampling: nat) returns (r: Outcome<Packet>)
      requires AtRest() && shape < |state.config.shapes| && Carried(state.config, sampling)
      requires MarkDue(state.config, state.Model(), mono) == state.Model()
      requires !state.progress.refreshDue && !state.progress.refreshActive
      requires Told() && !packetOpen && ClockAnswer(wall, mono) in outside.answers
      modifies state, outside
      ensures Told() && state.trace == old(state.trace) && old(outside.answers) <= outside.answers
      ensures if r.Done? then state.Valid() && state.HoldsStream(r.value) && fresh(r.value.stream)
                              && Filling(state.config, state.Model(), Fill(shape, sampling, 0, 0))
                              && Journaled(outside.answers, handoffs, Some([]), done, Kinds(state.trace))
              else AtRest() && Blame()
    {
      hide StateLaws.Inv, BeginStream, MarkDue, Filling, Accounts, Journaled, Halted, Blamed;
      ghost var asked, before, at := outside.answers, state.Model(), At();
      var begun := false;
      if !state.epoch.exhausted && state.Grants(wall) {
        begun := outside.Begin();
        Heard(asked, BeginAnswer(begun));
      }
      StreamBegins(state.config, before, wall, mono, shape, sampling, begun);
      if !begun && outside.answers != asked {
        FaultIsBlamed(Asked(), outside.answers, BeginAnswer(begun));
      }
      r := state.BeginDataStream(wall, mono, shape, state.config.maxDatagram, sampling, begun);
      ClockJudged(Asked(), outside.answers, at, ledger.ledger.records, before, state.Model(), wall, mono);
    }

    lemma Between()
      requires Valid() && !packetOpen
      ensures AtMostOneRound(state.config, state.Model(), state.trace) && batch == [] && !ledgerOpen && Told()
    {
      hide StateLaws.Inv, LedgerSide, ShapeRule, Accounted, Logged, Running;
      NothingOpen();
      NoRound(state.config, state.Model());
    }

    method Interrupt()
      requires Valid() && !packetOpen && Interrupted(state.config, outside.answers)
      modifies this`transient, this`stopped
      ensures Valid() && transient && stopped
    {
      hide AtRest, LedgerSide, ShapeRule, StopRule, Accounted, Logged, Running, Interrupted;
      StopTransient();
    }

    /** Opens a data packet, after at most one refresh round. */
    method OpenData(shape: nat, sampling: nat) returns (ok: bool)
      requires Valid() && !packetOpen && shape < |state.config.shapes| && Carried(state.config, sampling)
      modifies this`internal, this`transient, this`stopped, this`packet, this`packetOpen, this`packetShape, this`packetSample,
               state, outside
      ensures Valid() && batch == [] && Onward()
      ensures AsksFirst() && (!outside.answers[|old(outside.answers)|].available ==> !ok)
      ensures AtMostOneRound(state.config, old(state.Model()), state.trace)
      ensures if ok then packetOpen && !stopped && !ledgerOpen && fresh(packet.value.stream) && packetShape == shape
                         && packetSample == sampling
              else stopped && !packetOpen
    {
      hide Valid, AtMostOneRound;
      Between();
      var stop := StopBetween();
      if stop || stopped {
        return false;
      }
      ok := OpenAvailable(shape, sampling);
    }

    /** The same while the destination is available. */
    method OpenAvailable(shape: nat, sampling: nat) returns (ok: bool)
      requires Valid() && !packetOpen && shape < |state.config.shapes| && Carried(state.config, sampling) && !stopped
      modifies this`internal, this`transient, this`stopped, this`packet, this`packetOpen, this`packetShape, this`packetSample,
               state, outside
      ensures Valid() && batch == [] && Onward()
      ensures AtMostOneRound(state.config, old(state.Model()), state.trace)
      ensures if ok then packetOpen && !stopped && !ledgerOpen && fresh(packet.value.stream) && packetShape == shape
                         && packetSample == sampling
              else stopped && !packetOpen
    {
      hide Valid, MarkDue, Interrupted, AtMostOneRound, Drained, DrainedTo;
      ghost var before := state.Model();
      Between();
      var drainedRefresh := false;
      while true
        invariant Valid() && !packetOpen && !stopped && Onward()
        invariant AtMostOneRound(state.config, before, state.trace)
        invariant !drainedRefresh ==> state.Model() == before
        invariant drainedRefresh ==> Drained(state.config, state.Model(), outside.answers)
        decreases !drainedRefresh
      {
        ghost var asked := outside.answers;
        ghost var s := state.Model();
        var wall, mono, due := Sample();
        if due {
          if drainedRefresh {
            DueAgain(state.config, s, asked, wall, mono);
            Interrupt();
            return false;
          }
          drainedRefresh := true;
          ghost var marked, drained := state.Model(), outside.answers;
          var completed := DrainRefresh(wall, mono, marked);
          RoundDrained(state.config, before, marked, state.Model(), completed, drained, outside.answers);
          if !completed {
            return false;
          }
        } else {
          ok := BeginData(wall, mono, shape, sampling);
          return ok;
        }
      }
    }

    /** The open datagram is full by count or has no room for the record, or the appender turned it away. */
    ghost predicate Turned(ordinal: nat, size: Outcome<nat>, error: Error)
      reads `packetShape, `packetSample, `batch, `sources, outside
    {
      || |batch| >= state.config.maxRecords || AppendAnswer(ordinal, false, Some(error)) in outside.answers
      || Crowded(state.config, Batch(), size, error)
    }

    /** Packer.append: a record refused by the packet changes nothing. The appender is asked only about a
        record the packet has room for. The ledger's own refusals cannot happen here. */
    method AppendRecord(ordinal: nat, size: Outcome<nat>, sampling: nat) returns (err: Option<Error>)
      requires Valid() && packetOpen && Facing(ordinal) && Placeable(ordinal, packetShape, packetSample, size)
      requires sampling == packetSample
      modifies this`ledgerOpen, this`batch, this`ledgerFault, state, state.Streams(), ledger, outside
      ensures Valid() && packetOpen && !stopped && ledger == old(ledger) && ledger.classes == old(ledger.classes)
      ensures SameRequest() && handoffs == old(handoffs) && state.trace == old(state.trace)
      ensures state.Streams() == old(state.Streams()) && packet == old(packet)
      ensures if err == None
              then ledgerOpen && batch == old(batch) + [ordinal]
                   && packetShape == old(packetShape) && packetSample == old(packetSample)
                   && ledger.ledger.records == old(ledger.ledger.records)[ordinal := Status.Pending]
              else ledger.ledger == old(ledger.ledger) && ledgerOpen == old(ledgerOpen) && batch == old(batch)
                   && packetShape == old(packetShape) && packetSample == old(packetSample)
      ensures err == None ==> outside.answers == old(outside.answers) + [AppendAnswer(ordinal, old(batch) == [], None)]
      ensures err.Some? ==>
        || outside.answers == old(outside.answers)
        || outside.answers == old(outside.answers) + [AppendAnswer(ordinal, batch == [], err)]
      ensures internal == old(internal)
      ensures err.Some? ==>
        size == Failed(err.value) || IsAppendBoundary(err.value) || Refuses(outside.answers, ordinal, err.value)
      ensures err.Some? && batch == [] && MinimumMisfit(state.config, packetShape, size) == None ==>
        Refuses(outside.answers, ordinal, err.value)
      ensures err.Some? && batch != [] ==> Turned(ordinal, size, err.value)
    {
      hide StateLaws.Inv, Books, SourceLedger.Valid, AllWellFormed, BytesOf, NoneOwed, StateModel.Append, AppendError,
           Accounts, Journaled, Halted,
           FitsAlone, Crowded, Filling, StopsAtFailure, AllFull, Uniform, MinimumMisfit, Refuses, Conforms;
      ghost var fill := Batch();
      ghost var grown := fill.(records := |batch| + 1, bytes := BytesOf(sources, batch) + BytesAt(sources, ordinal));
      NoBytes(sources);
      err := OfferRecord(fill, ordinal, size, sampling);
      if err != None {
        return;
      }
      FillingBounded(state.config, state.Model(), grown);
      BytesAppended(sources, batch, ordinal);
      ConformingJoins(state.config, sources, batch, ordinal, packetShape, packetSample);
      RecordPending(ordinal);
      assert Batch() == grown;
    }

    /** Packet.Append on the open packet. */
    method OfferRecord(ghost fill: Fill, ordinal: nat, size: Outcome<nat>, sampling: nat) returns (err: Option<Error>)
      requires packetOpen && StateSide(fill) && Told() && Carried(state.config, sampling) && fill.sampling == sampling
      modifies state, state.Streams(), outside
      ensures state.Valid() && Accounted() && Running() && state.Streams() == old(state.Streams())
      ensures state.trace == old(state.trace)
      ensures state.HoldsStream(packet.value) && fill.shape < |state.config.shapes|
      ensures if err == None
              then size.Done?
                   && Filling(state.config, state.Model(),
                              fill.(records := fill.records + 1, bytes := fill.bytes + size.value))
                   && outside.answers == old(outside.answers) + [AppendAnswer(ordinal, fill.records == 0, None)]
              else Filling(state.config, state.Model(), fill)
                   && (outside.answers == old(outside.answers)
                       || outside.answers == old(outside.answers) + [AppendAnswer(ordinal, fill.records == 0, err)])
      ensures Journaled(outside.answers, handoffs, Some(if err == None then batch + [ordinal] else batch), done,
                        Kinds(state.trace))
      ensures err.Some? ==>
        size == Failed(err.value) || IsAppendBoundary(err.value) || Refuses(outside.answers, ordinal, err.value)
      ensures err.Some? && fill.records == fill.bytes == 0 && MinimumMisfit(state.config, fill.shape, size) == None ==>
        Refuses(outside.answers, ordinal, err.value)
      ensures err.Some? && fill.records != 0 ==>
        || fill.records >= state.config.maxRecords || AppendAnswer(ordinal, false, err) in outside.answers
        || Crowded(state.config, fill, size, err.value)
    {
      hide StateLaws.Inv, StateModel.Append, AppendError, Filling, Accounts, Journaled, Halted, FitsAlone, Crowded;
      ghost var asked, s := outside.answers, state.Model();
      FillingBounded(state.config, s, fill);
      StreamAppends(state.config, s, fill, size, sampling, None);
      FillingStream(state.config, s, fill);
      var refused := state.Admit(size, sampling, None);
      var appender := None;
      if refused == None {
        appender := outside.Append(ordinal, fill.records == 0);
        Heard(asked, AppendAnswer(ordinal, fill.records == 0, appender));
      }
      StreamAppends(state.config, s, fill, size, sampling, appender);
      err := state.Append(packet.value, size, sampling, appender);
    }

    method RecordPending(ordinal: nat)
      requires LedgerSide() && AllFull(handoffs) && !ledger.ledger.stopped && |batch| < MAX_PENDING && Accounted()
      requires ordinal + 1 == |ledger.ledger.records|
      requires ledger.ledger.records[ordinal] == Unsent && NoneOwed(ledger.ledger.records, ordinal)
      modifies this`ledgerOpen, this`batch, this`ledgerFault, ledger
      ensures LedgerSide() && Accounted() && ledgerOpen && batch == old(batch) + [ordinal]
      ensures ledger.classes == old(ledger.classes)
      ensures ledger.ledger.records == old(ledger.ledger.records)[ordinal := Status.Pending]
      ensures ledger.ledger.stopped == old(ledger.ledger.stopped)
    {
      hide SourceLedger.Valid, Confirms, Count, Flatten, FullPackets, Accounts;
      if ordinal in Flatten(handoffs) {
        FullHandoffsConfirm(handoffs, ordinal);
      }
      PendingBooked(ledger.ledger.records, batch, handoffs, ordinal);
      AccountsUpdate(Asked(), outside.answers, At(), ledger.ledger.records, ordinal, Status.Pending);
      if !ledgerOpen {
        var err := ledger.BeginPacket();
        ledgerFault := ledgerFault || err.Some?;
        ledgerOpen := true;
      }
      var err := ledger.AddPending(ordinal);
      ledgerFault := ledgerFault || err.Some?;
      batch := batch + [ordinal];
    }

    // ---- handing a data packet off ----

    /** The ledger's side of a write answer. A datagram the state refused leaves its records unsent. */
    method ResolveBatch(n: int, length: nat, failed: bool, refused: bool) returns (write: WriteClass)
      requires LedgerSide() && ledgerOpen && StopsAtFailure(handoffs) && AllFull(handoffs) && Accounted()
      requires refused <==> ClassifyWrite(n, length, failed) == WriteInvalid
      modifies this`ledgerOpen, this`batch, this`handoffs, this`ledgerFault, ledger, ledger.classes
      ensures LedgerSide() && Accounted() && !ledgerOpen && batch == [] && ledger.classes == old(ledger.classes)
      ensures write == ClassifyWrite(n, length, failed)
      ensures handoffs == old(handoffs) + [Handoff(old(batch), packetShape, packetSample, length, write)]
      ensures OnlyPendingMoves(old(ledger.ledger.records), ledger.ledger.records)
      ensures write == WriteFull ==>
        ledger.ledger.stopped == old(ledger.ledger.stopped) && OwesNoMore(old(ledger.ledger.records), ledger.ledger.records)
      ensures Status.Pending !in ledger.ledger.records
    {
      hide SourceLedger.Valid, Books, Count, Accounts, Settle, ClassifyWrite;
      ghost var records := ledger.ledger.records;
      write := ClassifyWrite(n, length, failed);
      ghost var h := Handoff(batch, packetShape, packetSample, length, write);
      PendingMeansBatch(records, batch, handoffs);
      if refused {
        var err := ledger.AbortPacket();
        ledgerFault := ledgerFault || err.Some?;
        HandoffBooked(records, batch, handoffs, h, Unsent);
      } else {
        var resolution, err := ledger.ResolvePacket(n, length, failed);
        ledgerFault := ledgerFault || err.Some?;
        HandoffBooked(records, batch, handoffs, h, if write == WriteFull then Confirmed else Ambiguous);
        write := resolution.write;
      }
      AccountsMove(Asked(), outside.answers, At(), records, ledger.ledger.records);
      ledgerOpen, batch, handoffs := false, [], handoffs + [h];
    }

    /** Writes the finished datagram, then settles the state and the ledger by the same answer. */
    method WriteData(length: nat) returns (ok: bool)
      requires DataSide(length)
      requires LedgerSide() && StopRule() && ShapeRule() && Told() && packetOpen && ledgerOpen
      requires DataKinds(state.trace) == base + FullPackets(handoffs) && Tallied(1)
      requires Cleared(outside.answers, false, length) && !stopped
      modifies this, state, ledger, ledger.classes, outside
      ensures Valid() && Coupled() && !packetOpen && ledger == old(ledger) && ledger.classes == old(ledger.classes)
      ensures SameRequest() && OnlyPendingMoves(old(ledger.ledger.records), ledger.ledger.records) && batch == []
      ensures HandsOff(old(handoffs), handoffs, old(batch), old(packetShape), old(packetSample), ok)
      ensures ok <==> !stopped
      ensures ok ==> OwesNoMore(old(ledger.ledger.records), ledger.ledger.records)
      ensures Onward() && handoffs != old(handoffs) && LastWrite(outside.answers, handoffs)
      ensures ok ==> internal == old(internal) && transient == old(transient)
    {
      hide StateLaws.Inv, AtRest, Tallied, LedgerSide, ShapeRule, StopRule, Accounted, Logged, Running, Journaled, Cleared,
           Blame, DataKinds, FullPackets, Sized, Finished,
           OnlyPendingMoves, OwesNoMore, Interrupted, BytesOf;
      var n, failed, refused := CommitData(Batch(), length);
      ok := SettleData(n, length, failed, refused);
    }

    /** The ledger and the flags follow the write answer. */
    method SettleData(n: int, length: nat, failed: bool, refused: bool) returns (ok: bool)
      requires AtRest() && LedgerSide() && StopRule() && ShapeRule() && Accounted() && packetOpen && ledgerOpen
      requires Sized(state.config, Batch(), length) && |batch| <= state.config.maxRecords
      requires Tallied(1)
      requires refused <==> ClassifyWrite(n, length, failed) == WriteInvalid
      requires DataKinds(state.trace)
            == base + FullPackets(handoffs)
               + PacketsOf(Handoff(batch, packetShape, packetSample, length, ClassifyWrite(n, length, failed)))
      requires Journaled(outside.answers,
                         handoffs + [Handoff(batch, packetShape, packetSample, length, ClassifyWrite(n, length, failed))],
                         None, done, Kinds(state.trace))
      requires ClassifyWrite(n, length, failed) == WriteFull ==> !Halted(outside.answers)
      requires outside.answers != [] && outside.answers[|outside.answers| - 1] == WriteAnswer(false, n, length, failed)
      requires ClassifyWrite(n, length, failed) == WriteInvalid ==> Blame()
      requires Ambiguates(ClassifyWrite(n, length, failed)) ==> Interrupted(state.config, outside.answers)
      modifies this`packetOpen, this`ledgerOpen, this`batch, this`handoffs, this`ledgerFault
      modifies this`internal, this`transient, this`stopped, this`ambiguousPackets, this`confirmedPackets, ledger, ledger.classes
      ensures Valid() && Coupled() && !packetOpen && ledger.classes == old(ledger.classes)
      ensures OnlyPendingMoves(old(ledger.ledger.records), ledger.ledger.records) && batch == []
      ensures HandsOff(old(handoffs), handoffs, old(batch), packetShape, packetSample, ok)
      ensures ok <==> !stopped
      ensures ok ==> OwesNoMore(old(ledger.ledger.records), ledger.ledger.records)
      ensures (old(internal) ==> internal) && handoffs != old(handoffs) && LastWrite(outside.answers, handoffs)
      ensures ok ==> internal == old(internal) && transient == old(transient)
    {
      hide AtRest, Tallied, Doubtful, LedgerSide, Accounted, Journaled, Halted, Blame, DataKinds, FullPackets, Uniform, BytesOf, Sized,
           AllWellFormed, WellFormed,
           StopsAtFailure, AllFull, OnlyPendingMoves, OwesNoMore, Interrupted, ClassifyWrite;
      ghost var was := handoffs;
      ghost var h := Handoff(batch, packetShape, packetSample, length, ClassifyWrite(n, length, failed));
      OpenBatch();
      TallyTold(1);
      DatagramJoins(state.config, sources, was, h);
      var write := ResolveBatch(n, length, failed, refused);
      packetOpen := false;
      ok := SettleFlags(write, was, h);
    }

    lemma TallyTold(finished: nat)
      requires Tallied(finished)
      ensures packets == |handoffs| + finished && confirmedPackets == |FullPackets(handoffs)|
      ensures ambiguousPackets == Doubtful(handoffs)
    {}

    /** The write itself and State.Commit. */
    method CommitData(ghost fill: Fill, length: nat) returns (n: int, failed: bool, refused: bool)
      requires state.Valid() && packet.Some? && state.Holds(packet.value) && Finished(state.Model(), fill, length)
      requires Told()
      requires packetOpen && !stopped && fill.records == |batch| && Cleared(outside.answers, false, length)
      modifies state, outside
      ensures AtRest() && Accounted()
      ensures outside.answers == old(outside.answers) + [WriteAnswer(false, n, length, failed)]
      ensures var write := ClassifyWrite(n, length, failed);
        && (refused <==> write == WriteInvalid)
        && DataKinds(state.trace) == old(DataKinds(state.trace))
             + (if write == WriteFull then [Data(fill.shape, fill.records)] else [])
        && Journaled(outside.answers, handoffs + [Handoff(batch, packetShape, packetSample, length, write)], None, done,
                     Kinds(state.trace))
        && (write == WriteFull ==> !Halted(outside.answers))
        && (write == WriteInvalid ==> Blame()) && (Ambiguates(write) ==> Interrupted(state.config, outside.answers))
    {
      hide StateLaws.Inv, DataKinds, CommitState, Accounts, Blamed, Interrupted, Journaled, Halted, Cleared,
           ClassifyWrite;
      ghost var at, asked, trace := At(), outside.answers, state.trace;
      n, failed := Write(false, length);
      ghost var write := ClassifyWrite(n, length, failed);
      DataCommits(state.config, state.Model(), fill, length, write);
      JournalData(asked, handoffs, Handoff(batch, packetShape, packetSample, length, write), done, Kinds(trace), n, failed);
      HaltedGrows(asked, WriteAnswer(false, n, length, failed));
      DataKindsLogged(trace, fill, write, CommitState(state.config, state.Model(), write).trace);
      var _, err := state.Commit(packet.value, n, failed);
      AccountsEpoch(Asked(), outside.answers, at, ledger.ledger.records, state.epoch);
      return n, failed, err.Some?;
    }

    method SettleFlags(write: WriteClass, ghost was: seq<Handoff>, ghost h: Handoff) returns (ok: bool)
      requires Accounted() && (write == WriteInvalid ==> Blame())
      requires Ambiguates(write) ==> Interrupted(state.config, outside.answers)
      requires handoffs == was + [h] && h.write == write && packets == |was| + 1
      requires confirmedPackets == |FullPackets(was)| && ambiguousPackets == Doubtful(was)
      modifies this`internal, this`transient, this`stopped, this`ambiguousPackets, this`confirmedPackets
      ensures Tallied(0)
      ensures Accounted() && ok == (write == WriteFull) && (!ok ==> Running())
      ensures if ok then internal == old(internal) && transient == old(transient) && stopped == old(stopped)
              else stopped && (internal || transient) && (old(internal) ==> internal)
    {
      hide Accounts, Blamed, Interrupted, FullPackets, Doubtful, Flatten;
      HandoffsGrow(was, h);
      DoubtfulGrows(was, h);
      if write == WriteInvalid {
        StopInternal();
        return false;
      }
      if write != WriteFull {
        ambiguousPackets := ambiguousPackets + 1;
        StopTransient();
        return false;
      }
      confirmedPackets := confirmedPackets + 1;
      return true;
    }

    /** The state already let the packet go: the ledger follows and the request stops. */
    method FailData()
      requires LedgerSide() && ShapeRule() && StopsAtFailure(handoffs) && Told() && Blame()
      modifies this`packetOpen, this`ledgerOpen, this`batch, this`ledgerFault, this`internal, this`stopped, ledger
      ensures LedgerSide() && StopRule() && ShapeRule() && Told() && ledger.classes == old(ledger.classes)
      ensures !packetOpen && stopped && internal && batch == []
      ensures OnlyPendingMoves(old(ledger.ledger.records), ledger.ledger.records)
    {
      hide Books, SourceLedger.Valid, AllWellFormed, Uniform, StopsAtFailure, AllFull, OnlyPendingMoves, Accounts,
           Blamed, Halted, Orderly;
      NothingConforms(state.config, sources, packetShape, packetSample);
      StillMoves(ledger.ledger.records);
      packetOpen := false;
      if ledgerOpen {
        var _ := DropLedger();
      }
      StopInternal();
    }

    /** abortDataInternal. */
    method AbortDataInternal()
      requires Valid() && Blame()
      modifies this`packetOpen, this`ledgerOpen, this`batch, this`ledgerFault, this`internal, this`stopped, state, ledger
      ensures Valid() && ledger.classes == old(ledger.classes) && state.trace == old(state.trace)
      ensures stopped && internal && batch == [] && state.Streams() <= old(state.Streams())
      ensures OnlyPendingMoves(old(ledger.ledger.records), ledger.ledger.records)
    {
      hide StateLaws.Inv, LedgerSide, ShapeRule, Accounted, Logged, Running, Blame, Filling, OnlyPendingMoves, BytesOf;
      StillMoves(ledger.ledger.records);
      if packetOpen {
        DropData();
      } else {
        NothingOpen();
      }
      StopInternal();
    }

    /** Packet.Finish: only a byte count that is not the packet's length fails it. */
    method FinishData(ghost fill: Fill) returns (r: Outcome<nat>)
      requires packetOpen && StateSide(fill) && fill.records > 0 && Told()
      modifies state, state.Streams(), outside
      ensures state.trace == old(state.trace) && Told() && old(outside.answers) <= outside.answers
      ensures if r.Done? then state.Valid() && state.Holds(packet.value) && Finished(state.Model(), fill, r.value)
                              && Sized(state.config, fill, r.value) && fill.records <= state.config.maxRecords
                              && outside.answers == old(outside.answers) + [FinishAnswer(Some(r.value), r.value)]
              else AtRest() && Blame()
    {
      hide StateLaws.Inv, StateModel.Finish, Sized, Accounts, Journaled, Halted, Blamed;
      ghost var asked, length := outside.answers, state.pending.value.length;
      var finished := outside.Finish(length);
      Heard(asked, FinishAnswer(finished, length));
      StreamFinishes(state.config, state.Model(), fill, finished);
      if finished != Some(length) {
        FaultIsBlamed(Asked(), outside.answers, FinishAnswer(finished, length));
      }
      r := state.Finish(packet.value, finished);
      if r.Done? {
        FinishedBounded(state.config, state.Model(), fill, r.value);
      }
    }

    /** Hands the open datagram off, as one datagram of exactly its records answered as the log says, or not
        at all. */
    method FlushData() returns (ok: bool)
      requires Valid() && packetOpen && ledgerOpen && Coupled()
      modifies this, state, state.Streams(), ledger, ledger.classes, outside
      ensures Valid() && Coupled() && !packetOpen && ledger == old(ledger) && ledger.classes == old(ledger.classes)
      ensures SameRequest() && OnlyPendingMoves(old(ledger.ledger.records), ledger.ledger.records) && batch == []
      ensures HandsOff(old(handoffs), handoffs, old(batch), old(packetShape), old(packetSample), ok)
      ensures ok <==> !stopped
      ensures ok ==> OwesNoMore(old(ledger.ledger.records), ledger.ledger.records)
      ensures Onward() && (handoffs != old(handoffs) ==> LastWrite(outside.answers, handoffs))
      ensures ok ==> internal == old(internal) && transient == old(transient)
    {
      hide Tallied, Valid, DataKinds, FullPackets, OnlyPendingMoves, OwesNoMore;
      var stop := StopUnavailable();
      if stop {
        return false;
      }
      ok := HandOver();
    }

    /** One more complete datagram. */
    method CountPacket()
      requires Tallied(0)
      modifies this`packets
      ensures Tallied(1)
    {
      packets := packets + 1;
    }

    /** The state machine holds the open datagram, finished at exactly its length. */
    ghost predicate DataSide(length: nat)
      reads `packet, `packetShape, `packetSample, `batch, `sources, state, state.Streams()
    {
      && state.Valid() && packet.Some? && state.Holds(packet.value) && Finished(state.Model(), Batch(), length)
      && Sized(state.config, Batch(), length) && |batch| <= state.config.maxRecords
    }

    /** The open datagram is finished, or given up and the request stopped. */
    method FinishOpen() returns (r: Outcome<nat>)
      requires Valid() && packetOpen && ledgerOpen && JustAvailable(outside.answers)
      modifies this`packetOpen, this`ledgerOpen, this`batch, this`ledgerFault, this`internal, this`stopped, state
      modifies state.Streams(), ledger, outside
      ensures state.trace == old(state.trace) && ledger.classes == old(ledger.classes) && Onward()
      ensures OnlyPendingMoves(old(ledger.ledger.records), ledger.ledger.records)
      ensures if r.Done?
              then DataSide(r.value) && Cleared(outside.answers, false, r.value) && LedgerSide() && StopRule() && ShapeRule() && Told()
                   && packetOpen && ledgerOpen && !stopped && batch == old(batch) && internal == old(internal)
                   && ledger.ledger == old(ledger.ledger)
              else Valid() && !packetOpen && stopped && batch == []
    {
      hide Tallied, StateLaws.Inv, AtRest, LedgerSide, ShapeRule, Accounted, Logged, Running, Blame, DataKinds, FullPackets,
           BytesOf, Sized, StopsAtFailure, AllFull,
           Finished, Filling, OnlyPendingMoves, OwesNoMore;
      StillMoves(ledger.ledger.records);
      OpenBatch();
      r := FinishData(Batch());
      if r.Failed? {
        FailData();
      }
    }

    method HandOver() returns (ok: bool)
      requires Valid() && packetOpen && ledgerOpen && Coupled() && JustAvailable(outside.answers)
      modifies this, state, state.Streams(), ledger, ledger.classes, outside
      ensures Valid() && Coupled() && !packetOpen && ledger == old(ledger) && ledger.classes == old(ledger.classes)
      ensures SameRequest() && OnlyPendingMoves(old(ledger.ledger.records), ledger.ledger.records) && batch == []
      ensures HandsOff(old(handoffs), handoffs, old(batch), old(packetShape), old(packetSample), ok)
      ensures ok <==> !stopped
      ensures ok ==> OwesNoMore(old(ledger.ledger.records), ledger.ledger.records)
      ensures Onward() && (handoffs != old(handoffs) ==> LastWrite(outside.answers, handoffs))
      ensures ok ==> internal == old(internal) && transient == old(transient)
    {
      hide StateLaws.Inv, AtRest, StateSide, LedgerSide, ShapeRule, StopRule, Accounted, Logged, Running, Blame, DataKinds,
           FullPackets, BytesOf, Sized, DataSide, Tallied, LastWrite, OnlyPendingMoves, OwesNoMore;
      var done := FinishOpen();
      if done.Failed? {
        return false;
      }
      assert this !in state.Streams();
      CountPacket();
      ok := WriteData(done.value);
    }

    // ---- one record ----

    /** Every record but the last is settled or in the open datagram, unless the request has stopped. */
    ghost predicate Facing(ordinal: nat)
      reads this, ledger
    {
      && ordinal + 1 == |ledger.ledger.records| && ledger.ledger.records[ordinal] == Unsent
      && (!stopped ==> NoneOwed(ledger.ledger.records, ordinal))
    }

    /** Between records: an open datagram is not empty and, while not stopped, nothing else is owed. */
    ghost predicate Settled(ordinal: nat)
      reads this, ledger
    {
      && ordinal + 1 == |ledger.ledger.records| && (packetOpen ==> ledgerOpen)
      && (!stopped ==> NoneOwed(ledger.ledger.records, ordinal + 1))
    }

    /** A mapped record with a shape and a sampling rate of its own. */
    ghost predicate Placeable(ordinal: nat, shape: nat, sampling: nat, size: Outcome<nat>)
      reads this
    {
      && ordinal < |sources| && sources[ordinal].Mapped? && sources[ordinal].size == size
      && sources[ordinal].shape == Some(shape) && shape < |state.config.shapes|
      && SamplingOf(state.config, sources[ordinal].sampling) == Some(sampling) && Carried(state.config, sampling)
      && (size.Failed? ==> IsRecordRejection(size.error))
    }

    /** The open datagram was handed off for the record's sake only if the record could not join it. */
    twostate predicate Flushed(ordinal: nat)
      reads this, outside
    {
      || (handoffs == old(handoffs) && (batch == [] || batch == old(batch) || batch == old(batch) + [ordinal]))
      || (Parts(state.config, old(sources), outside.answers, old(Batch()), ordinal) && !old(stopped)
          && (batch == [] || batch == [ordinal])
          && exists full :: HandsOff(old(handoffs), handoffs, old(batch), old(packetShape), old(packetSample), full))
    }

    /** The appender accepted the record into the open datagram, or into a new one after the open one was
        handed off; otherwise it is invalid, or unsent in a request that has stopped, and then an appender
        passed it too unless the request failed internally. */
    twostate predicate Placed(ordinal: nat, shape: nat, sampling: nat)
      reads this, ledger, outside
    {
      && ordinal < |ledger.ledger.records| && Flushed(ordinal)
      && match ledger.ledger.records[ordinal]
         case Pending =>
           && Vetted(outside.answers, ordinal) && packetOpen && packetShape == shape && packetSample == sampling
           && batch == (if handoffs == old(handoffs) then old(batch) else []) + [ordinal]
         case Unsent => stopped && (internal || Vetted(outside.answers, ordinal))
         case Invalid(_) => true
         case _ => false
    }

    /** Packer.invalidate. */
    method InvalidateRecord(ordinal: nat, reason: nat)
      requires Valid() && Facing(ordinal) && Justified(Asked(), outside.answers, ordinal, Reason(reason))
      modifies this`ledgerFault, ledger, ledger.classes
      ensures Valid() && ledger.classes == old(ledger.classes)
      ensures ledger.ledger.records == old(ledger.ledger.records)[ordinal := Invalid(Reason(reason))]
    {
      hide SourceLedger.Valid, Books, StateLaws.Inv, Filling, AllWellFormed, Uniform, NoneOwed, Reason, Accounts,
           Justified;
      ghost var records := ledger.ledger.records;
      InvalidBooked(records, batch, handoffs, ordinal, Reason(reason));
      var err := ledger.Invalidate(ordinal, reason);
      ledgerFault := ledgerFault || err.Some?;
      AccountsUpdate(Asked(), outside.answers, At(), records, ordinal, Invalid(Reason(reason)));
    }

    lemma WhatIsOpen()
      requires Valid()
      ensures packetOpen ==> packet.Some? && packet.value.stream != null && !stopped
      ensures state.Streams() == if packetOpen then {packet.value.stream} else {}
    {
      hide StateLaws.Inv, LedgerSide, ShapeRule, Accounted, Logged, Running;
    }

    lemma InvalidIsSettled(before: seq<Status>, ordinal: nat)
      requires !packetOpen && ordinal + 1 == |before| && NoneOwed(before, ordinal)
      requires |ledger.ledger.records| == |before| && ledger.ledger.records[ordinal].Invalid?
      requires ledger.ledger.records == before[ordinal := ledger.ledger.records[ordinal]]
      ensures Settled(ordinal)
    {}

    /** One instant serves every preview of the request. */
    method PreviewInstantAt(ghost sampling: nat) returns (instant: nat)
      requires Told() && state.Valid() && state.epoch.ready && Carried(state.config, sampling)
      modifies this`previewInstant, outside
      ensures Told() && old(outside.answers) <= outside.answers
      ensures Blame() || Usable(state.config, Origin(state.config, state.Model()), instant)
    {
      hide StateLaws.Inv, Blamed, Interrupted, Reasons, Usable, Logged, Running;
      if previewInstant.Some? {
        return previewInstant.value;
      }
      var wall, mono := Clock();
      instant := wall;
      if state.lastReservedWall.Some? && instant < state.lastReservedWall.value {
        instant := state.lastReservedWall.value;
      }
      if Usable(state.config, Origin(state.config, state.Model()), wall) {
        PreviewUsable(state.config, state.Model(), wall, sampling);
      } else {
        FaultIsBlamed(Asked(), outside.answers, ClockAnswer(wall, mono));
      }
      previewInstant := Some(instant);
    }

    /** Validates a record that will stay unsent; an unacceptable one is invalid instead. */
    method PreviewUnsent(ordinal: nat, ghost shape: nat, sampling: nat, ghost size: Outcome<nat>)
      requires Valid() && Facing(ordinal) && stopped && Placeable(ordinal, shape, sampling, size)
      modifies this`previewInstant, this`internal, this`stopped, this`ledgerFault, ledger, ledger.classes, outside
      ensures Valid() && stopped && ledger.classes == old(ledger.classes)
      ensures MovesBut(old(ledger.ledger.records), ledger.ledger.records, ordinal)
      ensures ledger.ledger.records[ordinal] == Unsent || ledger.ledger.records[ordinal].Invalid?
      ensures Onward() && (ledger.ledger.records[ordinal] == Unsent ==> internal || Vetted(outside.answers, ordinal))
    {
      hide SourceLedger.Valid, Books, StateLaws.Inv, Filling, AllWellFormed, Uniform, NoneOwed, StopsAtFailure,
           AllFull, BytesOf,
           Accounts, Journaled, Halted, Blamed, Justified;
      if internal {
        return;
      }
      var refused := Preview(ordinal, sampling);
      match refused
      case None =>
      case Some(error) =>
        if error.Some? && IsRecordRejection(error.value) {
          AppendJudged(Asked(), outside.answers, ordinal, error.value);
          InvalidateRecord(ordinal, ClassifyWireError(error.value));
        } else {
          StopInternal();
        }
    }

    /** The validation appender on a packet of this one record: None when it accepts, Some(e) with its
        rejection, Some(None) when the preview itself fails. */
    method Preview(ordinal: nat, sampling: nat) returns (refused: Option<Option<Error>>)
      requires state.Valid() && state.epoch.ready && Carried(state.config, sampling) && Told()
      modifies this`previewInstant, outside
      ensures Told() && old(outside.answers) <= outside.answers
      ensures match refused
              case None => Vetted(outside.answers, ordinal)
              case Some(error) =>
                if error.Some? && IsRecordRejection(error.value) then Refuses(outside.answers, ordinal, error.value) else Blame()
    {
      hide StateLaws.Inv, Accounts, Journaled, Halted, Blamed;
      var instant := PreviewInstantAt(sampling);
      if Usable(state.config, Origin(state.config, state.Model()), instant) {
        PreviewUsable(state.config, state.Model(), instant, sampling);
      }
      if state.lastReservedWall.Some? && instant < state.lastReservedWall.value {
        instant := state.lastReservedWall.value;
      }
      var header := state.HeaderLocked(instant, sampling);
      if header.Failed? {
        return Some(None);
      }
      refused := PreviewAt(ordinal);
    }

    /** Begin, Append and Finish of the validation appender. */
    method PreviewAt(ordinal: nat) returns (refused: Option<Option<Error>>)
      requires Told()
      modifies outside
      ensures Told() && old(outside.answers) <= outside.answers
      ensures match refused
              case None => Vetted(outside.answers, ordinal)
              case Some(error) =>
                if error.Some? && IsRecordRejection(error.value) then Refuses(outside.answers, ordinal, error.value) else Blame()
    {
      hide Accounts, Journaled, Halted, Blamed;
      ghost var asked := outside.answers;
      var begun := outside.BeginPreview();
      Heard(asked, PreviewBegin(begun));
      if !begun {
        FaultIsBlamed(Asked(), outside.answers, PreviewBegin(begun));
        return Some(None);
      }
      asked := outside.answers;
      var error := outside.AppendPreview(ordinal);
      Heard(asked, PreviewAppend(ordinal, error));
      if error.Some? {
        if !IsRecordRejection(error.value) {
          FaultIsBlamed(Asked(), outside.answers, PreviewAppend(ordinal, error));
        }
        return Some(error);
      }
      asked := outside.answers;
      var passed := outside.FinishPreview(ordinal);
      Heard(asked, PreviewFinish(ordinal, passed));
      if !passed {
        FaultIsBlamed(Asked(), outside.answers, PreviewFinish(ordinal, passed));
        return Some(None);
      }
      return None;
    }

    /** The appender refused the record: a bad record is invalid, anything else is internal. */
    method RejectRecord(ordinal: nat, ghost shape: nat, ghost sampling: nat, ghost size: Outcome<nat>, error: Error)
      requires Valid() && Coupled() && Facing(ordinal) && (packetOpen ==> ledgerOpen)
      requires Placeable(ordinal, shape, sampling, size)
      requires (size == Failed(error) && !IsAppendBoundary(error)) || Refuses(outside.answers, ordinal, error)
      modifies this, state, ledger, ledger.classes
      ensures Valid() && Coupled() && Settled(ordinal) && ledger == old(ledger) && ledger.classes == old(ledger.classes)
      ensures SameRequest() && MovesBut(old(ledger.ledger.records), ledger.ledger.records, ordinal)
      ensures ledger.ledger.records[ordinal].Invalid? || (ledger.ledger.records[ordinal] == Unsent && stopped && internal)
      ensures old(internal) ==> internal
      ensures state.Streams() <= old(state.Streams()) && handoffs == old(handoffs)
      ensures batch == old(batch) || batch == []
    {
      hide Tallied, StateLaws.Inv, SourceLedger.Valid, Books, Filling, AllWellFormed, Uniform, StopsAtFailure, AllFull,
           BytesOf, DataKinds,
           FullPackets, Reason, Accounts, Journaled, Halted, Blamed, Justified;
      AppendJudged(Asked(), outside.answers, ordinal, error);
      if IsRecordRejection(error) {
        InvalidateRecord(ordinal, ClassifyWireError(error));
      } else {
        AbortDataInternal();
      }
    }

    /** The first record of a packet. */
    method StartPacket(ordinal: nat, shape: nat, sampling: nat, size: Outcome<nat>)
      requires Valid() && Coupled() && Facing(ordinal) && packetOpen && batch == []
      requires Placeable(ordinal, shape, sampling, size) && packetShape == shape && packetSample == sampling
      requires MinimumMisfit(state.config, shape, size) == None
      modifies this, state, state.Streams(), ledger, ledger.classes, outside
      ensures Valid() && Coupled() && Settled(ordinal) && ledger == old(ledger) && ledger.classes == old(ledger.classes)
      ensures state.Streams() <= old(state.Streams())
      ensures SameRequest() && MovesBut(old(ledger.ledger.records), ledger.ledger.records, ordinal)
      ensures handoffs == old(handoffs) && Placed(ordinal, shape, sampling) && Onward()
      ensures ledger.ledger.records[ordinal] == Status.Pending ==> batch == [ordinal]
    {
      hide Tallied, StateLaws.Inv, AtRest, LedgerSide, ShapeRule, Accounted, Logged, Running, Filling, StopsAtFailure, AllFull,
           BytesOf, DataKinds, FullPackets,
           Reason, MinimumMisfit;
      OpenBatch();
      var err := AppendRecord(ordinal, size, sampling);
      if err.Some? {
        var _ := DropPacket(Batch());
        RejectRecord(ordinal, shape, sampling, size, err.value);
      }
    }

    /** The record opens a packet of its own. */
    method PlaceFresh(ordinal: nat, shape: nat, sampling: nat, size: Outcome<nat>)
      requires Valid() && Coupled() && Facing(ordinal) && !packetOpen && !stopped
      requires Placeable(ordinal, shape, sampling, size)
      modifies this, state, state.Streams(), ledger, ledger.classes, outside
      ensures Valid() && Coupled() && Settled(ordinal) && ledger == old(ledger) && ledger.classes == old(ledger.classes)
      ensures fresh(state.Streams() - old(state.Streams()))
      ensures SameRequest() && MovesBut(old(ledger.ledger.records), ledger.ledger.records, ordinal)
      ensures handoffs == old(handoffs) && Placed(ordinal, shape, sampling) && Onward()
      ensures ledger.ledger.records[ordinal] == Status.Pending ==> batch == [ordinal]
    {
      hide Tallied, Valid, BytesOf, DataKinds, FullPackets, Reason, Justified, MinimumMisfit, AtMostOneRound, NoneOwed;
      var misfit := MinimumMisfit(state.config, shape, size);
      if misfit.Some? {
        MisfitJustifies(Asked(), outside.answers, ordinal, shape, misfit.value);
        ghost var records := ledger.ledger.records;
        InvalidateRecord(ordinal, misfit.value);
        InvalidIsSettled(records, ordinal);
        return;
      }
      ghost var before := state.Model();
      var ok := OpenData(shape, sampling);
      RoundIsNoData(state.config, before, state.trace);
      WhatIsOpen();
      if ok {
        StartPacket(ordinal, shape, sampling, size);
      } else {
        PreviewUnsent(ordinal, shape, sampling, size);
      }
    }

    /** A mapped record takes its place: in the open datagram, in a fresh one after a flush, invalid, or
        unsent once the request has stopped. */
    method Place(ordinal: nat, shape: nat, sampling: nat, size: Outcome<nat>)
      requires Valid() && Coupled() && Facing(ordinal) && (packetOpen ==> ledgerOpen)
      requires Placeable(ordinal, shape, sampling, size)
      modifies this, state, state.Streams(), ledger, ledger.classes, outside
      ensures Valid() && Coupled() && Settled(ordinal) && ledger == old(ledger) && ledger.classes == old(ledger.classes)
      ensures fresh(state.Streams() - old(state.Streams()))
      ensures SameRequest() && MovesBut(old(ledger.ledger.records), ledger.ledger.records, ordinal)
      ensures Placed(ordinal, shape, sampling) && Onward() && (old(stopped) ==> stopped)
      ensures AsksFirst() && (!outside.answers[|old(outside.answers)|].available ==> stopped && handoffs == old(handoffs))
    {
      hide Tallied, Valid, Parts, DataKinds, FullPackets, Reason, MinimumMisfit;
      var stop := StopUnavailable();
      if stop || stopped {
        PreviewUnsent(ordinal, shape, sampling, size);
        return;
      }
      PlaceAvailable(ordinal, shape, sampling, size);
    }

    /** The same while the destination is available. */
    method PlaceAvailable(ordinal: nat, shape: nat, sampling: nat, size: Outcome<nat>)
      requires Valid() && Coupled() && Facing(ordinal) && (packetOpen ==> ledgerOpen) && !stopped
      requires Placeable(ordinal, shape, sampling, size)
      modifies this, state, state.Streams(), ledger, ledger.classes, outside
      ensures Valid() && Coupled() && Settled(ordinal) && ledger == old(ledger) && ledger.classes == old(ledger.classes)
      ensures fresh(state.Streams() - old(state.Streams()))
      ensures SameRequest() && MovesBut(old(ledger.ledger.records), ledger.ledger.records, ordinal)
      ensures Placed(ordinal, shape, sampling) && Onward()
    {
      hide Tallied, Valid, Parts, DataKinds, FullPackets, Reason, MinimumMisfit;
      if !packetOpen {
        PlaceFresh(ordinal, shape, sampling, size);
        return;
      }
      var config := state.config;
      PacketIsOpen();
      var records := packet.value.DataRecords();
      if shape != packetShape || (config.version == V5 && sampling != packetSample) || records >= config.maxRecords {
        MustFlush(ordinal, shape, sampling, size);
        FlushThenPlace(ordinal, shape, sampling, size);
        return;
      }
      SameSampling(sampling);
      PlaceInOpen(ordinal, shape, sampling, size);
    }

    /** The record is offered to the open datagram; one that only lacks room there follows a flush. */
    method PlaceInOpen(ordinal: nat, shape: nat, sampling: nat, size: Outcome<nat>)
      requires Valid() && Coupled() && Facing(ordinal) && packetOpen && ledgerOpen
      requires Placeable(ordinal, shape, sampling, size) && packetShape == shape && packetSample == sampling
      modifies this, state, state.Streams(), ledger, ledger.classes, outside
      ensures Valid() && Coupled() && Settled(ordinal) && ledger == old(ledger) && ledger.classes == old(ledger.classes)
      ensures fresh(state.Streams() - old(state.Streams()))
      ensures SameRequest() && MovesBut(old(ledger.ledger.records), ledger.ledger.records, ordinal)
      ensures Placed(ordinal, shape, sampling) && Onward()
    {
      hide Tallied, Valid, Parts, Turned, DataKinds, FullPackets, Reason, MinimumMisfit;
      PacketIsOpen();
      var err := AppendRecord(ordinal, size, sampling);
      if err.Some? {
        PacketIsOpen();
        if IsAppendBoundary(err.value) && packet.value.DataRecords() != 0 {
          LacksRoom(ordinal, shape, sampling, size, err.value);
          FlushThenPlace(ordinal, shape, sampling, size);
        } else {
          RejectRecord(ordinal, shape, sampling, size, err.value);
        }
      }
    }

    /** Another shape or rate, or a datagram full by count. */
    lemma MustFlush(ordinal: nat, shape: nat, sampling: nat, size: Outcome<nat>)
      requires Placeable(ordinal, shape, sampling, size)
      requires shape != packetShape || (state.config.version == V5 && sampling != packetSample)
               || |batch| >= state.config.maxRecords
      ensures Parts(state.config, sources, outside.answers, Batch(), ordinal)
    {
      hide HasRoom, SamplingOf, BytesOf;
    }

    /** A record that only lacks room in the open datagram. */
    lemma LacksRoom(ordinal: nat, shape: nat, sampling: nat, size: Outcome<nat>, error: Error)
      requires Placeable(ordinal, shape, sampling, size) && IsAppendBoundary(error)
      requires Turned(ordinal, size, error)
      ensures Parts(state.config, sources, outside.answers, Batch(), ordinal)
    {
      hide HasRoom, SamplingOf, BytesOf;
    }

    /** Only v5 packets tell sampling rates apart. */
    lemma SameSampling(sampling: nat)
      requires Valid() && ledgerOpen && Carried(state.config, sampling)
      requires state.config.version == V5 ==> sampling == packetSample
      ensures sampling == packetSample
    {
      hide SourceLedger.Valid, Books, AllWellFormed, StateSide, Accounted, Logged, Running;
      assert Conforms(state.config, sources, batch[0], packetShape, packetSample);
    }

    /** The open packet's shared counter counts the open datagram. */
    lemma PacketIsOpen()
      requires Valid() && packetOpen && ledgerOpen
      ensures packet.Some? && packet.value.DataRecords() == |batch| > 0 && !stopped
    {
      hide StateLaws.Inv, ShapeRule, Accounted, Logged, Running;
      OpenBatch();
    }

    /** The open datagram goes out first; the record follows in a datagram of its own. */
    method FlushThenPlace(ordinal: nat, shape: nat, sampling: nat, size: Outcome<nat>)
      requires Valid() && Coupled() && Facing(ordinal) && packetOpen && ledgerOpen
      requires Placeable(ordinal, shape, sampling, size)
      requires Parts(state.config, sources, outside.answers, Batch(), ordinal)
      modifies this, state, state.Streams(), ledger, ledger.classes, outside
      ensures Valid() && Coupled() && Settled(ordinal) && ledger == old(ledger) && ledger.classes == old(ledger.classes)
      ensures fresh(state.Streams() - old(state.Streams()))
      ensures SameRequest() && MovesBut(old(ledger.ledger.records), ledger.ledger.records, ordinal)
      ensures Placed(ordinal, shape, sampling) && Onward()
    {
      hide Tallied, StateLaws.Inv, LedgerSide, ShapeRule, Accounted, Logged, Running, Filling, StopsAtFailure, AllFull,
           BytesOf, DataKinds, FullPackets, Reason, Parts;
      ghost var asked, fill := outside.answers, Batch();
      OpenBatch();
      var ok := FlushData();
      assert HandsOff(old(handoffs), handoffs, old(batch), old(packetShape), old(packetSample), ok);
      if ok {
        PlaceFresh(ordinal, shape, sampling, size);
      } else {
        PreviewUnsent(ordinal, shape, sampling, size);
      }
      PartsGrow(state.config, sources, asked, outside.answers, fill, ordinal);
    }

    // ---- the request ----

    /** After `ordinal` records: each has its place, those refused before placement say why, and the others
        passed an appender. */
    ghost predicate Consumed(ordinal: nat)
      reads this, state, state.Streams(), ledger, ledger.classes, outside
    {
      && Valid() && Coupled() && |ledger.ledger.records| == ordinal <= |sources| && (packetOpen ==> ledgerOpen)
      && (!stopped ==> NoneOwed(ledger.ledger.records, ordinal))
      && Refused(state.config, sources, ledger.ledger.records) && Screened(outside.answers, ledger.ledger.records, internal)
    }

    /** Each datagram so far but the open one ended because of a record that could not join it. */
    ghost predicate Spaced(ordinal: nat)
      reads `sources, `handoffs, `batch, `stopped, outside
    {
      Divided(state.config, sources, outside.answers, handoffs, batch, ordinal, stopped)
    }

    lemma BatchBelow(ordinal: nat)
      requires Consumed(ordinal)
      ensures forall x :: x in batch ==> x < ordinal
    {
      hide StateLaws.Inv, ShapeRule, StopRule, Accounted, Logged, Running, Coupled, SourceLedger.Valid, Flatten, Count,
           Confirms, MakesAmbiguous, FullPackets, NoneOwed, Refused, Screened;
    }

    /** The datagrams stay apart over the placement of one record. */
    twostate lemma PlacedIsSpaced(ordinal: nat)
      requires Flushed(ordinal) && old(Spaced(ordinal)) && (old(stopped) ==> stopped) && sources == old(sources)
      requires old(outside.answers) <= outside.answers && forall x :: x in old(batch) ==> x < ordinal
      ensures Spaced(ordinal + 1)
    {
      hide Divided, Parts, BytesOf;
      var c, was := state.config, old(handoffs);
      if handoffs == was {
        DividedStays(c, sources, old(outside.answers), outside.answers, was, old(batch), batch, ordinal, ordinal + 1,
                     old(stopped), stopped);
      } else {
        var h := handoffs[|was|];
        assert handoffs == was + [h];
        DividedGrows(c, sources, old(outside.answers), outside.answers, was, h, batch, ordinal, stopped);
      }
    }

    method AddRecord(ordinal: nat, valid: bool, reason: int)
      requires Valid() && |ledger.ledger.records| == ordinal < MAX_UINT64
      requires valid || Justified(Asked(), outside.answers, ordinal, Reason(reason))
      modifies this`ledgerFault, ledger, ledger.classes
      ensures Valid() && (ledger.classes == old(ledger.classes) || fresh(ledger.classes))
      ensures ledger.ledger.records == old(ledger.ledger.records) + [if valid then Unsent else Invalid(Reason(reason))]
    {
      hide SourceLedger.Valid, Books, StateLaws.Inv, Filling, AllWellFormed, Uniform, Reason, Accounts, Justified;
      ghost var records, status := ledger.ledger.records, if valid then Unsent else Invalid(Reason(reason));
      SourceBooked(records, batch, handoffs, status);
      var err := ledger.AddSource(ordinal, valid, reason);
      ledgerFault := ledgerFault || err.Some?;
      AccountsSource(Asked(), outside.answers, At(), records, status);
    }

    /** The callback run on each record of the request, in source order. */
    method Consume(ordinal: nat, source: Source)
      requires Consumed(ordinal) && Spaced(ordinal) && ordinal < |sources| && sources[ordinal] == source
      requires ordinal < MAX_UINT64 && WellMapped(state.config, source)
      modifies this, state, state.Streams(), ledger, ledger.classes, outside
      ensures Consumed(ordinal + 1) && Spaced(ordinal + 1) && SameRequest() && ledger == old(ledger)
      ensures ledger.classes == old(ledger.classes) || fresh(ledger.classes)
      ensures fresh(state.Streams() - old(state.Streams()))
    {
      hide Tallied, Consumed, Spaced, Flushed;
      BatchBelow(ordinal);
      TakeRecord(ordinal, source);
      PlacedIsSpaced(ordinal);
    }

    /** The record is counted, and placed unless it is refused before any packet is considered. */
    method TakeRecord(ordinal: nat, source: Source)
      requires Consumed(ordinal) && ordinal < |sources| && sources[ordinal] == source && ordinal < MAX_UINT64
      requires WellMapped(state.config, source)
      modifies this, state, state.Streams(), ledger, ledger.classes, outside
      ensures Consumed(ordinal + 1) && SameRequest() && ledger == old(ledger)
      ensures ledger.classes == old(ledger.classes) || fresh(ledger.classes)
      ensures fresh(state.Streams() - old(state.Streams()))
      ensures Flushed(ordinal) && Onward() && (old(stopped) ==> stopped)
    {
      hide Tallied, Valid, DataKinds, FullPackets, Rejects;
      ghost var asked, records, was := outside.answers, ledger.ledger.records, internal;
      if source.Unmapped? {
        AddRecord(ordinal, false, source.reason);
        return;
      }
      AddRecord(ordinal, true, 0);
      if source.shape == None {
        InvalidateRecord(ordinal, REJECTION_FAMILY_MISMATCH);
        return;
      }
      var sampling := SamplingOf(state.config, source.sampling);
      if sampling == None {
        InvalidateRecord(ordinal, REJECTION_INVALID_VALUE);
        return;
      }
      Place(ordinal, source.shape.value, sampling.value, source.size);
      ScreenedStep(asked, outside.answers, records, ledger.ledger.records, was, internal);
    }

    method ResetPacket()
      modifies this`packet, this`packetOpen, this`ledgerOpen, this`packetShape, this`packetSample, this`previewInstant
      ensures !packetOpen && !ledgerOpen && previewInstant == None
    {
      packet, packetOpen, ledgerOpen, packetShape, packetSample := None, false, false, 0, 0;
      previewInstant := None;
    }

    method ResetResult()
      modifies this`stopped, this`transient, this`internal, this`packets, this`confirmedPackets, this`ambiguousPackets
      ensures !stopped && !transient && !internal && packets == confirmedPackets == ambiguousPackets == 0
    {
      stopped, transient, internal := false, false, false;
      packets, confirmedPackets, ambiguousPackets := 0, 0, 0;
    }

    ghost method ResetAccount(sources: seq<Source>)
      modifies this`handoffs, this`batch, this`ledgerFault, this`base, this`done, this`start, this`sources, outside
      ensures handoffs == [] && batch == [] && !ledgerFault && base == DataKinds(state.trace) && this.sources == sources
      ensures done == Kinds(state.trace) && start == state.epoch && outside.answers == []
    {
      handoffs, batch, ledgerFault := [], [], false;
      base, done, start, this.sources := DataKinds(state.trace), Kinds(state.trace), state.epoch, sources;
      outside.Forget();
    }

    /** resetRequest, on a fresh ledger. */
    method ResetRequest(sources: seq<Source>)
      requires AtRest()
      modifies this, outside
      ensures fresh(ledger) && fresh(ledger.classes) && this.sources == sources && base == DataKinds(state.trace)
      ensures start == state.epoch && done == Kinds(state.trace) && outside.answers == [] && !internal
      ensures Consumed(0) && Spaced(0) && handoffs == [] && !stopped && !packetOpen
    {
      hide Doubtful, AtRest, Consumed, Spaced, SourceLedger.Valid, DataKinds, FullPackets;
      ledger := new SourceLedger();
      ResetPacket();
      ResetResult();
      ResetAccount(sources);
      StartsConsumed();
    }

    lemma StartsConsumed()
      requires AtRest() && ledger.Valid() && ledger.ledger == EMPTY && !ledgerFault && handoffs == [] && batch == []
      requires !packetOpen && !ledgerOpen && !stopped && At() == Standing(false, false, start, None)
      requires packets == confirmedPackets == ambiguousPackets == 0
      requires base == DataKinds(state.trace) && done == Kinds(state.trace) && outside.answers == []
      ensures Consumed(0) && Spaced(0)
    {
      hide StateLaws.Inv, SourceLedger.Valid, DataKinds, Kinds, FullPackets, Accounts, Journaled, Halted, Screened,
           Refused, Books;
      NothingYet(Asked(), done);
      NothingCommitted(base);
    }

    lemma NothingCommitted(base: seq<Kind>)
      ensures base == base + FullPackets([]) && FullPackets([]) == [] && Doubtful([]) == 0
    {}

    lemma NothingYet(q: Request, done: seq<Packed>)
      ensures Books([], [], []) && Refused(q.config, q.sources, []) && Screened([], [], false)
      ensures Accounts(q, [], Standing(false, false, q.start, None), [])
      ensures Journaled([], [], None, done, done) && !Halted([])
    {
      EmptyBooks();
      assert done + [] == done;
    }

    /** Sends what is left in the open datagram. */
    method Close()
      requires Consumed(|sources|) && Spaced(|sources|)
      modifies this, state, state.Streams(), ledger, ledger.classes, outside
      ensures Consumed(|sources|) && !packetOpen && SameRequest() && ledger == old(ledger)
      ensures ledger.classes == old(ledger.classes)
      ensures Separated(state.config, sources, outside.answers, handoffs, |sources|)
    {
      hide Tallied, Parted, StateLaws.Inv, SourceLedger.Valid, Books, Filling, AllWellFormed, Uniform, StopsAtFailure, AllFull,
           BytesOf, DataKinds,
           FullPackets, Refused, Accounts, Journaled, Halted;
      ghost var before, asked, was := ledger.ledger.records, outside.answers, internal;
      if !stopped && packetOpen {
        var _ := FlushData();
        if handoffs != old(handoffs) {
          ghost var h := handoffs[|old(handoffs)|];
          assert handoffs == old(handoffs) + [h];
          SeparatedGrows(state.config, sources, asked, outside.answers, old(handoffs), h, |sources|, |sources|);
        } else {
          DividedStays(state.config, sources, asked, outside.answers, handoffs, old(batch), [], |sources|, |sources|,
                       false, stopped);
        }
        RefusedStays(state.config, sources, before, ledger.ledger.records);
        ScreenedStays(asked, outside.answers, before, ledger.ledger.records, was, internal);
      }
    }

    /** One request. Whatever the clock, the transport, the appender and the writer answered, the ledger
        tells exactly what went out, the state machine committed exactly what was confirmed, and every
        record and every failure has its reason in the request or in the answers. */
    method Pack(sources: seq<Source>, admitted: bool) returns (outcome: PackOutcome)
      requires AtRest()
      requires |sources| <= MAX_INT64 && forall i :: 0 <= i < |sources| ==> WellMapped(state.config, sources[i])
      modifies this, state, outside
      ensures AtRest() && fresh(ledger) && ledger.Valid() && !ledgerFault
      ensures Report(Request(state.config, old(state.epoch), if admitted then sources else []), outside.answers,
                     ledger.ledger.records, handoffs, outcome)
      ensures DataKinds(state.trace) == old(DataKinds(state.trace)) + FullPackets(handoffs)
      ensures Tallied(0)
      ensures Kinds(state.trace) == old(Kinds(state.trace)) + Delivered(outside.answers)
      ensures state.config.version != V9 ==>
        state.epoch.sequence == (old(state.epoch.sequence) + Count(ledger.ledger.records, Confirmed)) % UINT32_MODULUS
    {
      hide Tallied, Consumed, Spaced, StateLaws.Inv, SourceLedger.Valid, Report, DataKinds, FullPackets, Count;
      ghost var was := state.Model();
      var given := if admitted then sources else [];
      ResetRequest(given);
      for ordinal := 0 to |given|
        invariant Consumed(ordinal) && Spaced(ordinal) && this.sources == given && base == DataKinds(was.trace)
        invariant done == Kinds(was.trace) && start == was.epoch
        invariant fresh(ledger) && fresh(ledger.classes) && fresh(state.Streams())
      {
        Consume(ordinal, given[ordinal]);
      }
      outcome := Conclude();
      if state.config.version != V9 {
        SequenceFollows(state.config, was, state.Model(), ledger.ledger.records, handoffs);
      }
    }

    /** The last datagram goes out and the request is reported. */
    method Conclude() returns (outcome: PackOutcome)
      requires Consumed(|sources|) && Spaced(|sources|)
      modifies this, state, state.Streams(), ledger, ledger.classes, outside
      ensures AtRest() && ledger == old(ledger) && ledger.Valid() && !ledgerFault && SameRequest()
      ensures Report(Asked(), outside.answers, ledger.ledger.records, handoffs, outcome) && Coupled() && Tallied(0)
      ensures Kinds(state.trace) == done + Delivered(outside.answers)
      ensures Books(ledger.ledger.records, [], handoffs)
    {
      hide Tallied, Spaced, Separated, StateLaws.Inv, AtRest, Accounted, Running, ShapeRule, Screened,
           SourceLedger.Valid, Report, Flatten,
           Confirms, MakesAmbiguous, Count, Refused;
      Close();
      outcome := Outcome();
    }

    method Outcome() returns (outcome: PackOutcome)
      requires Consumed(|sources|) && !packetOpen
      requires Separated(state.config, sources, outside.answers, handoffs, |sources|)
      ensures Report(Asked(), outside.answers, ledger.ledger.records, handoffs, outcome)
    {
      hide Separated, StateLaws.Inv, SourceLedger.Valid, Books, Filling, Uniform, Blamed, Interrupted, Reasons, Halted, Orderly,
           Dispatched, Datagrams,
           Delivered, Accepted, Vetted;
      if internal {
        return PackInternal;
      }
      if transient {
        return PackTransient;
      }
      NothingSentIfNoneConfirmed(state.config, sources, ledger.ledger.records, handoffs);
      var counts := ledger.Counts();
      if counts.valid == 0 || counts.confirmed == 0 {
        return PackPermanent;
      }
      return PackSucceeded;
    }

    /** Template refresh without a request: at most one due round, and never a data record. */
    method Refresh() returns (failure: Option<PackOutcome>)
      requires AtRest()
      modifies this, state, outside
      ensures AtRest() && handoffs == []
      ensures AtMostOneRound(state.config, old(state.Model()), state.trace)
      ensures DataKinds(state.trace) == old(DataKinds(state.trace))
      ensures Kinds(state.trace) == old(Kinds(state.trace)) + Delivered(outside.answers)
      ensures failure == None ==> !state.progress.refreshActive && !state.progress.refreshDue
      ensures failure == Some(PackInternal) ==> Blamed(Request(state.config, old(state.epoch), []), outside.answers)
      ensures failure == Some(PackTransient) ==> Interrupted(state.config, outside.answers)
    {
      hide Tallied, StateLaws.Inv, AtRest, LedgerSide, ShapeRule, Refused, DataKinds, FullPackets, Blamed, Interrupted,
           Reasons, AtMostOneRound, Kinds, Delivered;
      ghost var before := state.Model();
      ResetRequest([]);
      var stop := StopBetween();
      Between();
      if !stop {
        DrainIfDue();
      }
      TraceIsLogged();
      RoundIsNoData(state.config, before, state.trace);
      return if internal then Some(PackInternal) else if transient then Some(PackTransient) else None;
    }

    method DrainIfDue()
      requires Valid() && !packetOpen && !stopped
      modifies this`internal, this`transient, this`stopped, state, outside
      ensures Valid() && !packetOpen && AtMostOneRound(state.config, old(state.Model()), state.trace)
      ensures !stopped ==> !state.progress.refreshActive && !state.progress.refreshDue
    {
      hide Tallied, Valid, AtMostOneRound, DrainedTo, Drained, MarkDue;
      ghost var before := state.Model();
      Between();
      var wall, mono, due := Sample();
      if due {
        ghost var marked, asked := state.Model(), outside.answers;
        var completed := DrainRefresh(wall, mono, marked);
        RoundDrained(state.config, before, marked, state.Model(), completed, asked, outside.answers);
      }
    }
  }
}
