/** What every run of the state machine keeps: the template/data grammar of an epoch, the sequence
    law, send-time order and exact rollback. */
module StateLaws {
  import opened Base
  import opened Sizes
  import opened StateModel

  // ---- the grammar of an epoch ----------------------------------------------------------

  /** Where an epoch stands after its committed packets: inside bootstrap round `round`, inside a
      block of `data` data packets, or inside a refresh round. */
  datatype Phase = Boot(round: nat, index: nat) | Block(data: nat) | Refresh(index: nat) | Rejected

  function Start(c: Config): Phase { if c.version == V5 then Block(0) else Boot(0, 0) }

  function Advance(c: Config, phase: Phase, kind: Kind): Phase
  {
    var n := |c.shapes|;
    match phase
    case Boot(round, index) =>
      if kind.Data? || kind.shape != index then Rejected
      else if index + 1 < n then Boot(round, index + 1)
      else if round + 1 < c.copies then Boot(round + 1, 0)
      else Block(0)
    case Block(data) =>
      if kind.Data? then
        (if CountLimit(c) != 0 && data >= CountLimit(c) then Rejected else Block(data + 1))
      else if c.version == V5 || kind.shape != 0 then Rejected
      else if n == 1 then Block(0) else Refresh(1)
    case Refresh(index) =>
      if kind.Data? || kind.shape != index then Rejected
      else if index + 1 == n then Block(0) else Refresh(index + 1)
    case Rejected => Rejected
  }

  function PhaseOf(c: Config, trace: seq<Sent>): Phase
  {
    if trace == [] then Start(c)
    else Advance(c, PhaseOf(c, trace[..|trace| - 1]), trace[|trace| - 1].kind)
  }

  // ---- the sequence law -----------------------------------------------------------------

  /** Data records for v5 and IPFIX, packets for v9. */
  function Weight(v: Version, kind: Kind): nat
  {
    if v == V9 then 1 else if kind.Data? then kind.records else 0
  }

  function TotalWeight(v: Version, trace: seq<Sent>): nat
  {
    if trace == [] then 0 else TotalWeight(v, trace[..|trace| - 1]) + Weight(v, trace[|trace| - 1].kind)
  }

  /** Every committed header counts exactly what was committed before it, modulo 2^32. */
  ghost predicate Sequenced(v: Version, trace: seq<Sent>)
  {
    forall j :: 0 <= j < |trace| ==> trace[j].sequence == TotalWeight(v, trace[..j]) % UINT32_MODULUS
  }

  // ---- send times -----------------------------------------------------------------------

  ghost predicate Sorted(xs: seq<nat>) { forall i, j :: 0 <= i < j < |xs| ==> xs[i] <= xs[j] }

  /** Send instants never decrease and never exceed the reserved wall. */
  ghost predicate TimeOrdered(handed: seq<nat>, reserved: Option<nat>)
  {
    && Sorted(handed)
    && (handed != [] ==> reserved.Some? && handed[|handed| - 1] <= reserved.value)
  }

  // ---- headers --------------------------------------------------------------------------

  /** The configured identity, the epoch's sequence number and origin, a sampling rate and a send instant. */
  ghost predicate Carries(c: Config, epoch: Epoch, h: Header, sampling: nat, instant: nat)
  {
    && h.version == c.version && h.sourceID == c.sourceID && h.domainID == c.domainID
    && h.engineType == c.engineType && h.engineID == c.engineID && h.samplingMode == c.samplingMode
    && h.sequence == epoch.sequence && h.samplingInterval == sampling && h.exportNanos == instant
    && h.origin == (if c.version == IPFIX then None else if c.origin.Some? then c.origin else epoch.startOrigin)
  }

  // ---- invariant ------------------------------------------------------------------------

  ghost predicate WallOk(wall: Option<nat>)
  {
    wall.Some? ==> wall.value <= MAX_INT64 && wall.value / NANOS_PER_SECOND <= MAX_UINT32
  }

  /** A wall instant the epoch can put into a header: in range and, where uptimes count, on the grid of
      the origin and within the uptime window. */
  predicate Usable(c: Config, origin: Option<nat>, wall: nat)
  {
    && wall <= MAX_INT64 && wall / NANOS_PER_SECOND <= MAX_UINT32
    && (c.version != IPFIX ==>
          && origin.Some? && origin.value <= wall && (wall - origin.value) % NANOS_PER_MS == 0
          && (wall - origin.value) / NANOS_PER_MS <= MAX_UINT32)
  }

  /** The counters that decide the next packet agree with the committed packets. */
  ghost predicate PhaseAgrees(c: Config, s: St)
  {
    match PhaseOf(c, s.trace)
    case Boot(round, index) =>
      && c.version != V5 && !s.epoch.ready && !s.refreshActive && !s.refreshDue
      && s.templateRound == round < c.copies && s.nextTemplateIndex == index < |c.shapes|
    case Block(data) =>
      && s.epoch.ready && s.nextTemplateIndex == 0 && s.templateRound == 0
      && (c.version == V9 && !s.refreshActive ==> s.packetCount == data)
      && (c.version == IPFIX ==> s.dataMessageCount == data % UINT32_MODULUS)
      && (CountLimit(c) != 0 ==> data <= CountLimit(c) && (data == CountLimit(c) ==> s.refreshDue))
    case Refresh(index) =>
      && c.version != V5 && s.epoch.ready && s.refreshActive
      && s.templateRound == 0 && s.nextTemplateIndex == index && 0 < index < |c.shapes|
    case Rejected => false
  }

  ghost predicate Core(c: Config, s: St)
  {
    && PhaseAgrees(c, s)
    && s.epoch.sequence == TotalWeight(c.version, s.trace) % UINT32_MODULUS
    && Sequenced(c.version, s.trace)
    && TimeOrdered(s.handed, s.lastReservedWall)
    && WallOk(s.lastReservedWall)
    && (s.refreshActive ==> s.refreshDue)
    && (c.version == V5 ==> !s.refreshDue)
    && (c.version == V9 && c.origin == None && s.epoch.ready ==> s.epoch.startOrigin.Some?)
    && (s.epoch.startOrigin.Some? ==> c.version == V9 && s.lastReservedWall.Some?
                                      && s.epoch.startOrigin.value <= s.lastReservedWall.value)
    && (s.epoch.ready && c.version != V5 ==> s.lastRefreshMono.Some?)
    && WallUsable(c, s)
  }

  /** The last reserved instant could be reserved again. */
  ghost predicate WallUsable(c: Config, s: St)
  {
    s.lastReservedWall.Some? && (c.version == IPFIX || Origin(c, s).Some?) ==> Usable(c, Origin(c, s), s.lastReservedWall.value)
  }

  ghost predicate PendingOk(c: Config, s: St, p: Pending)
  {
    && Core(c, Rollback(s, p.prior))
    && p.epochID == s.epoch.id && p.token == s.nextToken && p.shape < |c.shapes|
    && p.header.sequence == s.epoch.sequence
    && s.lastReservedWall == Some(p.instant)
    && (p.prior.reservedWall.Some? ==> p.prior.reservedWall.value <= p.instant)
    && p.header.exportNanos == p.instant
    && p.template == p.stream.None?
    && (s.epoch.ready ==> p.prior.startOrigin == s.epoch.startOrigin)
    && (c.version == V9 && c.origin == None ==> s.epoch.startOrigin.Some?)
    && (p.template ==> c.version != V5 && p.shape == s.nextTemplateIndex && p.dataRecords == 0
                       && (s.epoch.ready ==> s.refreshActive && p.prior.refreshDue))
    && (!p.template ==> s.epoch.ready && !s.refreshActive && p.dataRecords == p.stream.value.records
                        && !p.prior.refreshDue && (p.encoded ==> p.dataRecords > 0)
                        && p.dataRecords <= c.maxRecords)
  }

  ghost predicate Inv(c: Config, s: St)
  {
    && ValidConfig(c)
    && Core(c, s)
    && (s.pending.Some? ==> !s.epoch.exhausted && PendingOk(c, s, s.pending.value))
  }

  lemma InitInv(c: Config)
    requires ValidConfig(c)
    ensures Inv(c, Init(c))
  {}

  // ---- each transition keeps the invariant ----------------------------------------------

  lemma MarkDueInv(c: Config, s: St, mono: nat)
    requires Inv(c, s)
    ensures Inv(c, MarkDue(c, s, mono))
  {
    if s.pending.Some? {
      var p := s.pending.value;
      assert Rollback(MarkDue(c, s, mono), p.prior) == Rollback(s, p.prior);
    }
  }

  /** Giving up an unpublished epoch leaves a clean start; only the reserved wall and the handed-off
      instants survive. */
  lemma DiscardCore(c: Config, s: St)
    requires ValidConfig(c) && !s.epoch.ready && c.version != V5
    requires TimeOrdered(s.handed, s.lastReservedWall) && WallOk(s.lastReservedWall)
    requires s.lastReservedWall.Some? && c.origin.Some? ==> Usable(c, c.origin, s.lastReservedWall.value)
    ensures Core(c, Discard(s))
  {}

  lemma JudgeGrants(c: Config, s: St, wall: nat)
    requires Core(c, s) && ValidConfig(c) && Judge(c, s, wall).Granted?
    ensures var instant := Judge(c, s, wall).instant;
      && WallOk(Some(instant))
      && (c.version == IPFIX || Origin(c, s).Some? ==> Usable(c, Origin(c, s), instant))
      && (s.lastReservedWall.Some? ==> s.lastReservedWall.value <= instant)
      && (c.version != IPFIX && Origin(c, s).Some? ==> Origin(c, s).value <= instant)
  {}

  /** An instant can be its own origin. */
  lemma OwnOrigin(c: Config, instant: nat)
    requires WallOk(Some(instant))
    ensures Usable(c, Some(instant), instant)
  {}

  lemma ReserveCore(c: Config, s: St, wall: nat)
    requires Core(c, s) && ValidConfig(c)
    ensures Core(c, Reserve(c, s, wall).0)
  {
    if Judge(c, s, wall).Granted? {
      JudgeGrants(c, s, wall);
    }
  }

  lemma RollbackCore(c: Config, s: St, prior: Prior)
    requires ValidConfig(c) && (s.epoch.ready || c.version != V5)
    requires TimeOrdered(s.handed, prior.reservedWall) && WallOk(prior.reservedWall)
    requires prior.reservedWall.Some? && c.origin.Some? ==> Usable(c, c.origin, prior.reservedWall.value)
    requires s.epoch.ready ==>
      Core(c, s.(lastReservedWall := prior.reservedWall, pending := None,
                 epoch := s.epoch.(startOrigin := prior.startOrigin),
                 refreshActive := prior.refreshActive, refreshDue := prior.refreshDue,
                 nextTemplateIndex := prior.nextTemplateIndex, templateRound := prior.templateRound))
    ensures Core(c, Rollback(s, prior))
  {
    if !s.epoch.ready {
      DiscardCore(c, s.(lastReservedWall := prior.reservedWall, pending := None));
    }
  }

  lemma ReserveTemplateInv(c: Config, s: St, wall: nat, mono: nat, shape: nat)
    requires Inv(c, s) && s.pending.None? && !s.epoch.exhausted && c.version != V5
    requires shape < |c.shapes| && shape == s.nextTemplateIndex
    requires s.epoch.ready ==> s.refreshDue
    ensures Inv(c, ReserveTemplate(c, s, wall, mono, shape).0)
  {
    hide Sequenced, TimeOrdered, PhaseOf, TotalWeight, Usable, WallOk;
    ReserveCore(c, s, wall);
    var (after, result) := ReserveTemplate(c, s, wall, mono, shape);
    if Judge(c, s, wall).Granted? {
      JudgeGrants(c, s, wall);
      OwnOrigin(c, Judge(c, s, wall).instant);
    }
    if result.Done? {
      RollbackCore(c, after, PriorOf(s));
    }
  }

  lemma BeginTemplateInv(c: Config, s: St, wall: nat, mono: nat, shape: int)
    requires Inv(c, s)
    ensures Inv(c, BeginTemplate(c, s, wall, mono, shape).0)
  {
    hide Core, PendingOk, ReserveTemplate;
    MarkDueInv(c, s, mono);
    var marked := MarkDue(c, s, mono);
    if s.pending.None? && 0 <= shape < |c.shapes| && !s.epoch.exhausted && c.version != V5
      && (s.epoch.ready ==> marked.refreshDue || marked.refreshActive) && shape == marked.nextTemplateIndex
    {
      assert marked.refreshActive ==> marked.refreshDue by { ActiveIsDue(c, marked); }
      ReserveTemplateInv(c, marked, wall, mono, shape);
    }
  }

  lemma ActiveIsDue(c: Config, s: St)
    requires Core(c, s)
    ensures s.refreshActive ==> s.refreshDue
  {}

  lemma ReserveStreamInv(c: Config, s: St, wall: nat, mono: nat, shape: nat, capacity: nat, sampling: nat, begun: bool)
    requires Inv(c, s) && s.pending.None? && !s.epoch.exhausted && s.epoch.ready
    requires shape < |c.shapes| && !s.refreshDue && !s.refreshActive
    ensures Inv(c, ReserveStream(c, s, wall, mono, shape, capacity, sampling, begun).0)
  {
    hide Sequenced, TimeOrdered, PhaseOf, TotalWeight, Usable, WallOk;
    ReserveCore(c, s, wall);
    if Judge(c, s, wall).Granted? {
      JudgeGrants(c, s, wall);
      var s1 := Reserve(c, s, wall).0;
      RollbackCore(c, s1, PriorOf(s));
      RollbackCore(c, s1.(nextToken := s1.nextToken + 1), PriorOf(s));
    }
  }

  lemma BeginStreamInv(c: Config, s: St, wall: nat, mono: nat, shape: int, capacity: nat, sampling: nat, begun: bool)
    requires Inv(c, s)
    ensures Inv(c, BeginStream(c, s, wall, mono, shape, capacity, sampling, begun).0)
  {
    hide Core, PendingOk, ReserveStream;
    MarkDueInv(c, s, mono);
    var marked := MarkDue(c, s, mono);
    if s.pending.None? && 0 <= shape < |c.shapes| && !s.epoch.exhausted && s.epoch.ready
      && !marked.refreshDue && !marked.refreshActive
    {
      ReserveStreamInv(c, marked, wall, mono, shape, capacity, sampling, begun);
    }
  }

  lemma PendingInCatalog(c: Config, s: St)
    requires Inv(c, s)
    ensures s.pending.Some? ==> s.pending.value.shape < |c.shapes|
  {}

  /** Changing only what a packet holds keeps the invariant. */
  lemma RefillInv(c: Config, s: St, p: Pending)
    requires Inv(c, s) && s.pending.Some?
    requires var q := s.pending.value;
      && p == q.(stream := p.stream, dataRecords := p.dataRecords, length := p.length, encoded := p.encoded)
      && p.stream.Some? == q.stream.Some?
      && (p.stream.Some? ==> p.dataRecords == p.stream.value.records && p.dataRecords <= c.maxRecords)
      && (p.stream.None? ==> p.dataRecords == q.dataRecords)
      && (p.encoded && p.stream.Some? ==> p.dataRecords > 0)
    ensures Inv(c, s.(pending := Some(p)))
  {
    assert Rollback(s.(pending := Some(p)), p.prior) == Rollback(s, p.prior);
  }

  lemma AppendInv(c: Config, s: St, size: Outcome<nat>, sampling: nat, appender: Option<Error>)
    requires Inv(c, s) && s.pending.Some? && s.pending.value.stream.Some?
    ensures Inv(c, Append(c, s, size, sampling, appender).0)
  {
    hide Core;
    var p := s.pending.value;
    if AppendError(c, p, size, sampling, appender) == None && size.Done? {
      RefillInv(c, s, Appended(c, p, size.value));
    }
  }

  lemma AbortInv(c: Config, s: St)
    requires Inv(c, s) && s.pending.Some?
    ensures Inv(c, Abort(s))
  {}

  lemma FinishInv(c: Config, s: St, finished: Option<int>)
    requires Inv(c, s) && s.pending.Some? && s.pending.value.stream.Some?
    ensures Inv(c, Finish(c, s, finished).0)
  {
    hide Core, Rollback;
    var p := s.pending.value;
    AbortInv(c, s);
    var (after, result) := Finish(c, s, finished);
    if result.Done? {
      RefillInv(c, s, after.pending.value);
    }
  }

  lemma EncodeInv(c: Config, s: St, written: Option<int>)
    requires Inv(c, s) && s.pending.Some?
    ensures Inv(c, Encode(s, written).0)
  {
    hide Core, Rollback;
    AbortInv(c, s);
    if Encode(s, written).1.Done? {
      RefillInv(c, s, s.pending.value.(encoded := true));
    }
  }

  // ---- commit ---------------------------------------------------------------------------

  lemma Extended(c: Config, trace: seq<Sent>, sent: Sent)
    requires Sequenced(c.version, trace) && sent.sequence == TotalWeight(c.version, trace) % UINT32_MODULUS
    ensures Sequenced(c.version, trace + [sent])
    ensures TotalWeight(c.version, trace + [sent]) == TotalWeight(c.version, trace) + Weight(c.version, sent.kind)
    ensures PhaseOf(c, trace + [sent]) == Advance(c, PhaseOf(c, trace), sent.kind)
  {
    var longer := trace + [sent];
    assert longer[..|trace|] == trace;
    forall j | 0 <= j < |longer|
      ensures longer[j].sequence == TotalWeight(c.version, longer[..j]) % UINT32_MODULUS
    {
      assert longer[..j] == trace[..j] || j == |trace|;
    }
  }

  lemma HandOver(handed: seq<nat>, prior: Option<nat>, instant: nat)
    requires TimeOrdered(handed, prior) && (prior.Some? ==> prior.value <= instant)
    ensures TimeOrdered(handed + [instant], Some(instant))
  {}

  /** What the grammar says about the packet about to be committed. */
  lemma PendingFits(c: Config, s: St)
    requires Inv(c, s) && s.pending.Some?
    ensures var p := s.pending.value;
      && TimeOrdered(s.handed, p.prior.reservedWall) && WallOk(p.prior.reservedWall)
      && (p.prior.reservedWall.Some? && c.origin.Some? ==> Usable(c, c.origin, p.prior.reservedWall.value))
      && (!p.template ==> PhaseOf(c, s.trace).Block?)
      && (!p.template && CountLimit(c) != 0 ==> PhaseOf(c, s.trace).data < CountLimit(c))
  {}

  lemma CommitTemplatePhase(c: Config, s: St, s1: St, mono: nat)
    requires ValidConfig(c) && Core(c, s) && c.version != V5
    requires s.epoch.ready ==> s.refreshActive
    requires s1 == s.(epoch := s.epoch.(sequence := s1.epoch.sequence), packetCount := s1.packetCount)
    ensures var s2 := CommitTemplate(c, s1, mono);
      var next := Advance(c, PhaseOf(c, s.trace), Template(s.nextTemplateIndex));
      && !next.Rejected?
      && (match next
          case Boot(round, index) => !s2.epoch.ready && !s2.refreshActive && !s2.refreshDue
            && s2.templateRound == round < c.copies && s2.nextTemplateIndex == index < |c.shapes|
          case Block(data) => s2.epoch.ready && !s2.refreshActive && !s2.refreshDue && data == 0
            && s2.nextTemplateIndex == 0 && s2.templateRound == 0 && s2.packetCount == 0 && s2.dataMessageCount == 0
            && s2.lastRefreshMono == Some(mono)
          case Refresh(index) => s2.epoch.ready && s2.refreshActive && s2.refreshDue && s2.templateRound == 0
            && s2.nextTemplateIndex == index && 0 < index < |c.shapes|
          case Rejected => false)
      && s2.epoch.startOrigin == s.epoch.startOrigin && s2.epoch.sequence == s1.epoch.sequence
      && s2.lastReservedWall == s.lastReservedWall && s2.trace == s.trace && s2.handed == s.handed
      && (s.epoch.ready ==> s2.epoch.ready) && (s2.epoch.ready ==> s2.lastRefreshMono.Some?)
  {
    hide Sequenced, TimeOrdered, TotalWeight;
  }

  /** MarkDue after a commit: it only sets the due mark, and it does set it at the count limit. */
  lemma MarkDueCore(c: Config, s: St, mono: nat, data: nat)
    requires ValidConfig(c) && c.version != V5 && s.epoch.ready && !s.refreshActive
    requires c.version == V9 ==> s.packetCount == data
    requires c.version == IPFIX ==> s.dataMessageCount == data % UINT32_MODULUS
    requires CountLimit(c) != 0 ==> data <= CountLimit(c)
    ensures var m := MarkDue(c, s, mono);
      && m == s.(refreshDue := m.refreshDue)
      && (CountLimit(c) != 0 && data == CountLimit(c) ==> m.refreshDue)
  {}

  lemma CommitTemplateInv(c: Config, s: St)
    requires Inv(c, s) && s.pending.Some? && s.pending.value.template
    ensures Inv(c, CommitFull(c, s, s.pending.value))
  {
    hide Sequenced, TimeOrdered, TotalWeight, PhaseOf, Advance, CommitTemplate, PendingOk, Usable, WallOk;
    var p := s.pending.value;
    var s1 := CommitSequence(c, s, p);
    TemplatePending(c, s);
    CommitTemplatePhase(c, s, s1, p.mono);
    PendingFits(c, s);
    Extended(c, s.trace, SentOf(p));
    HandOver(s.handed, p.prior.reservedWall, p.instant);
    var s2 := CommitTemplate(c, s1, p.mono);
    if Advance(c, PhaseOf(c, s.trace), Template(p.shape)).Block? {
      MarkDueCore(c, s2, p.mono, 0);
    }
  }

  lemma TemplatePending(c: Config, s: St)
    requires Inv(c, s) && s.pending.Some?
    ensures var p := s.pending.value;
      && p.header.sequence == s.epoch.sequence && s.lastReservedWall == Some(p.instant)
      && (p.prior.reservedWall.Some? ==> p.prior.reservedWall.value <= p.instant)
      && (p.template ==> c.version != V5 && p.shape == s.nextTemplateIndex && p.dataRecords == 0)
      && (c.version == V9 && c.origin == None ==> s.epoch.startOrigin.Some?)
      && (p.template && s.epoch.ready ==> s.refreshActive)
      && (!p.template ==> s.epoch.ready && !s.refreshActive)
      && (!p.template && p.encoded ==> p.dataRecords > 0)
  {}

  /** What a data packet adds to the counters. */
  lemma DataCounts(c: Config, s: St, p: Pending, total: nat, data: nat)
    requires s.epoch.sequence == total % UINT32_MODULUS && !p.template && p.dataRecords > 0
    requires c.version == IPFIX ==> s.dataMessageCount == data % UINT32_MODULUS
    requires c.version == V9 ==> s.packetCount == data < UINT32_MODULUS - 1
    ensures var t := CommitSequence(c, s, p);
      && t == s.(epoch := s.epoch.(sequence := t.epoch.sequence), packetCount := t.packetCount,
                 dataMessageCount := t.dataMessageCount)
      && t.epoch.sequence == (total + Weight(c.version, SentOf(p).kind)) % UINT32_MODULUS
      && (c.version == V9 ==> t.packetCount == data + 1)
      && (c.version == IPFIX ==> t.dataMessageCount == (data + 1) % UINT32_MODULUS)
  {}

  lemma CommitDataInv(c: Config, s: St)
    requires Inv(c, s) && s.pending.Some? && !s.pending.value.template && s.pending.value.encoded
    ensures Inv(c, CommitFull(c, s, s.pending.value))
  {
    hide Sequenced, TimeOrdered, TotalWeight, PhaseOf, PendingOk, Usable, WallOk, CommitSequence, Weight;
    var p := s.pending.value;
    var s1 := CommitSequence(c, s, p);
    TemplatePending(c, s);
    PendingFits(c, s);
    DataCounts(c, s, p, TotalWeight(c.version, s.trace), PhaseOf(c, s.trace).data);
    Extended(c, s.trace, SentOf(p));
    HandOver(s.handed, p.prior.reservedWall, p.instant);
    if c.version != V5 {
      MarkDueCore(c, s1, p.mono, PhaseOf(c, s.trace).data + 1);
    }
  }

  lemma CommitShortInv(c: Config, s: St, write: WriteClass)
    requires Inv(c, s) && s.pending.Some? && write != WriteFull
    ensures Inv(c, CommitState(c, s, write))
  {
    hide Sequenced, TimeOrdered, TotalWeight, PhaseOf, Usable, WallOk;
    var p := s.pending.value;
    PendingFits(c, s);
    HandOver(s.handed, p.prior.reservedWall, p.instant);
    var kept := if write == WriteInvalid then s.(lastReservedWall := p.prior.reservedWall, pending := None)
                else s.(pending := None, handed := s.handed + [p.instant]);
    if !s.epoch.ready {
      DiscardCore(c, kept);
    }
  }

  lemma CommitInv(c: Config, s: St, write: WriteClass)
    requires Inv(c, s) && s.pending.Some? && s.pending.value.encoded
    ensures Inv(c, CommitState(c, s, write))
  {
    hide Inv, CommitFull;
    if write != WriteFull {
      CommitShortInv(c, s, write);
    } else if s.pending.value.template {
      CommitTemplateInv(c, s);
    } else {
      CommitDataInv(c, s);
    }
  }

  lemma RestartInv(c: Config, s: St)
    requires Inv(c, s)
    ensures Inv(c, Restart(c, s)) && Inv(c, AbortBootstrap(c, s).0)
  {}
}
