/** The closed form of the v9 sequence number, exact rollback, and the header and clock laws. */
module StateTheorems {
  import opened Base
  import opened Sizes
  import opened StateModel
  import opened StateLaws
  import opened StateRuns
  import opened Headers

  // ---- counting packets -----------------------------------------------------------------

  function DataPackets(trace: seq<Sent>): nat
  {
    if trace == [] then 0 else DataPackets(trace[..|trace| - 1]) + if trace[|trace| - 1].kind.Data? then 1 else 0
  }

  /** Template packets committed before an epoch in this phase: bootstrap, whole rounds, part of a round. */
  function TemplatePackets(c: Config, phase: Phase, blocks: seq<nat>): int
  {
    var n := |c.shapes|;
    match phase
    case Boot(round, index) => round * n + index
    case Block(_) => c.copies * n + (|blocks| - 1) * n
    case Refresh(index) => c.copies * n + (|blocks| - 1) * n + index
    case Rejected => 0
  }

  lemma SumSteps(blocks: seq<nat>)
    ensures Sum(blocks + [0]) == Sum(blocks)
    ensures blocks != [] ==> Sum(blocks[|blocks| - 1 := blocks[|blocks| - 1] + 1]) == Sum(blocks) + 1
  {
    assert (blocks + [0])[..|blocks|] == blocks;
    if blocks != [] {
      var last := |blocks| - 1;
      assert blocks[last := blocks[last] + 1][..last] == blocks[..last];
    }
  }

  lemma MultipleStep(n: nat, k: int)
    ensures (k + 1) * n == k * n + n
  {}

  lemma CountStep(c: Config, phase: Phase, blocks: seq<nat>, kind: Kind)
    requires ValidConfig(c) && BlocksFit(c, phase, blocks) && Advance(c, phase, kind) != Rejected
    requires phase.Boot? ==> phase.index < |c.shapes| && phase.round < c.copies
    requires phase.Refresh? ==> 0 < phase.index < |c.shapes|
    ensures var after, grown := Advance(c, phase, kind), BlocksStep(c, phase, blocks, kind);
      && Sum(grown) == Sum(blocks) + (if kind.Data? then 1 else 0)
      && TemplatePackets(c, after, grown) == TemplatePackets(c, phase, blocks) + (if kind.Data? then 0 else 1)
  {
    hide ValidShape, Sum;
    SumSteps(blocks);
    match phase
    case Boot(round, index) => MultipleStep(|c.shapes|, round);
    case Block(_) => MultipleStep(|c.shapes|, |blocks| - 1);
    case Refresh(_) => MultipleStep(|c.shapes|, |blocks| - 1);
  }

  lemma {:induction false} CountsOfTrace(c: Config, trace: seq<Sent>)
    requires ValidConfig(c) && c.version != V5 && PhaseOf(c, trace) != Rejected
    ensures BlocksFit(c, PhaseOf(c, trace), BlocksOf(c, trace))
    ensures DataPackets(trace) == Sum(BlocksOf(c, trace))
    ensures |trace| == DataPackets(trace) + TemplatePackets(c, PhaseOf(c, trace), BlocksOf(c, trace))
  {
    hide ValidConfig, BlocksFit, TemplatePackets, Advance, BlocksStep;
    GrammarIsLayout(c, trace);
    if trace == [] {
      EmptyCounts(c);
    } else {
      var init, kind := trace[..|trace| - 1], trace[|trace| - 1].kind;
      RejectedStays(c, PhaseOf(c, init), kind);
      CountsOfTrace(c, init);
      PhaseIndexInRange(c, init);
      CountStep(c, PhaseOf(c, init), BlocksOf(c, init), kind);
    }
  }

  lemma EmptyCounts(c: Config)
    requires c.version != V5
    ensures TemplatePackets(c, PhaseOf(c, []), BlocksOf(c, [])) == 0
  {}

  lemma {:induction false} V9WeightIsLength(trace: seq<Sent>)
    ensures TotalWeight(V9, trace) == |trace|
  {
    if trace != [] { V9WeightIsLength(trace[..|trace| - 1]); }
  }

  /** Every block before the current one holds exactly the configured count of data packets. */
  ghost predicate Full(c: Config, phase: Phase, blocks: seq<nat>)
  {
    && (forall b :: 0 <= b < |blocks| - 1 ==> blocks[b] == CountLimit(c))
    && (phase.Refresh? ==> blocks != [] && blocks[|blocks| - 1] == CountLimit(c))
  }

  ghost predicate FullBlocks(c: Config, trace: seq<Sent>) { Full(c, PhaseOf(c, trace), BlocksOf(c, trace)) }

  lemma {:induction false} SumOfFull(blocks: seq<nat>, size: nat)
    requires forall b :: 0 <= b < |blocks| ==> blocks[b] == size
    ensures Sum(blocks) == size * |blocks|
  {
    if blocks != [] {
      SumOfFull(blocks[..|blocks| - 1], size);
    }
  }

  lemma MultipleBounds(size: int, k: int)
    requires size >= 0
    ensures k >= 1 ==> size * k >= size
    ensures k <= -1 ==> size * k <= -size
  {}

  lemma DivideBlocks(data: nat, size: nat, full: nat, rest: nat)
    requires data == size * full + rest && rest < size
    ensures data / size == full
  {
    var quotient := data / size;
    assert data == size * quotient + data % size;
    assert size * (quotient - full) == rest - data % size;
    MultipleBounds(size, quotient - full);
  }

  /** The v9 closed form at one committed data packet: k data packets before it, C initial copies of
      n templates, one round of n after every R data packets. */
  lemma V9ClosedFormAt(c: Config, trace: seq<Sent>, j: nat)
    requires ValidConfig(c) && c.version == V9 && PhaseOf(c, trace) != Rejected && Sequenced(V9, trace)
    requires j < |trace| && trace[j].kind.Data? && FullBlocks(c, trace[..j])
    ensures var k, n, R := DataPackets(trace[..j]), |c.shapes|, c.refreshCount;
      trace[j].sequence == (k + c.copies * n + n * (k / R)) % UINT32_MODULUS
  {
    hide ValidShape, Sum, DataPackets, BlocksOf, PhaseOf, TotalWeight, BlocksFit;
    var before := trace[..j];
    PrefixAccepted(c, trace, j);
    PrefixAccepted(c, trace, j + 1);
    assert trace[..j + 1][..j] == before;
    DataComesFromBlock(c, trace, j);
    CountsOfTrace(c, before);
    V9WeightIsLength(before);
    var blocks := BlocksOf(c, before);
    var last := |blocks| - 1;
    BlockBeforeData(c, PhaseOf(c, before), blocks);
    SumOfFull(blocks[..last], c.refreshCount);
    DivideBlocks(DataPackets(before), c.refreshCount, last, blocks[last]);
    assert last * |c.shapes| == |c.shapes| * last;
  }

  lemma BlockBeforeData(c: Config, phase: Phase, blocks: seq<nat>)
    requires BlocksFit(c, phase, blocks) && phase.Block?
    ensures blocks != [] && Sum(blocks) == Sum(blocks[..|blocks| - 1]) + blocks[|blocks| - 1]
    ensures blocks[|blocks| - 1] == phase.data
  {}

  lemma DataComesFromBlock(c: Config, trace: seq<Sent>, j: nat)
    requires j < |trace| && trace[j].kind.Data? && PhaseOf(c, trace[..j + 1]) != Rejected
    ensures PhaseOf(c, trace[..j]).Block?
    ensures CountLimit(c) != 0 ==> PhaseOf(c, trace[..j]).data < CountLimit(c)
  {
    assert trace[..j + 1][..j] == trace[..j];
  }

  lemma {:induction false} PrefixAccepted(c: Config, trace: seq<Sent>, j: nat)
    requires j <= |trace| && PhaseOf(c, trace) != Rejected
    ensures PhaseOf(c, trace[..j]) != Rejected
    decreases |trace|
  {
    if j < |trace| {
      var init := trace[..|trace| - 1];
      RejectedStays(c, PhaseOf(c, init), trace[|trace| - 1].kind);
      PrefixAccepted(c, init, j);
      assert init[..j] == trace[..j];
    } else {
      assert trace[..j] == trace;
    }
  }

  // ---- runs whose refreshes are all count-driven ----------------------------------------

  /** A due mark stands only at the count limit, and every earlier block is full. */
  ghost predicate CountDriven(c: Config, s: St)
  {
    && FullBlocks(c, s.trace)
    && (s.refreshDue && PhaseOf(c, s.trace).Block? ==> PhaseOf(c, s.trace).data == CountLimit(c))
    && (s.pending.Some? && s.pending.value.prior.refreshDue && PhaseOf(c, s.trace).Block? ==>
          PhaseOf(c, s.trace).data == CountLimit(c))
    && (s.pending.Some? ==> !IntervalElapsed(c, s, s.pending.value.mono))
  }

  /** The monotonic sample of this call does not reach the refresh interval. */
  predicate Quiet(c: Config, s: St, e: Event)
  {
    match e
    case TemplateEvent(_, mono, _) => !IntervalElapsed(c, s, mono)
    case StreamEvent(_, mono, _, _, _, _) => !IntervalElapsed(c, s, mono)
    case DueEvent(mono) => !IntervalElapsed(c, s, mono)
    case _ => true
  }

  ghost predicate QuietRun(c: Config, s: St, events: seq<Event>)
    decreases |events|
  {
    events == [] || (Quiet(c, s, events[0]) && QuietRun(c, Apply(c, s, events[0]), events[1..]))
  }

  lemma MarkDueQuiet(c: Config, s: St, mono: nat)
    requires Inv(c, s) && CountLimit(c) != 0 && CountDriven(c, s) && !IntervalElapsed(c, s, mono)
    ensures CountDriven(c, MarkDue(c, s, mono))
  {
    hide FullBlocks, Sequenced, TimeOrdered, TotalWeight, PhaseOf, PendingOk;
  }

  /** Calls that commit nothing and discard nothing keep the trace. */
  lemma NoCommitQuiet(c: Config, s: St, after: St)
    requires CountDriven(c, s) && after.trace == s.trace && after.lastRefreshMono == s.lastRefreshMono
    requires after.refreshDue ==> s.refreshDue || (s.pending.Some? && s.pending.value.prior.refreshDue)
    requires after.pending.Some? ==>
      && (after.pending.value.prior.refreshDue ==> s.refreshDue || (s.pending.Some? && s.pending.value.prior.refreshDue))
      && !IntervalElapsed(c, s, after.pending.value.mono)
    ensures CountDriven(c, after)
  {
    hide FullBlocks, PhaseOf;
  }

  lemma FreshTraceQuiet(c: Config, after: St)
    requires ValidConfig(c) && after.trace == [] && after.pending.None? && !after.refreshDue
    ensures CountDriven(c, after)
  {}

  lemma FullStep(c: Config, phase: Phase, blocks: seq<nat>, kind: Kind)
    requires BlocksFit(c, phase, blocks) && Full(c, phase, blocks) && Advance(c, phase, kind) != Rejected
    requires phase.Block? && kind.Template? ==> phase.data == CountLimit(c)
    ensures Full(c, Advance(c, phase, kind), BlocksStep(c, phase, blocks, kind))
  {}

  lemma FullBlocksStep(c: Config, trace: seq<Sent>, sent: Sent)
    requires ValidConfig(c) && c.version != V5 && FullBlocks(c, trace)
    requires PhaseOf(c, trace + [sent]) != Rejected
    requires PhaseOf(c, trace).Block? && sent.kind.Template? ==> PhaseOf(c, trace).data == CountLimit(c)
    ensures FullBlocks(c, trace + [sent])
  {
    hide ValidConfig, Full, BlocksFit, Advance, BlocksStep, LayoutFor, Marks;
    var longer := trace + [sent];
    assert longer[..|trace|] == trace;
    RejectedStays(c, PhaseOf(c, trace), sent.kind);
    GrammarIsLayout(c, trace);
    FullStep(c, PhaseOf(c, trace), BlocksOf(c, trace), sent.kind);
  }

  lemma CommitQuiet(c: Config, s: St)
    requires Inv(c, s) && CountLimit(c) != 0 && CountDriven(c, s)
    requires s.pending.Some? && s.pending.value.encoded
    ensures CountDriven(c, CommitFull(c, s, s.pending.value))
  {
    hide FullBlocks, Sequenced, TimeOrdered, TotalWeight, PendingOk, PhaseOf, Advance, CommitTemplate, ValidShape;
    var p := s.pending.value;
    TemplatePending(c, s);
    PendingFits(c, s);
    CommitInv(c, s, WriteFull);
    var s1 := CommitSequence(c, s, p);
    Extended(c, s.trace, SentOf(p));
    CoreNotRejected(c, CommitFull(c, s, p));
    FullBlocksStep(c, s.trace, SentOf(p));
    if p.template {
      CommitTemplatePhase(c, s, s1, p.mono);
      if Advance(c, PhaseOf(c, s.trace), Template(p.shape)).Block? {
        MarkDueCore(c, CommitTemplate(c, s1, p.mono), p.mono, 0);
      }
    } else {
      DataStep(c, PhaseOf(c, s.trace), p);
      MarkDueCore(c, s1, p.mono, PhaseOf(c, s.trace).data + 1);
    }
  }

  lemma CoreNotRejected(c: Config, s: St)
    requires Core(c, s)
    ensures PhaseOf(c, s.trace) != Rejected
  {}

  lemma DataStep(c: Config, phase: Phase, p: Pending)
    requires phase.Block? && !p.template && (CountLimit(c) != 0 ==> phase.data < CountLimit(c))
    ensures Advance(c, phase, SentOf(p).kind) == Block(phase.data + 1)
  {}

  lemma BeginTemplateQuiet(c: Config, s: St, wall: nat, mono: nat, shape: int)
    requires Inv(c, s) && CountLimit(c) != 0 && CountDriven(c, s) && !IntervalElapsed(c, s, mono)
    ensures CountDriven(c, BeginTemplate(c, s, wall, mono, shape).0)
  {
    hide FullBlocks, PhaseOf, Core, PendingOk, Judge;
    MarkDueQuiet(c, s, mono);
    MarkDueInv(c, s, mono);
    ActiveIsDue(c, MarkDue(c, s, mono));
    if s.pending.None? {
      NoCommitQuiet(c, MarkDue(c, s, mono), BeginTemplate(c, s, wall, mono, shape).0);
    }
  }

  lemma BeginStreamQuiet(c: Config, s: St, wall: nat, mono: nat, shape: int, capacity: nat, sampling: nat, begun: bool)
    requires Inv(c, s) && CountLimit(c) != 0 && CountDriven(c, s) && !IntervalElapsed(c, s, mono)
    ensures CountDriven(c, BeginStream(c, s, wall, mono, shape, capacity, sampling, begun).0)
  {
    hide FullBlocks, PhaseOf, Core, PendingOk, Judge;
    MarkDueQuiet(c, s, mono);
    if s.pending.None? {
      NoCommitQuiet(c, MarkDue(c, s, mono), BeginStream(c, s, wall, mono, shape, capacity, sampling, begun).0);
    }
  }

  lemma AbortQuiet(c: Config, s: St)
    requires Inv(c, s) && CountLimit(c) != 0 && CountDriven(c, s) && s.pending.Some?
    ensures CountDriven(c, Abort(s))
  {
    hide FullBlocks, PhaseOf, Core;
    if s.epoch.ready {
      NoCommitQuiet(c, s, Abort(s));
    } else {
      FreshTraceQuiet(c, Abort(s));
    }
  }

  lemma FillQuiet(c: Config, s: St, e: Event)
    requires Inv(c, s) && CountLimit(c) != 0 && CountDriven(c, s) && s.pending.Some?
    requires e.AppendEvent? || e.FinishEvent? || e.EncodeEvent? || e.AbortEvent?
    ensures CountDriven(c, Apply(c, s, e))
  {
    hide FullBlocks, PhaseOf, Core, PendingOk, Rollback, DataSetSize;
    AbortQuiet(c, s);
    var after := Apply(c, s, e);
    if after != Abort(s) {
      NoCommitQuiet(c, s, after);
    }
  }

  lemma CommitStateQuiet(c: Config, s: St, write: WriteClass)
    requires Inv(c, s) && CountLimit(c) != 0 && CountDriven(c, s)
    requires s.pending.Some? && s.pending.value.encoded
    ensures CountDriven(c, CommitState(c, s, write))
  {
    hide FullBlocks, PhaseOf, Core, PendingOk, CommitFull;
    if write == WriteFull {
      CommitQuiet(c, s);
    } else if s.epoch.ready {
      NoCommitQuiet(c, s, CommitState(c, s, write));
    } else {
      FreshTraceQuiet(c, CommitState(c, s, write));
    }
  }

  lemma ApplyQuiet(c: Config, s: St, e: Event)
    requires Inv(c, s) && CountLimit(c) != 0 && CountDriven(c, s) && Quiet(c, s, e)
    ensures CountDriven(c, Apply(c, s, e))
  {
    hide CountDriven, Core, PendingOk;
    match e
    case TemplateEvent(wall, mono, shape) => BeginTemplateQuiet(c, s, wall, mono, shape);
    case StreamEvent(wall, mono, shape, capacity, sampling, begun) =>
      BeginStreamQuiet(c, s, wall, mono, shape, capacity, sampling, begun);
    case DueEvent(mono) => MarkDueQuiet(c, s, mono);
    case RestartEvent => FreshTraceQuiet(c, Restart(c, s));
    case AbortBootstrapEvent =>
      if !s.epoch.ready && c.version != V5 { FreshTraceQuiet(c, AbortBootstrap(c, s).0); }
    case CommitEvent(n, failed) =>
      if s.pending.Some? && s.pending.value.encoded {
        CommitStateQuiet(c, s, ClassifyWrite(n, s.pending.value.length, failed));
      }
    case _ => if s.pending.Some? { FillQuiet(c, s, e); }
  }

  lemma {:induction false} QuietRunIsCountDriven(c: Config, s: St, events: seq<Event>)
    requires Inv(c, s) && CountLimit(c) != 0 && CountDriven(c, s) && QuietRun(c, s, events)
    ensures CountDriven(c, Run(c, s, events))
    decreases |events|
  {
    hide CountDriven, Core, PendingOk, Apply;
    if events != [] {
      ApplyQuiet(c, s, events[0]);
      ApplyInv(c, s, events[0]);
      QuietRunIsCountDriven(c, Apply(c, s, events[0]), events[1..]);
    }
  }

  lemma FullStepBack(c: Config, phase: Phase, blocks: seq<nat>, kind: Kind)
    requires BlocksFit(c, phase, blocks) && Advance(c, phase, kind) != Rejected
    requires Full(c, Advance(c, phase, kind), BlocksStep(c, phase, blocks, kind))
    ensures Full(c, phase, blocks)
  {
    var after := BlocksStep(c, phase, blocks, kind);
    assert forall b :: 0 <= b < |blocks| - 1 ==> after[b] == blocks[b];
    if after == blocks + [0] && blocks != [] {
      assert after[|blocks| - 1] == blocks[|blocks| - 1];
    }
  }

  lemma {:induction false} FullPrefix(c: Config, trace: seq<Sent>, j: nat)
    requires ValidConfig(c) && c.version != V5 && PhaseOf(c, trace) != Rejected
    requires FullBlocks(c, trace) && j <= |trace|
    ensures FullBlocks(c, trace[..j])
    decreases |trace|
  {
    hide ValidConfig, Full, BlocksFit, Advance, BlocksStep, LayoutFor, Marks;
    if j == |trace| {
      assert trace[..j] == trace;
    } else {
      var init, kind := trace[..|trace| - 1], trace[|trace| - 1].kind;
      RejectedStays(c, PhaseOf(c, init), kind);
      GrammarIsLayout(c, init);
      FullStepBack(c, PhaseOf(c, init), BlocksOf(c, init), kind);
      FullPrefix(c, init, j);
      assert init[..j] == trace[..j];
    }
  }

  /** v9 over a whole run without an interval refresh: the header of the data packet that follows k
      committed data packets carries k + C*n + n*floor(k/R), modulo 2^32. */
  lemma V9SequenceClosedForm(c: Config, events: seq<Event>, j: nat)
    requires ValidConfig(c) && c.version == V9 && QuietRun(c, Init(c), events)
    requires var trace := Run(c, Init(c), events).trace; j < |trace| && trace[j].kind.Data?
    ensures var trace := Run(c, Init(c), events).trace;
      var k, n, R := DataPackets(trace[..j]), |c.shapes|, c.refreshCount;
      trace[j].sequence == (k + c.copies * n + n * (k / R)) % UINT32_MODULUS
  {
    hide ValidConfig, FullBlocks, PhaseOf;
    var s := Run(c, Init(c), events);
    InitInv(c);
    FreshTraceQuiet(c, Init(c));
    V9CountsPackets(c);
    QuietRunIsCountDriven(c, Init(c), events);
    RunKeepsInv(c, Init(c), events);
    CoreNotRejected(c, s);
    FullPrefix(c, s.trace, j);
    V9ClosedFormAt(c, s.trace, j);
  }

  lemma V9CountsPackets(c: Config)
    requires ValidConfig(c) && c.version == V9
    ensures CountLimit(c) != 0
  {}

  /** Sequence law over every run: a committed header carries what was committed before it, counted
      in data records for v5 and IPFIX and in packets for v9, modulo 2^32. */
  lemma SequenceLaw(c: Config, events: seq<Event>)
    requires ValidConfig(c)
    ensures var s := Run(c, Init(c), events);
      && Sequenced(c.version, s.trace)
      && s.epoch.sequence == TotalWeight(c.version, s.trace) % UINT32_MODULUS
  {
    InitInv(c);
    RunKeepsInv(c, Init(c), events);
  }

  /** Template-before-data over every run. */
  lemma EpochLayout(c: Config, events: seq<Event>)
    requires ValidConfig(c) && c.version != V5
    ensures var s := Run(c, Init(c), events);
      var blocks, phase := BlocksOf(c, s.trace), PhaseOf(c, s.trace);
      && Marks(s.trace) == LayoutFor(c, phase, blocks) && phase != Rejected
      && (CountLimit(c) != 0 ==> forall b :: 0 <= b < |blocks| ==> blocks[b] <= CountLimit(c))
      && (s.epoch.ready <==> !phase.Boot?)
  {
    hide LayoutFor, Marks, BlocksOf, ValidConfig;
    InitInv(c);
    RunKeepsInv(c, Init(c), events);
    GrammarIsLayout(c, Run(c, Init(c), events).trace);
  }

  /** Across every packet of the epoch with a legal write result, send instants never decrease,
      whatever the wall clock did. */
  lemma SendTimesNeverDecrease(c: Config, events: seq<Event>)
    requires ValidConfig(c)
    ensures Sorted(Run(c, Init(c), events).handed)
  {
    InitInv(c);
    RunKeepsInv(c, Init(c), events);
  }

  // ---- rollback -------------------------------------------------------------------------

  /** Aborting a stream packet of a published epoch, however much was appended, restores every field
      but the token counter. */
  lemma AbortUndoesBeginStream(c: Config, s: St, wall: nat, mono: nat, shape: int, capacity: nat, sampling: nat,
                               filled: Pending)
    requires Inv(c, s)
    requires BeginStream(c, s, wall, mono, shape, capacity, sampling, true).1.Done?
    requires filled.prior == BeginStream(c, s, wall, mono, shape, capacity, sampling, true).1.value.prior
    ensures var (begun, packet) := BeginStream(c, s, wall, mono, shape, capacity, sampling, true);
      Abort(begun.(pending := Some(filled))) == s.(nextToken := s.nextToken + 1)
  {
    hide Core;
    StartOriginOnlyV9(c, s);
  }

  /** The same for a refresh template: a newly set due mark is all that stays. */
  lemma AbortUndoesBeginTemplate(c: Config, s: St, wall: nat, mono: nat, shape: int)
    requires Inv(c, s) && s.epoch.ready
    requires BeginTemplate(c, s, wall, mono, shape).1.Done?
    ensures Abort(BeginTemplate(c, s, wall, mono, shape).0) == MarkDue(c, s, mono).(nextToken := s.nextToken + 1)
  {
    hide Core;
    StartOriginOnlyV9(c, s);
  }

  /** The encode-failure half for streams: a Finish that fails after any filling restores the state that
      the successful Begin found. */
  lemma FailedFinishUndoesBeginStream(c: Config, s: St, wall: nat, mono: nat, shape: int, capacity: nat, sampling: nat,
                                      filled: Pending, finished: Option<int>)
    requires Inv(c, s)
    requires BeginStream(c, s, wall, mono, shape, capacity, sampling, true).1.Done?
    requires filled.prior == BeginStream(c, s, wall, mono, shape, capacity, sampling, true).1.value.prior
    requires filled.stream.Some? && filled.shape < |c.shapes| && !filled.encoded
    ensures var (begun, packet) := BeginStream(c, s, wall, mono, shape, capacity, sampling, true);
      var (after, result) := Finish(c, begun.(pending := Some(filled)), finished);
      result.Failed? ==> after == MarkDue(c, s, mono).(nextToken := s.nextToken + 1) == s.(nextToken := s.nextToken + 1)
  {
    hide Core, Rollback, BeginStream, DataSetSize;
    AbortUndoesBeginStream(c, s, wall, mono, shape, capacity, sampling, filled);
    BegunStreamWasNotDue(c, s, wall, mono, shape, capacity, sampling);
  }

  lemma BegunStreamWasNotDue(c: Config, s: St, wall: nat, mono: nat, shape: int, capacity: nat, sampling: nat)
    requires BeginStream(c, s, wall, mono, shape, capacity, sampling, true).1.Done?
    ensures MarkDue(c, s, mono) == s
  {}

  /** The encode-failure half for templates of a published epoch: a newly set due mark is all that stays. */
  lemma FailedEncodeUndoesBeginTemplate(c: Config, s: St, wall: nat, mono: nat, shape: int, written: Option<int>)
    requires Inv(c, s) && s.epoch.ready
    requires BeginTemplate(c, s, wall, mono, shape).1.Done?
    ensures var (begun, packet) := BeginTemplate(c, s, wall, mono, shape);
      && begun.pending.Some?
      && var (after, result) := Encode(begun, written);
         (result.Failed? <==> written == None || written.value != packet.value.length)
         && (result.Failed? ==> after == MarkDue(c, s, mono).(nextToken := s.nextToken + 1))
  {
    hide Core, Rollback;
    AbortUndoesBeginTemplate(c, s, wall, mono, shape);
  }

  /** An unpublished epoch that gives up restarts from round zero, shape zero, sequence zero. */
  lemma AbortDiscardsBootstrap(c: Config, s: St, wall: nat, mono: nat, shape: int)
    requires Inv(c, s) && !s.epoch.ready
    requires BeginTemplate(c, s, wall, mono, shape).1.Done?
    ensures Abort(BeginTemplate(c, s, wall, mono, shape).0)
         == Init(c).(epoch := NewEpoch(c, s.epoch.id), nextID := s.nextID, nextToken := s.nextToken + 1,
                     lastReservedWall := s.lastReservedWall, handed := s.handed)
  {
    hide Sequenced, TimeOrdered, TotalWeight;
  }

  lemma StartOriginOnlyV9(c: Config, s: St)
    requires Core(c, s)
    ensures c.version == V9 && c.origin == None && s.epoch.ready ==> s.epoch.startOrigin.Some?
  {}

  // ---- headers --------------------------------------------------------------------------

  /** Every header the state builds passes its protocol writer's header check. */
  lemma TemplateHeaderIsWritable(c: Config, s: St, wall: nat, mono: nat, shape: int)
    requires Inv(c, s)
    ensures var result := BeginTemplate(c, s, wall, mono, shape).1;
      && (result.Done? ==> ValidHeader(result.value.header) && WriterAccepts(result.value.header))
      && result != Failed(ErrInvalidHeader)
  {
    hide Sequenced, TimeOrdered, PhaseAgrees;
  }

  lemma StreamHeaderIsWritable(c: Config, s: St, wall: nat, mono: nat, shape: int, capacity: nat, sampling: nat,
                               begun: bool)
    requires Inv(c, s)
    ensures var result := BeginStream(c, s, wall, mono, shape, capacity, sampling, begun).1;
      && (result.Done? ==> ValidHeader(result.value.header) && WriterAccepts(result.value.header))
      && result != Failed(ErrInvalidHeader)
  {
    hide Sequenced, TimeOrdered, PhaseAgrees;
  }

  // ---- exhaustion -----------------------------------------------------------------------

  /** Once the uptime window is exhausted no packet is handed off again before a restart. */
  lemma {:induction false} ExhaustedIsFinal(c: Config, s: St, events: seq<Event>)
    requires s.epoch.exhausted && s.pending.None? && RestartEvent !in events
    ensures var after := Run(c, s, events); after.epoch.exhausted && after.handed == s.handed && after.pending.None?
    decreases |events|
  {
    if events != [] {
      assert events[0] in events;
      ExhaustedIsFinal(c, Apply(c, s, events[0]), events[1..]);
    }
  }

  // ---- epochs ---------------------------------------------------------------------------

  /** A restart leaves nothing of the old epoch but the token counter: no packet of it can be mistaken for a new
      one, since the new identity is one that no epoch had before. */
  lemma {:induction false} EpochsAreNeverReused(c: Config, s: St, events: seq<Event>)
    requires s.epoch.id == s.nextID
    ensures Restart(c, s) == Init(c).(epoch := NewEpoch(c, s.nextID + 1), nextID := s.nextID + 1, nextToken := s.nextToken)
    ensures var t := Run(c, s, events);
      && t.epoch.id == t.nextID >= s.nextID && t.nextToken >= s.nextToken
      && (RestartEvent in events ==> t.epoch.id > s.epoch.id)
    decreases |events|
  {
    if events != [] {
      var after := Apply(c, s, events[0]);
      IDsStep(c, s, events[0]);
      hide Apply, Restart;
      assert forall e :: e in events ==> e == events[0] || e in events[1..];
      EpochsAreNeverReused(c, after, events[1..]);
    }
  }

  lemma IDsStep(c: Config, s: St, e: Event)
    requires s.epoch.id == s.nextID
    ensures var t := Apply(c, s, e);
      t.epoch.id == t.nextID == (if e == RestartEvent then s.nextID + 1 else s.nextID) && t.nextToken >= s.nextToken
  {
    hide BeginTemplate, BeginStream, Append, Finish, CommitFull, Rollback;
    match e
    case TemplateEvent(wall, mono, shape) => TemplateKeepsIDs(c, s, wall, mono, shape);
    case StreamEvent(wall, mono, shape, capacity, sampling, begun) =>
      StreamKeepsIDs(c, s, wall, mono, shape, capacity, sampling, begun);
    case AppendEvent(size, sampling, appender) => if Streaming(c, s) { FillKeepsIDs(c, s, size, sampling, appender); }
    case FinishEvent(finished) => if Streaming(c, s) { FinishKeepsIDs(c, s, finished); }
    case CommitEvent(_, _) => if s.pending.Some? { CommitKeepsIDs(c, s); }
    case _ => if s.pending.Some? { RollbackKeepsIDs(s); }
  }

  /** Identity, its counter and the token counter, which only grows. */
  predicate SameIDs(s: St, t: St)
  {
    t.epoch.id == s.epoch.id && t.nextID == s.nextID && t.nextToken >= s.nextToken
  }

  lemma RollbackKeepsIDs(s: St)
    requires s.pending.Some?
    ensures SameIDs(s, Rollback(s, s.pending.value.prior))
  {}

  lemma CommitKeepsIDs(c: Config, s: St)
    requires s.pending.Some?
    ensures SameIDs(s, CommitFull(c, s, s.pending.value))
  {}

  lemma FillKeepsIDs(c: Config, s: St, size: Outcome<nat>, sampling: nat, appender: Option<Error>)
    requires Streaming(c, s)
    ensures SameIDs(s, Append(c, s, size, sampling, appender).0)
  {
    hide DataSetSize, AppendError;
  }

  lemma FinishKeepsIDs(c: Config, s: St, finished: Option<int>)
    requires Streaming(c, s)
    ensures SameIDs(s, Finish(c, s, finished).0)
  {
    hide DataSetSize;
  }

  lemma TemplateKeepsIDs(c: Config, s: St, wall: nat, mono: nat, shape: int)
    ensures SameIDs(s, BeginTemplate(c, s, wall, mono, shape).0)
  {
    hide Judge, HeaderFor;
  }

  lemma StreamKeepsIDs(c: Config, s: St, wall: nat, mono: nat, shape: int, capacity: nat, sampling: nat, begun: bool)
    ensures SameIDs(s, BeginStream(c, s, wall, mono, shape, capacity, sampling, begun).0)
  {
    hide Judge, HeaderFor;
  }

  // ---- what a commit reports ------------------------------------------------------------

  /** A data packet begun now is told to refresh first. */
  predicate Required(c: Config, s: St, wall: nat, mono: nat, capacity: nat)
  {
    BeginStream(c, s, wall, mono, 0, capacity, 0, true).1 == Failed(ErrRefreshRequired)
  }

  /** The report of a commit against what it did: committed exactly when the packet joined the trace, ready exactly
      when the epoch is past its bootstrap, due (after a full write) exactly when a data packet begun at the same instant is told
      to refresh first; and the sequence numbers differ by what the packet counts for. */
  lemma CommitTells(c: Config, s: St, write: WriteClass, wall: nat, capacity: nat)
    requires Inv(c, s) && s.pending.Some? && s.pending.value.encoded
    ensures var t, p := CommitState(c, s, write), s.pending.value;
      var told := ResultOf(s, t, p, write);
      && told.write == write && told.instant == p.instant && told.length == p.length
      && (told.committed <==> t.trace == s.trace + [SentOf(p)])
      && (told.ready <==> !PhaseOf(c, t.trace).Boot?)
      && (told.ready && told.refreshDue ==> Required(c, t, wall, p.mono, capacity))
      && (told.ready && told.committed && Required(c, t, wall, p.mono, capacity) ==> told.refreshDue)
      && told.sequenceBefore == s.epoch.sequence
      && (told.committed ==>
            told.sequenceAfter == (told.sequenceBefore + Weight(c.version, SentOf(p).kind)) % UINT32_MODULUS)
  {
    hide Sequenced, TimeOrdered, TotalWeight, PhaseOf, Core, PendingOk, ReserveStream, MarkDue, CommitFull,
         Required, CommitState;
    CommitInv(c, s, write);
    var t := CommitState(c, s, write);
    ReadyIsPastBoot(c, t);
    CommitMarksDue(c, s, write);
    if t.epoch.ready {
      RequiredWhenDue(c, t, wall, s.pending.value.mono, capacity);
    }
    if write == WriteFull {
      FullCommits(c, s);
    } else {
      ShortDoesNotCommit(c, s, write);
    }
  }

  lemma ReadyIsPastBoot(c: Config, s: St)
    requires Core(c, s)
    ensures s.epoch.ready <==> !PhaseOf(c, s.trace).Boot?
  {
    hide Sequenced, TimeOrdered, PhaseOf;
  }

  /** After a commit that leaves the epoch published nothing more is due at the packet's own instant. */
  lemma CommitMarksDue(c: Config, s: St, write: WriteClass)
    requires Inv(c, s) && s.pending.Some? && s.pending.value.encoded
    ensures var t := CommitState(c, s, write);
      t.epoch.ready ==>
        && !t.epoch.exhausted && t.pending == None
        && (write == WriteFull ==> MarkDue(c, t, s.pending.value.mono) == t)
  {
  }

  lemma RequiredWhenDue(c: Config, s: St, wall: nat, mono: nat, capacity: nat)
    requires ValidConfig(c) && s.epoch.ready && s.pending == None && !s.epoch.exhausted
    ensures s.refreshDue || s.refreshActive ==> Required(c, s, wall, mono, capacity)
    ensures MarkDue(c, s, mono) == s && Required(c, s, wall, mono, capacity) ==> s.refreshDue || s.refreshActive
  {}

  lemma FullCommits(c: Config, s: St)
    requires Inv(c, s) && s.pending.Some?
    ensures var t, p := CommitState(c, s, WriteFull), s.pending.value;
      && t.trace == s.trace + [SentOf(p)]
      && t.epoch.sequence == (s.epoch.sequence + Weight(c.version, SentOf(p).kind)) % UINT32_MODULUS
  {
    hide Core;
  }

  lemma ShortDoesNotCommit(c: Config, s: St, write: WriteClass)
    requires s.pending.Some? && write != WriteFull
    ensures |CommitState(c, s, write).trace| <= |s.trace|
  {}

  // ---- the refresh worker ---------------------------------------------------------------

  /** refreshRemaining: how long the idle-refresh worker still sleeps. */
  function RefreshRemaining(s: St, mono: nat, interval: nat): nat
  {
    if s.refreshDue || s.refreshActive then 0
    else if s.lastRefreshMono == None || mono < s.lastRefreshMono.value then interval
    else if mono - s.lastRefreshMono.value >= interval then 0
    else interval - (mono - s.lastRefreshMono.value)
  }

  /** The worker's own arithmetic, which never looks at the packet counts, says "now" exactly when the
      state machine would find a refresh due: a count trigger is always already marked. */
  lemma WorkerWakesWhenDue(c: Config, s: St, mono: nat)
    requires Inv(c, s) && s.epoch.ready && c.version != V5
    ensures RefreshRemaining(s, mono, c.interval) == 0 <==> MarkDue(c, s, mono).refreshDue || MarkDue(c, s, mono).refreshActive
    ensures RefreshRemaining(s, mono, c.interval) <= c.interval
    ensures RefreshRemaining(s, mono, c.interval) > 0 && s.lastRefreshMono.Some? && mono >= s.lastRefreshMono.value ==>
      RefreshRemaining(s, mono + RefreshRemaining(s, mono, c.interval), c.interval) == 0
  {
    hide Sequenced, TimeOrdered, TotalWeight, PhaseOf;
  }
}
