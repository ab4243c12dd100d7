/** Theorems about every run of the state machine, from creation and through any calls. */
module StateRuns {
  import opened Base
  import opened Sizes
  import opened StateModel
  import opened StateLaws

  datatype Event =
    | TemplateEvent(wall: nat, mono: nat, shape: int)
    | StreamEvent(wall: nat, mono: nat, shape: int, capacity: nat, sampling: nat, begun: bool)
    | AppendEvent(size: Outcome<nat>, sampling: nat, appender: Option<Error>)
    | FinishEvent(finished: Option<int>)
    | EncodeEvent(written: Option<int>)
    | AbortEvent
    | CommitEvent(n: int, failed: bool)
    | DueEvent(mono: nat)
    | RestartEvent
    | AbortBootstrapEvent

  predicate Streaming(c: Config, s: St)
  {
    s.pending.Some? && s.pending.value.stream.Some? && s.pending.value.shape < |c.shapes|
  }

  /** One call; a call on a packet that is not pending is refused and changes nothing. */
  function Apply(c: Config, s: St, e: Event): St
  {
    match e
    case TemplateEvent(wall, mono, shape) => BeginTemplate(c, s, wall, mono, shape).0
    case StreamEvent(wall, mono, shape, capacity, sampling, begun) =>
      BeginStream(c, s, wall, mono, shape, capacity, sampling, begun).0
    case AppendEvent(size, sampling, appender) => if Streaming(c, s) then Append(c, s, size, sampling, appender).0 else s
    case FinishEvent(finished) => if Streaming(c, s) then Finish(c, s, finished).0 else s
    case EncodeEvent(written) => if s.pending.Some? then Encode(s, written).0 else s
    case AbortEvent => if s.pending.Some? then Abort(s) else s
    case CommitEvent(n, failed) =>
      if s.pending.Some? && s.pending.value.encoded
      then CommitState(c, s, ClassifyWrite(n, s.pending.value.length, failed)) else s
    case DueEvent(mono) => MarkDue(c, s, mono)
    case RestartEvent => Restart(c, s)
    case AbortBootstrapEvent => AbortBootstrap(c, s).0
  }

  lemma ApplyInv(c: Config, s: St, e: Event)
    requires Inv(c, s)
    ensures Inv(c, Apply(c, s, e))
  {
    hide Core, CommitState, BeginTemplate, BeginStream, Append, Finish, Encode, Abort, Restart, AbortBootstrap;
    match e
    case TemplateEvent(wall, mono, shape) => BeginTemplateInv(c, s, wall, mono, shape);
    case StreamEvent(wall, mono, shape, capacity, sampling, begun) =>
      BeginStreamInv(c, s, wall, mono, shape, capacity, sampling, begun);
    case AppendEvent(size, sampling, appender) => if Streaming(c, s) { AppendInv(c, s, size, sampling, appender); }
    case FinishEvent(finished) => if Streaming(c, s) { FinishInv(c, s, finished); }
    case EncodeEvent(written) => if s.pending.Some? { EncodeInv(c, s, written); }
    case AbortEvent => if s.pending.Some? { AbortInv(c, s); }
    case CommitEvent(n, failed) =>
      if s.pending.Some? && s.pending.value.encoded {
        CommitInv(c, s, ClassifyWrite(n, s.pending.value.length, failed));
      }
    case DueEvent(mono) => MarkDueInv(c, s, mono);
    case RestartEvent => RestartInv(c, s);
    case AbortBootstrapEvent => RestartInv(c, s);
  }

  function Run(c: Config, s: St, events: seq<Event>): St
    decreases |events|
  {
    if events == [] then s else Run(c, Apply(c, s, events[0]), events[1..])
  }

  /** Every reachable state satisfies the invariant. */
  lemma {:induction false} RunKeepsInv(c: Config, s: St, events: seq<Event>)
    requires Inv(c, s)
    ensures Inv(c, Run(c, s, events))
    decreases |events|
  {
    hide Inv, Apply;
    if events != [] {
      ApplyInv(c, s, events[0]);
      RunKeepsInv(c, Apply(c, s, events[0]), events[1..]);
    }
  }

  // ---- the grammar, laid out ------------------------------------------------------------

  datatype Mark = T(shape: nat) | D

  function MarkOf(kind: Kind): Mark { if kind.Data? then D else T(kind.shape) }

  function Marks(trace: seq<Sent>): seq<Mark>
  {
    if trace == [] then [] else Marks(trace[..|trace| - 1]) + [MarkOf(trace[|trace| - 1].kind)]
  }

  /** The first `k` templates of one round, in catalog order. */
  function Round(k: nat): seq<Mark> { seq(k, i requires 0 <= i => T(i)) }

  function Rounds(n: nat, times: nat): seq<Mark>
  {
    if times == 0 then [] else Rounds(n, times - 1) + Round(n)
  }

  function DataBlock(k: nat): seq<Mark> { seq(k, _ => D) }

  /** Data blocks with one whole template round between any two of them. */
  function Body(n: nat, blocks: seq<nat>): seq<Mark>
  {
    if blocks == [] then []
    else if |blocks| == 1 then DataBlock(blocks[0])
    else Body(n, blocks[..|blocks| - 1]) + Round(n) + DataBlock(blocks[|blocks| - 1])
  }

  /** How one committed packet changes the list of data-block sizes. */
  function BlocksStep(c: Config, phase: Phase, blocks: seq<nat>, kind: Kind): seq<nat>
  {
    if kind.Data? && blocks != [] then blocks[|blocks| - 1 := blocks[|blocks| - 1] + 1]
    else if Advance(c, phase, kind).Block? then blocks + [0]
    else blocks
  }

  /** The data-block sizes of an epoch; empty while it is bootstrapping. */
  function BlocksOf(c: Config, trace: seq<Sent>): seq<nat>
  {
    if trace == [] then (if c.version == V5 then [0] else [])
    else
      var last := |trace| - 1;
      BlocksStep(c, PhaseOf(c, trace[..last]), BlocksOf(c, trace[..last]), trace[last].kind)
  }

  function LayoutFor(c: Config, phase: Phase, blocks: seq<nat>): seq<Mark>
  {
    var n := |c.shapes|;
    match phase
    case Boot(round, index) => Rounds(n, round) + Round(index)
    case Block(_) => Rounds(n, c.copies) + Body(n, blocks)
    case Refresh(index) => Rounds(n, c.copies) + Body(n, blocks) + Round(index)
    case Rejected => []
  }

  ghost predicate BlocksFit(c: Config, phase: Phase, blocks: seq<nat>)
  {
    && (phase.Boot? <==> blocks == [])
    && (phase.Block? ==> blocks[|blocks| - 1] == phase.data)
    && (CountLimit(c) != 0 ==> forall b :: 0 <= b < |blocks| ==> blocks[b] <= CountLimit(c))
  }

  lemma BodyGrows(n: nat, blocks: seq<nat>)
    requires blocks != []
    ensures Body(n, blocks[|blocks| - 1 := blocks[|blocks| - 1] + 1]) == Body(n, blocks) + [D]
    ensures Body(n, blocks + [0]) == Body(n, blocks) + Round(n)
  {
    var last := |blocks| - 1;
    var grown := blocks[last := blocks[last] + 1];
    assert grown[..last] == blocks[..last];
    assert DataBlock(blocks[last] + 1) == DataBlock(blocks[last]) + [D];
    assert (blocks + [0])[..|blocks|] == blocks;
    assert DataBlock(0) == [];
  }

  lemma {:induction false} PhaseIndexInRange(c: Config, trace: seq<Sent>)
    requires ValidConfig(c)
    ensures PhaseOf(c, trace).Boot? ==> PhaseOf(c, trace).index < |c.shapes| && PhaseOf(c, trace).round < c.copies
    ensures PhaseOf(c, trace).Refresh? ==> 0 < PhaseOf(c, trace).index < |c.shapes| && c.version != V5
  {
    if trace != [] {
      PhaseIndexInRange(c, trace[..|trace| - 1]);
    }
  }

  lemma BootStep(c: Config, phase: Phase, kind: Kind)
    requires ValidConfig(c) && phase.Boot? && phase.round < c.copies && phase.index < |c.shapes|
    requires Advance(c, phase, kind) != Rejected
    ensures LayoutFor(c, Advance(c, phase, kind), BlocksStep(c, phase, [], kind)) == LayoutFor(c, phase, []) + [MarkOf(kind)]
    ensures BlocksFit(c, Advance(c, phase, kind), BlocksStep(c, phase, [], kind))
  {
    hide ValidShape;
    var n := |c.shapes|;
    var before := LayoutFor(c, phase, []) + [T(phase.index)];
    assert Round(phase.index + 1) == Round(phase.index) + [T(phase.index)];
    assert before == Rounds(n, phase.round) + Round(phase.index + 1);
    assert Round(0) == [];
    var after := Advance(c, phase, kind);
    if phase.index + 1 < n {
      assert LayoutFor(c, after, []) == before;
    } else if phase.round + 1 < c.copies {
      assert LayoutFor(c, after, []) == Rounds(n, phase.round + 1) + [] == before;
    } else {
      assert DataBlock(0) == [];
      assert BlocksStep(c, phase, [], kind) == [0];
      assert LayoutFor(c, after, [0]) == Rounds(n, phase.round + 1) + [] == before;
    }
  }

  lemma BlockStep(c: Config, phase: Phase, blocks: seq<nat>, kind: Kind)
    requires ValidConfig(c) && phase.Block? && Advance(c, phase, kind) != Rejected && BlocksFit(c, phase, blocks)
    ensures LayoutFor(c, Advance(c, phase, kind), BlocksStep(c, phase, blocks, kind))
         == LayoutFor(c, phase, blocks) + [MarkOf(kind)]
    ensures BlocksFit(c, Advance(c, phase, kind), BlocksStep(c, phase, blocks, kind))
  {
    hide ValidShape, Body, Rounds;
    var n := |c.shapes|;
    BodyGrows(n, blocks);
    if kind.Template? {
      assert Round(1) == [T(0)];
    }
  }

  lemma RefreshStep(c: Config, phase: Phase, blocks: seq<nat>, kind: Kind)
    requires ValidConfig(c) && phase.Refresh? && 0 < phase.index < |c.shapes|
    requires Advance(c, phase, kind) != Rejected && BlocksFit(c, phase, blocks)
    ensures LayoutFor(c, Advance(c, phase, kind), BlocksStep(c, phase, blocks, kind))
         == LayoutFor(c, phase, blocks) + [MarkOf(kind)]
    ensures BlocksFit(c, Advance(c, phase, kind), BlocksStep(c, phase, blocks, kind))
  {
    hide ValidShape, Body, Rounds;
    var n := |c.shapes|;
    BodyGrows(n, blocks);
    assert Round(phase.index + 1) == Round(phase.index) + [T(phase.index)];
  }

  /** Template-before-data: the committed packets of an epoch are `copies` whole template rounds in
      catalog order, then data blocks separated by whole rounds, each block within the count limit. */
  lemma {:induction false} GrammarIsLayout(c: Config, trace: seq<Sent>)
    requires ValidConfig(c) && c.version != V5 && PhaseOf(c, trace) != Rejected
    ensures BlocksFit(c, PhaseOf(c, trace), BlocksOf(c, trace))
    ensures Marks(trace) == LayoutFor(c, PhaseOf(c, trace), BlocksOf(c, trace))
  {
    hide ValidConfig, BlocksFit, LayoutFor, Advance, BlocksStep;
    if trace == [] {
      EmptyLayout(c);
    } else {
      var last := |trace| - 1;
      var init, kind := trace[..last], trace[last].kind;
      RejectedStays(c, PhaseOf(c, init), kind);
      GrammarIsLayout(c, init);
      PhaseIndexInRange(c, init);
      match PhaseOf(c, init)
      case Boot(_, _) => BootHasNoBlocks(c, PhaseOf(c, init), BlocksOf(c, init)); BootStep(c, PhaseOf(c, init), kind);
      case Block(_) => BlockStep(c, PhaseOf(c, init), BlocksOf(c, init), kind);
      case Refresh(_) => RefreshStep(c, PhaseOf(c, init), BlocksOf(c, init), kind);
      case Rejected =>
    }
  }

  lemma EmptyLayout(c: Config)
    requires ValidConfig(c) && c.version != V5
    ensures LayoutFor(c, PhaseOf(c, []), BlocksOf(c, [])) == []
    ensures BlocksFit(c, PhaseOf(c, []), BlocksOf(c, []))
  {
    assert Round(0) == [];
  }

  lemma BootHasNoBlocks(c: Config, phase: Phase, blocks: seq<nat>)
    requires BlocksFit(c, phase, blocks) && phase.Boot?
    ensures blocks == []
  {}

  lemma RejectedStays(c: Config, phase: Phase, kind: Kind)
    requires Advance(c, phase, kind) != Rejected
    ensures phase != Rejected
  {}
}
