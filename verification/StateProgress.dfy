/** What can still happen: an unpublished epoch with a usable clock can always be brought to publication. */
module StateProgress {
  import opened Base
  import opened Sizes
  import opened StateModel
  import opened StateLaws
  import opened StateRuns

  /** The instant this sample stands for can go into a header: on the grid of the origin, which an epoch that has
      none takes from it. */
  predicate Suits(c: Config, s: St, wall: nat)
  {
    && wall <= MAX_INT64
    && Usable(c, if Origin(c, s).Some? then Origin(c, s) else Some(Clamp(s, wall)), Clamp(s, wall))
  }

  ghost predicate Bootable(c: Config, s: St)
  {
    Inv(c, s) && c.version != V5 && !s.epoch.ready && !s.epoch.exhausted && s.pending == None
  }

  /** The three calls that send the next template, each healthily answered. */
  function SendNext(c: Config, s: St, wall: nat, mono: nat): seq<Event>
    requires s.nextTemplateIndex < |c.shapes|
  {
    var length := HeaderBytes(c.version) + c.shapes[s.nextTemplateIndex].templateBytes;
    [TemplateEvent(wall, mono, s.nextTemplateIndex), EncodeEvent(Some(length)), CommitEvent(length, false)]
  }

  lemma BootIndex(c: Config, s: St)
    requires Bootable(c, s)
    ensures s.nextTemplateIndex < |c.shapes| && PhaseOf(c, s.trace).Boot?
    ensures HeaderBytes(c.version) + c.shapes[s.nextTemplateIndex].templateBytes <= c.maxDatagram
    ensures ValidShape(c.version, c.maxDatagram, c.shapes[s.nextTemplateIndex])
  {
    hide Sequenced, TimeOrdered, PhaseOf;
  }

  /** A template of an unpublished epoch is reserved on any suitable instant. */
  lemma BootTemplateBegins(c: Config, s: St, wall: nat, mono: nat)
    requires Bootable(c, s) && Suits(c, s, wall)
    ensures s.nextTemplateIndex < |c.shapes|
    ensures var (t, r) := BeginTemplate(c, s, wall, mono, s.nextTemplateIndex);
      && r.Done? && t.pending == Some(r.value) && !r.value.encoded && r.value.stream == None && r.value.template
      && r.value.length == HeaderBytes(c.version) + c.shapes[s.nextTemplateIndex].templateBytes
      && t.trace == s.trace && !t.epoch.ready && !t.epoch.exhausted && t.lastReservedWall == Some(Clamp(s, wall))
      && (c.version != IPFIX ==> Origin(c, t) == if Origin(c, s).Some? then Origin(c, s) else Some(Clamp(s, wall)))
  {
    hide Sequenced, TimeOrdered, PhaseOf, WallUsable, ValidShape;
    BootIndex(c, s);
  }

  /** Templates still to be sent before publication. */
  function Remaining(c: Config, phase: Phase): int
  {
    if phase.Boot? then (c.copies - phase.round) * |c.shapes| - phase.index else 0
  }

  lemma OneFewer(c: Config, phase: Phase)
    requires phase.Boot? && phase.round < c.copies && phase.index < |c.shapes|
    ensures Remaining(c, phase) > 0
    ensures var after := Advance(c, phase, Template(phase.index));
      after != Rejected && 0 <= Remaining(c, after) < Remaining(c, phase)
  {
    var rounds, n := c.copies - phase.round, |c.shapes|;
    assert rounds * n == (rounds - 1) * n + n && (rounds - 1) * n >= 0;
  }

  lemma Reserves(c: Config, s: St, wall: nat, mono: nat)
    requires Bootable(c, s) && Suits(c, s, wall)
    ensures s.nextTemplateIndex < |c.shapes|
    ensures var e := SendNext(c, s, wall, mono);
      var t := Apply(c, Apply(c, s, e[0]), e[1]);
      && t.pending.Some? && t.pending.value.encoded && t.pending.value.template
      && t.pending.value.shape == s.nextTemplateIndex && e[2] == CommitEvent(t.pending.value.length, false)
      && t.trace == s.trace && !t.epoch.ready && !t.epoch.exhausted && t.lastReservedWall == Some(Clamp(s, wall))
      && (c.version != IPFIX ==> Origin(c, t) == if Origin(c, s).Some? then Origin(c, s) else Some(Clamp(s, wall)))
  {
    hide Inv, BeginTemplate, ValidShape;
    BootIndex(c, s);
    BootTemplateBegins(c, s, wall, mono);
    BeginsWithIndex(c, s, wall, mono);
  }

  lemma BeginsWithIndex(c: Config, s: St, wall: nat, mono: nat)
    requires s.nextTemplateIndex < |c.shapes| && BeginTemplate(c, s, wall, mono, s.nextTemplateIndex).1.Done?
    ensures BeginTemplate(c, s, wall, mono, s.nextTemplateIndex).1.value.shape == s.nextTemplateIndex
  {}

  lemma CommitsBoot(c: Config, t: St, wall: nat)
    requires Inv(c, t) && t.pending.Some? && t.pending.value.encoded && t.pending.value.template && !t.epoch.ready
    requires Suits(c, t.(pending := None), wall) && t.lastReservedWall == Some(Clamp(t, wall)) && c.version != V5
    ensures var u := Apply(c, t, CommitEvent(t.pending.value.length, false));
      && u.trace == t.trace + [SentOf(t.pending.value)] && (!u.epoch.ready ==> Bootable(c, u) && Suits(c, u, wall))
  {
    hide Core;
    ApplyInv(c, t, CommitEvent(t.pending.value.length, false));
  }

  lemma PhaseGrows(c: Config, trace: seq<Sent>, sent: Sent)
    ensures PhaseOf(c, trace + [sent]) == Advance(c, PhaseOf(c, trace), sent.kind)
  {
    assert (trace + [sent])[..|trace|] == trace;
  }

  lemma BootPhase(c: Config, s: St)
    requires Inv(c, s) && !s.epoch.ready && c.version != V5
    ensures PhaseOf(c, s.trace).Boot? && PhaseOf(c, s.trace).round < c.copies
    ensures PhaseOf(c, s.trace).index == s.nextTemplateIndex < |c.shapes|
  {
    hide Sequenced, TimeOrdered, PhaseOf;
  }

  /** One healthy template: one fewer to send, or the epoch is published. */
  lemma SendsOne(c: Config, s: St, wall: nat, mono: nat)
    requires Bootable(c, s) && Suits(c, s, wall)
    ensures s.nextTemplateIndex < |c.shapes|
    ensures var u := Run(c, s, SendNext(c, s, wall, mono));
      && (u.epoch.ready || (Bootable(c, u) && Suits(c, u, wall)))
      && 0 <= Remaining(c, PhaseOf(c, u.trace)) < Remaining(c, PhaseOf(c, s.trace))
  {
    hide Apply, Inv, Suits, PhaseOf, Advance, Remaining;
    BootPhase(c, s);
    Reserves(c, s, wall, mono);
    var e := SendNext(c, s, wall, mono);
    var a := Apply(c, s, e[0]);
    var t := Apply(c, a, e[1]);
    ApplyInv(c, s, e[0]);
    ApplyInv(c, a, e[1]);
    StillSuits(c, s, t, wall);
    CommitsBoot(c, t, wall);
    PhaseGrows(c, s.trace, SentOf(t.pending.value));
    OneFewer(c, PhaseOf(c, s.trace));
    assert Run(c, s, e) == Run(c, a, e[1..]);
    assert Run(c, a, e[1..]) == Run(c, t, e[2..]);
    assert Run(c, t, e[2..]) == Run(c, Apply(c, t, e[2]), e[3..]);
  }

  lemma StillSuits(c: Config, s: St, t: St, wall: nat)
    requires Suits(c, s, wall) && t.lastReservedWall == Some(Clamp(s, wall))
    requires c.version != IPFIX ==> Origin(c, t) == if Origin(c, s).Some? then Origin(c, s) else Some(Clamp(s, wall))
    ensures Suits(c, t.(pending := None), wall) && t.lastReservedWall == Some(Clamp(t, wall))
  {}

  lemma {:induction false} RunConcat(c: Config, s: St, a: seq<Event>, b: seq<Event>)
    ensures Run(c, s, a + b) == Run(c, Run(c, s, a), b)
    decreases |a|
  {
    hide Apply;
    if a == [] {
      assert a + b == b;
    } else {
      RunConcat(c, Apply(c, s, a[0]), a[1..], b);
      assert (a + b)[0] == a[0] && (a + b)[1..] == a[1..] + b;
    }
  }

  /** With one suitable sample and healthy answers every unpublished epoch is brought to publication. */
  lemma {:induction false} CanPublish(c: Config, s: St, wall: nat, mono: nat)
    requires Bootable(c, s) && Suits(c, s, wall)
    ensures exists events :: Run(c, s, events).epoch.ready
    decreases Remaining(c, PhaseOf(c, s.trace))
  {
    hide Inv, Suits, Apply, PhaseOf, Remaining;
    SendsOne(c, s, wall, mono);
    var first := SendNext(c, s, wall, mono);
    var u := Run(c, s, first);
    if !u.epoch.ready {
      CanPublish(c, u, wall, mono);
      var rest :| Run(c, u, rest).epoch.ready;
      RunConcat(c, s, first, rest);
    }
  }

  /** In particular a new v9 or IPFIX epoch, whatever instant the clock shows at first. */
  lemma NewEpochCanPublish(c: Config, wall: nat, mono: nat)
    requires ValidConfig(c) && c.version != V5 && wall / NANOS_PER_SECOND <= MAX_UINT32 && wall <= MAX_INT64
    requires c.origin.Some? ==> Usable(c, c.origin, wall)
    ensures exists events :: Run(c, Init(c), events).epoch.ready
  {
    InitInv(c);
    CanPublish(c, Init(c), wall, mono);
  }
}
