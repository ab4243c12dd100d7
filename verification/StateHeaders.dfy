/** Whose identity, rate and time every packet carries, from the reservation to the collector. */
module StateHeaders {
  import opened Base
  import opened Sizes
  import opened StateModel
  import opened StateLaws
  import opened StateRuns
  import opened StateTheorems
  import opened Headers

  /** A reserved template carries its configured identity, without a rate. */
  lemma TemplateCarries(c: Config, s: St, wall: nat, mono: nat, shape: int)
    requires BeginTemplate(c, s, wall, mono, shape).1.Done?
    ensures var (after, r) := BeginTemplate(c, s, wall, mono, shape);
      && after.pending == Some(r.value) && r.value.template && r.value.stream == None
      && Carries(c, after.epoch, r.value.header, 0, Clamp(s, wall))
      && after.epoch == s.epoch.(startOrigin := after.epoch.startOrigin)
      && (s.epoch.startOrigin.Some? || c.version != V9 || c.origin.Some? ==> after.epoch == s.epoch)
      && (c.version == V9 && c.origin == s.epoch.startOrigin == None ==>
            r.value.header.origin == after.epoch.startOrigin == Some(Clamp(s, wall)))
  {
    hide ValidHeader;
  }

  /** A reserved data packet carries it and the rate it was asked for. */
  lemma StreamCarries(c: Config, s: St, wall: nat, mono: nat, shape: int, capacity: nat, sampling: nat, begun: bool)
    requires BeginStream(c, s, wall, mono, shape, capacity, sampling, begun).1.Done?
    ensures var (after, r) := BeginStream(c, s, wall, mono, shape, capacity, sampling, begun);
      && after.pending == Some(r.value) && !r.value.template && r.value.stream.Some? && after.epoch == s.epoch
      && r.value.stream.value.samplingInterval == sampling
      && Carries(c, after.epoch, r.value.header, sampling, Clamp(s, wall))
  {
    hide ValidHeader, Rollback;
  }

  function RateOf(p: Pending): nat { if p.stream.Some? then p.stream.value.samplingInterval else 0 }

  /** The packet being built still carries what its reservation put into it. */
  ghost predicate Identified(c: Config, s: St)
  {
    s.pending.Some? ==>
      && Carries(c, s.epoch, s.pending.value.header, RateOf(s.pending.value), s.pending.value.instant)
      && ValidHeader(s.pending.value.header) && WriterAccepts(s.pending.value.header)
  }

  lemma BeginsIdentified(c: Config, s: St, e: Event)
    requires Inv(c, s) && Identified(c, s) && (e.TemplateEvent? || e.StreamEvent?)
    ensures Identified(c, Apply(c, s, e))
  {
    hide Inv, ValidHeader, WriterAccepts, Clamp, Carries;
    match e
    case TemplateEvent(wall, mono, shape) =>
      TemplateHeaderIsWritable(c, s, wall, mono, shape);
      if BeginTemplate(c, s, wall, mono, shape).1.Done? {
        TemplateCarries(c, s, wall, mono, shape);
        InstantReserved(c, s, e);
      } else {
        RefusedKeepsPending(c, s, e);
      }
    case StreamEvent(wall, mono, shape, capacity, sampling, begun) =>
      StreamHeaderIsWritable(c, s, wall, mono, shape, capacity, sampling, begun);
      if BeginStream(c, s, wall, mono, shape, capacity, sampling, begun).1.Done? {
        StreamCarries(c, s, wall, mono, shape, capacity, sampling, begun);
        InstantReserved(c, s, e);
      } else {
        RefusedKeepsPending(c, s, e);
      }
  }

  /** The instant of a new reservation is its send instant. */
  lemma InstantReserved(c: Config, s: St, e: Event)
    requires e.TemplateEvent? ==> BeginTemplate(c, s, e.wall, e.mono, e.shape).1.Done?
    requires e.StreamEvent? ==> BeginStream(c, s, e.wall, e.mono, e.shape, e.capacity, e.sampling, e.begun).1.Done?
    ensures e.TemplateEvent? ==> BeginTemplate(c, s, e.wall, e.mono, e.shape).1.value.instant == Clamp(s, e.wall)
    ensures e.StreamEvent? ==>
      BeginStream(c, s, e.wall, e.mono, e.shape, e.capacity, e.sampling, e.begun).1.value.instant == Clamp(s, e.wall)
  {
    hide ValidHeader, Rollback;
  }

  /** A refused reservation leaves no packet, or the one that was there. */
  lemma RefusedKeepsPending(c: Config, s: St, e: Event)
    requires e.TemplateEvent? ==> BeginTemplate(c, s, e.wall, e.mono, e.shape).1.Failed?
    requires e.StreamEvent? ==> BeginStream(c, s, e.wall, e.mono, e.shape, e.capacity, e.sampling, e.begun).1.Failed?
    requires e.TemplateEvent? || e.StreamEvent?
    ensures Apply(c, s, e).pending == None || Apply(c, s, e) == s
  {
    hide ValidHeader;
  }

  lemma ApplyIdentified(c: Config, s: St, e: Event)
    requires Inv(c, s) && Identified(c, s)
    ensures Identified(c, Apply(c, s, e))
  {
    hide Inv, ValidHeader, WriterAccepts, BeginTemplate, BeginStream, DataSetSize;
    if e.TemplateEvent? || e.StreamEvent? {
      BeginsIdentified(c, s, e);
    }
  }

  lemma {:induction false} RunIdentified(c: Config, s: St, events: seq<Event>)
    requires Inv(c, s) && Identified(c, s)
    ensures Identified(c, Run(c, s, events))
    decreases |events|
  {
    hide Inv, Identified, Apply;
    if events != [] {
      ApplyInv(c, s, events[0]);
      ApplyIdentified(c, s, events[0]);
      RunIdentified(c, Apply(c, s, events[0]), events[1..]);
    }
  }

  /** Identifiers as wide as the source declares them. */
  predicate TypedIDs(c: Config)
  {
    c.sourceID <= MAX_UINT32 && c.domainID <= MAX_UINT32 && c.engineType < 256 && c.engineID < 256
  }

  /** Over every run, a collector reads from the header of the packet being built the configured identity, the
      count of what was committed before it, the rate it was opened for and the instant reserved for it. */
  lemma CollectorReadsIdentity(c: Config, events: seq<Event>, second: nat, rest: seq<Byte>)
    requires ValidConfig(c) && TypedIDs(c) && second <= MAX_UINT16
    requires Run(c, Init(c), events).pending.Some?
    ensures var s := Run(c, Init(c), events);
      && var p := s.pending.value;
      && var read := DecodeHeader(c.version, EncodeHeader(p.header, second) + rest);
      && read.Some? && read.value.second == second
      && read.value.sequence == TotalWeight(c.version, s.trace) % UINT32_MODULUS
      && read.value.seconds == p.instant / NANOS_PER_SECOND
      && (c.version == V5 ==>
            && read.value.engine == 256 * c.engineType + c.engineID
            && read.value.sampling == 0x4000 * c.samplingMode + RateOf(p) && read.value.nanos == p.instant % NANOS_PER_SECOND)
      && (c.version == V9 ==> read.value.identity == c.sourceID)
      && (c.version == IPFIX ==> read.value.identity == c.domainID)
      && (c.version != IPFIX ==>
            && Origin(c, s).Some? && Origin(c, s).value + read.value.uptime * NANOS_PER_MS == p.instant)
      && (p.stream == None ==> RateOf(p) == 0)
  {
    hide ValidConfig, EncodeHeader, DecodeHeader, BE, TotalWeight;
    var s := Run(c, Init(c), events);
    InitInv(c);
    RunIdentified(c, Init(c), events);
    SequenceLaw(c, events);
    var h := s.pending.value.header;
    HeaderRoundTrip(h, second, rest);
    if c.version != IPFIX {
      UptimeIsExact(h);
    }
  }
}
