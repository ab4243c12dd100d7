/** The millisecond clock adapter, and the uptime-lifetime projection read against the reservation
    it predicts. */
module ClockLaws {
  import opened Base
  import opened Sizes
  import opened StateModel
  import opened StateLaws
  import opened StateRuns

  /** millisecondClock.Now on a raw wall sample. */
  function MillisecondClock(raw: nat, origin: nat, checkUptime: bool): nat
  {
    if raw > MAX_INT64 || raw / NANOS_PER_SECOND > MAX_UINT32 || raw < origin
      || (checkUptime && (raw - origin) / NANOS_PER_MS > MAX_UINT32)
    then raw
    else raw - (raw - origin) % NANOS_PER_MS
  }

  /** The adapter is built on the configured origin, or on the Unix epoch when there is none. */
  function ClockBase(c: Config): nat { if c.origin.Some? then c.origin.value else 0 }

  ghost predicate ClockSample(c: Config, wall: nat)
  {
    exists raw: uint64 :: wall == MillisecondClock(raw, ClockBase(c), c.origin.Some?)
  }

  predicate OnGrid(c: Config, at: Option<nat>)
  {
    at.Some? ==> at.value >= ClockBase(c) && (at.value - ClockBase(c)) % NANOS_PER_MS == 0
  }

  /** Every instant the state remembers lies on the millisecond grid. */
  ghost predicate Aligned(c: Config, s: St)
  {
    && OnGrid(c, s.lastReservedWall) && OnGrid(c, s.epoch.startOrigin)
    && (s.pending.Some? ==>
          OnGrid(c, s.pending.value.prior.reservedWall) && OnGrid(c, s.pending.value.prior.startOrigin))
  }

  ghost predicate SampledByClock(c: Config, e: Event)
  {
    match e
    case TemplateEvent(wall, _, _) => ClockSample(c, wall)
    case StreamEvent(wall, _, _, _, _, _) => ClockSample(c, wall)
    case _ => true
  }

  /** Samples the adapter passes through unchanged: the state machine refuses or clamps them. */
  predicate PassedThrough(c: Config, wall: nat)
  {
    || wall > MAX_INT64 || wall / NANOS_PER_SECOND > MAX_UINT32 || wall < ClockBase(c)
    || (c.origin.Some? && (wall - ClockBase(c)) / NANOS_PER_MS > MAX_UINT32)
  }

  lemma FloorIsOnGrid(x: nat)
    ensures x - x % NANOS_PER_MS >= 0 && (x - x % NANOS_PER_MS) % NANOS_PER_MS == 0
  {}

  lemma SampleIsOnGrid(c: Config, wall: nat)
    requires ClockSample(c, wall) && !PassedThrough(c, wall)
    ensures OnGrid(c, Some(wall))
  {
    var raw: uint64 :| wall == MillisecondClock(raw, ClockBase(c), c.origin.Some?);
    if wall != raw || !PassedThrough(c, raw) {
      FloorIsOnGrid(raw - ClockBase(c));
    }
  }

  lemma GridDifference(a: nat, b: nat)
    requires a % NANOS_PER_MS == 0 && b % NANOS_PER_MS == 0 && b <= a
    ensures (a - b) % NANOS_PER_MS == 0
  {}

  /** A clock sample is granted on the grid and is never refused for alignment. */
  lemma ClockNeverMisaligns(c: Config, s: St, wall: nat)
    requires ValidConfig(c) && c.version != IPFIX && Core(c, s)
    requires OnGrid(c, s.lastReservedWall) && OnGrid(c, s.epoch.startOrigin) && ClockSample(c, wall)
    ensures Judge(c, s, wall) != Misaligned
    ensures Judge(c, s, wall).Granted? ==> OnGrid(c, Some(Judge(c, s, wall).instant))
  {
    hide Core, ValidConfig, ClockSample;
    if !PassedThrough(c, wall) {
      SampleIsOnGrid(c, wall);
    }
    var instant := Clamp(s, wall);
    if OnGrid(c, Some(instant)) && c.origin == None && s.epoch.startOrigin.Some? && s.epoch.startOrigin.value <= instant {
      GridDifference(instant, s.epoch.startOrigin.value);
    }
  }

  lemma TemplateKeepsAligned(c: Config, s: St, wall: nat, mono: nat, shape: int)
    requires Inv(c, s) && c.version != IPFIX && Aligned(c, s) && ClockSample(c, wall)
    ensures Aligned(c, BeginTemplate(c, s, wall, mono, shape).0)
  {
    hide PendingOk, Core, Judge, OnGrid, ClockSample, ValidConfig;
    MarkDueInv(c, s, mono);
    ClockNeverMisaligns(c, MarkDue(c, s, mono), wall);
  }

  lemma StreamKeepsAligned(c: Config, s: St, wall: nat, mono: nat, shape: int, capacity: nat, sampling: nat,
                           begun: bool)
    requires Inv(c, s) && c.version != IPFIX && Aligned(c, s) && ClockSample(c, wall)
    ensures Aligned(c, BeginStream(c, s, wall, mono, shape, capacity, sampling, begun).0)
  {
    hide PendingOk, Core, Judge, OnGrid, ClockSample, ValidConfig;
    MarkDueInv(c, s, mono);
    ClockNeverMisaligns(c, MarkDue(c, s, mono), wall);
    NothingOnGrid(c);
  }

  lemma ApplyKeepsAligned(c: Config, s: St, e: Event)
    requires Inv(c, s) && c.version != IPFIX && Aligned(c, s) && SampledByClock(c, e)
    ensures Aligned(c, Apply(c, s, e))
  {
    hide PendingOk, Core, Judge, DataSetSize, OnGrid, ClockSample, PhaseOf, ValidConfig, BeginTemplate, BeginStream;
    match e
    case TemplateEvent(wall, mono, shape) => TemplateKeepsAligned(c, s, wall, mono, shape);
    case StreamEvent(wall, mono, shape, capacity, sampling, begun) =>
      StreamKeepsAligned(c, s, wall, mono, shape, capacity, sampling, begun);
    case _ => NothingOnGrid(c);
  }

  lemma NothingOnGrid(c: Config)
    ensures OnGrid(c, None)
  {}

  lemma {:induction false} RunKeepsAligned(c: Config, s: St, events: seq<Event>)
    requires Inv(c, s) && c.version != IPFIX && Aligned(c, s)
    requires forall e :: e in events ==> SampledByClock(c, e)
    ensures Aligned(c, Run(c, s, events))
    decreases |events|
  {
    hide Inv, Aligned, Apply, SampledByClock;
    if events != [] {
      assert events[0] in events;
      ApplyInv(c, s, events[0]);
      ApplyKeepsAligned(c, s, events[0]);
      RunKeepsAligned(c, Apply(c, s, events[0]), events[1..]);
    }
  }

  /** With the millisecond clock no reservation of any run fails for alignment. */
  lemma NoRunMisaligns(c: Config, events: seq<Event>, wall: nat)
    requires ValidConfig(c) && c.version != IPFIX && ClockSample(c, wall)
    requires forall e :: e in events ==> SampledByClock(c, e)
    ensures Judge(c, Run(c, Init(c), events), wall) != Misaligned
  {
    hide ValidConfig, ClockSample, SampledByClock, Core, Judge;
    InitInv(c);
    RunKeepsInv(c, Init(c), events);
    RunKeepsAligned(c, Init(c), events);
    ClockNeverMisaligns(c, Run(c, Init(c), events), wall);
  }

  // ---- the lifetime snapshot ------------------------------------------------------------

  const LIFETIME_LIMIT_MS: nat := UINT32_MODULUS

  datatype Lifetime = Lifetime(applicable: bool, remainingMs: Option<nat>, latched: bool)

  /** Runtime.Lifetime on the published state and one wall sample; milliseconds instead of seconds. */
  function LifetimeOf(c: Config, s: St, wall: nat): Lifetime
  {
    if c.version == IPFIX then Lifetime(false, None, false)
    else if s.epoch.exhausted then Lifetime(true, Some(0), true)
    else
      var origin := if c.origin.Some? then c.origin else s.epoch.startOrigin;
      if origin == None || wall > MAX_INT64 then Lifetime(true, None, false)
      else
        var at := if s.lastReservedWall.Some? && wall < s.lastReservedWall.value then s.lastReservedWall.value else wall;
        if at / NANOS_PER_SECOND > MAX_UINT32 || at < origin.value then Lifetime(true, None, false)
        else if (at - origin.value) / NANOS_PER_MS >= LIFETIME_LIMIT_MS then Lifetime(true, Some(0), false)
        else if (at - origin.value) % NANOS_PER_MS != 0 then Lifetime(true, None, false)
        else Lifetime(true, Some(LIFETIME_LIMIT_MS - (at - origin.value) / NANOS_PER_MS), false)
  }

  /** For a published v5 or v9 epoch whose exhaustion is latched the snapshot is a latched zero, and every
      Begin is refused as exhausted whatever the sample. Otherwise the snapshot is positive, zero or unknown
      exactly when reserving the same sample would succeed, exhaust the window or be unrepresentable; a positive remainder is
      the distance from the granted instant to the end of the window. IPFIX has no window to exhaust. */
  lemma LifetimePredictsReservation(c: Config, s: St, wall: nat)
    requires Inv(c, s) && s.epoch.ready
    ensures c.version == IPFIX ==>
      LifetimeOf(c, s, wall) == Lifetime(false, None, false) && Reserve(c, s, wall).1 != Failed(ErrUptimeExhausted)
    ensures c.version != IPFIX && s.epoch.exhausted ==>
      && LifetimeOf(c, s, wall) == Lifetime(true, Some(0), true)
      && (forall mono, shape: int, capacity, sampling, begun :: 0 <= shape < |c.shapes| ==>
            BeginStream(c, s, wall, mono, shape, capacity, sampling, begun) == (s, Failed(ErrUptimeExhausted)))
      && (forall mono, shape: int :: 0 <= shape < |c.shapes| ==>
            BeginTemplate(c, s, wall, mono, shape) == (s, Failed(ErrUptimeExhausted)))
    ensures c.version != IPFIX && !s.epoch.exhausted ==>
      var life, (after, result) := LifetimeOf(c, s, wall), Reserve(c, s, wall);
      && life.applicable && !life.latched
      && (life.remainingMs.Some? && life.remainingMs.value > 0 <==> result.Done?)
      && (life.remainingMs == Some(0) <==> result == Failed(ErrUptimeExhausted) && after.epoch.exhausted)
      && (life.remainingMs == None <==> result == Failed(ErrTimeNotRepresentable) && after == s)
      && (result.Done? ==>
            Origin(c, s).Some? && Origin(c, s).value + (LIFETIME_LIMIT_MS - life.remainingMs.value) * NANOS_PER_MS
                                  == result.value)
  {
    hide Sequenced, TimeOrdered, PhaseAgrees;
  }
}
