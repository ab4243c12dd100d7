/** DNS maintenance on values: the single-owner token gate and the freshness of the published address.
    `ResolverState` and `Maintenance` (Resolver.dfy) perform these transitions in place. `resolved` is
    history: the answer set each token's own lookup returned. */
module ResolverModel {
  import opened Base

  const MAX_ANSWERS: nat := 8
  const MAX_RAW_ANSWERS: nat := 64

  datatype Addr = Addr(six: bool, bits: nat)

  /** netip.Addr.Compare: four-byte addresses before sixteen-byte ones, then by value. */
  predicate Less(a: Addr, b: Addr)
  {
    (!a.six && b.six) || (a.six == b.six && a.bits < b.bits)
  }

  ghost predicate Ascending(xs: seq<Addr>) { forall i, j :: 0 <= i < j < |xs| ==> Less(xs[i], xs[j]) }

  /** validAnswerSet: 1 to 8 distinct addresses in order; the first is the selected one. */
  ghost predicate ValidAnswers(xs: seq<Addr>) { 1 <= |xs| <= MAX_ANSWERS && Ascending(xs) }

  datatype LookupOutcome = LookupNotAttempted | LookupSucceeded | LookupFailed

  datatype ResolverError = ErrToken | ErrPending | ErrExhausted | ErrInFlight | ErrStarted | ErrApplied | ErrCommitted
                         | ErrClock | ErrNoCandidate | ErrLookup

  // ---- the gate -------------------------------------------------------------------------

  /** One run's marker, shared by every copy of its token. */
  datatype Token = Token(consumed: bool, started: bool, inFlight: bool, applied: bool, outcome: LookupOutcome, committed: bool)

  const FRESH_TOKEN := Token(false, false, false, false, LookupNotAttempted, false)

  /** Generation g is token g - 1. */
  datatype Gate = Gate(tokens: seq<Token>, active: Option<nat>, pending: bool)

  predicate Live(g: Gate, t: nat)
  {
    t < |g.tokens| && !g.tokens[t].consumed && g.active == Some(t)
  }

  function Begin(g: Gate): (Gate, Option<ResolverError>)
  {
    if g.active.Some? then (g.(pending := true), Some(ErrPending))
    else if |g.tokens| == MAX_UINT64 then (g, Some(ErrExhausted))
    else (g.(tokens := g.tokens + [FRESH_TOKEN], active := Some(|g.tokens|)), None)
  }

  function End(g: Gate, t: nat): (Gate, Option<ResolverError>, bool)
  {
    if !Live(g, t) then (g, Some(ErrToken), false)
    else if g.tokens[t].inFlight then (g, Some(ErrInFlight), false)
    else (Gate(g.tokens[t := g.tokens[t].(consumed := true)], None, false), None, g.pending)
  }

  /** claimLookup. */
  function Claim(g: Gate, t: nat): (Gate, Option<ResolverError>)
  {
    if !Live(g, t) then (g, Some(ErrToken))
    else if g.tokens[t].started then (g, Some(ErrStarted))
    else (g.(tokens := g.tokens[t := g.tokens[t].(started := true, inFlight := true)]), None)
  }

  /** finishLookup. */
  function Complete(g: Gate, t: nat, outcome: LookupOutcome): Gate
  {
    if t < |g.tokens| && g.active == Some(t) then g.(tokens := g.tokens[t := g.tokens[t].(inFlight := false, outcome := outcome)])
    else g
  }

  // ---- freshness ------------------------------------------------------------------------

  datatype Limits = Limits(refresh: nat, staleAfter: nat)

  /** NewResolverState's bounds. */
  predicate ValidLimits(l: Limits) { 1_000_000_000 <= l.refresh <= l.staleAfter <= 604_800_000_000_000 }

  datatype Fresh = Fresh(available: bool, stale: bool, expired: bool, staleSince: nat, lastSample: Option<nat>,
                         lastRefresh: Option<nat>, fault: bool)

  datatype Candidate = Candidate(answers: seq<Addr>, current: Option<Addr>, selected: Option<Addr>, selectedBy: Option<nat>,
                                 appliedBy: Option<nat>)

  const NO_CANDIDATE := Candidate([], None, None, None, None)
  const UNKNOWN := Fresh(false, false, false, 0, None, None, false)

  /** sampleLocked: a clock that is absent or runs backwards is a fault and makes the address unavailable. */
  function Sample(f: Fresh, now: nat): (Fresh, bool)
  {
    if now >= MAX_UINT64 || (f.lastSample.Some? && now < f.lastSample.value) then (f.(fault := true, available := false), false)
    else (f.(lastSample := Some(now), fault := false), true)
  }

  function Evaluate(l: Limits, f: Fresh, hasCurrent: bool, now: nat): Fresh
  {
    if !hasCurrent || f.fault then f.(available := false)
    else
      var expired := f.expired || (f.stale && now >= f.staleSince && now - f.staleSince >= l.staleAfter);
      f.(expired := expired, available := !expired)
  }

  function BeginStale(f: Fresh, hasCurrent: bool, now: nat): Fresh
  {
    if !hasCurrent || f.stale then f else f.(stale := true, staleSince := now, expired := false)
  }

  datatype World = World(gate: Gate, candidate: Candidate, health: Fresh, resolved: map<nat, seq<Addr>>)

  const START := World(Gate([], None, false), NO_CANDIDATE, UNKNOWN, map[])

  /** `answers` names the token whose lookup returned the set passed in; None is a lookup error. */
  function ApplyLookup(l: Limits, w: World, t: nat, answers: Option<nat>, now: nat): (World, Option<ResolverError>)
  {
    if !Live(w.gate, t) then (w, Some(ErrToken))
    else if w.gate.tokens[t].applied then (w, Some(ErrApplied))
    else if answers.Some? && (answers.value != t || t !in w.resolved) then (w, Some(ErrToken))
    else
      var (sampled, ok) := Sample(w.health, now);
      if !ok then (w.(health := sampled), Some(ErrClock))
      else
        var gate := w.gate.(tokens := w.gate.tokens[t := w.gate.tokens[t].(applied := true)]);
        var has := w.candidate.current.Some?;
        var refreshed := sampled.(lastRefresh := Some(now));
        if answers == None then
          (World(gate, w.candidate.(appliedBy := Some(t)), Evaluate(l, BeginStale(refreshed, has, now), has, now), w.resolved),
           Some(ErrLookup))
        else
          var set_ := w.resolved[t];
          var repeated := has && w.candidate.current.value in set_;
          var selected := if repeated then w.candidate.current else if set_ != [] then Some(set_[0]) else None;
          var candidate := Candidate(set_, w.candidate.current, selected, Some(t), Some(t));
          var judged := Evaluate(l, refreshed, has, now);
          var after := if repeated && !judged.expired then judged.(stale := false, staleSince := 0, available := true)
                       else if has then Evaluate(l, BeginStale(judged, has, now), has, now)
                       else judged.(available := false);
          (World(gate, candidate, after, w.resolved), None)
  }

  /** CommitPublishedCandidate. */
  function CommitPublished(l: Limits, w: World, t: nat, now: nat): (World, Option<ResolverError>)
  {
    if !Live(w.gate, t) then (w, Some(ErrToken))
    else if w.gate.tokens[t].committed then (w, Some(ErrCommitted))
    else
      var (sampled, ok) := Sample(w.health, now);
      if !ok then (w.(health := sampled), Some(ErrClock))
      else
        var judged := Evaluate(l, sampled, w.candidate.current.Some?, now);
        if w.candidate.selected == None || w.candidate.selectedBy != Some(t) then (w.(health := judged), Some(ErrNoCandidate))
        else
          (World(w.gate.(tokens := w.gate.tokens[t := w.gate.tokens[t].(committed := true)]),
                 w.candidate.(current := w.candidate.selected),
                 judged.(available := true, stale := false, expired := false, staleSince := 0), w.resolved), None)
  }

  function Snapshot(l: Limits, w: World, now: nat): World
  {
    var (sampled, ok) := Sample(w.health, now);
    w.(health := if ok then Evaluate(l, sampled, w.candidate.current.Some?, now) else sampled)
  }

  /** dueLocked. */
  predicate Due(l: Limits, f: Fresh)
  {
    || f.fault || f.lastRefresh == None || f.lastSample == None || f.lastSample.value < f.lastRefresh.value
    || f.lastSample.value - f.lastRefresh.value >= l.refresh
  }

  // ---- runs -----------------------------------------------------------------------------

  datatype Event =
    | BeginEvent
    | ClaimEvent(t: nat)
    | CompleteEvent(t: nat, result: Option<seq<Addr>>, literal: bool)
    | ApplyEvent(t: nat, answers: Option<nat>, now: nat)
    | CommitEvent(t: nat, now: nat)
    | SnapshotEvent(now: nat)
    | EndEvent(t: nat)

  /** A lookup in flight ends once, with a set that normalisation produced. */
  ghost predicate Completes(w: World, t: nat, result: Option<seq<Addr>>)
  {
    t < |w.gate.tokens| && w.gate.tokens[t].inFlight && (result.Some? ==> ValidAnswers(result.value))
  }

  ghost function Step(l: Limits, w: World, e: Event): World
  {
    match e
    case BeginEvent => w.(gate := Begin(w.gate).0)
    case ClaimEvent(t) => w.(gate := Claim(w.gate, t).0)
    case CompleteEvent(t, result, literal) =>
      if !Completes(w, t, result) then w
      else
        var outcome := if literal then LookupNotAttempted else if result.Some? then LookupSucceeded else LookupFailed;
        w.(gate := Complete(w.gate, t, outcome),
           resolved := if result.Some? then w.resolved[t := result.value] else w.resolved)
    case ApplyEvent(t, answers, now) => ApplyLookup(l, w, t, answers, now).0
    case CommitEvent(t, now) => CommitPublished(l, w, t, now).0
    case SnapshotEvent(now) => Snapshot(l, w, now)
    case EndEvent(t) => w.(gate := End(w.gate, t).0)
  }

  ghost function Run(l: Limits, w: World, events: seq<Event>): World
    decreases |events|
  {
    if events == [] then w else Run(l, Step(l, w, events[0]), events[1..])
  }

  // ---- invariants -----------------------------------------------------------------------

  /** At most one token is live, and it is the newest; every other one is consumed for good. */
  ghost predicate GateOk(g: Gate)
  {
    && (forall i :: 0 <= i < |g.tokens| && g.active != Some(i) ==> g.tokens[i].consumed && !g.tokens[i].inFlight)
    && (g.active.Some? ==> g.active.value + 1 == |g.tokens| && !g.tokens[g.active.value].consumed)
    && (g.pending ==> g.active.Some?)
  }

  /** Available means a published address that is stale for less than the limit. */
  ghost predicate FreshOk(l: Limits, f: Fresh, hasCurrent: bool)
  {
    && (f.expired ==> f.stale && !f.available)
    && (f.lastRefresh.Some? ==> f.lastSample.Some? && f.lastRefresh.value <= f.lastSample.value)
    && (f.stale ==> hasCurrent && f.lastSample.Some? && f.staleSince <= f.lastSample.value)
    && (f.available ==> hasCurrent && !f.fault && (f.stale ==> f.lastSample.value - f.staleSince < l.staleAfter))
  }

  /** Some lookup returned this address. */
  ghost predicate Returned(resolved: map<nat, seq<Addr>>, a: Addr)
  {
    exists t :: t in resolved && a in resolved[t]
  }

  /** The selected address came from the lookup of the token that selected it. */
  ghost predicate CandidateOk(w: World)
  {
    && (forall t :: t in w.resolved ==> t < |w.gate.tokens| && w.gate.tokens[t].started && ValidAnswers(w.resolved[t]))
    && (w.candidate.selectedBy.Some? ==>
          var t := w.candidate.selectedBy.value;
          && t in w.resolved && w.gate.tokens[t].applied && w.candidate.selected.Some?
          && w.candidate.selected.value in w.resolved[t] && w.candidate.answers == w.resolved[t])
    && (w.candidate.current.Some? ==> Returned(w.resolved, w.candidate.current.value))
    && (forall t :: 0 <= t < |w.gate.tokens| && w.gate.tokens[t].inFlight ==>
          w.gate.tokens[t].started && !w.gate.tokens[t].consumed && t !in w.resolved)
  }

  ghost predicate Inv(l: Limits, w: World)
  {
    ValidLimits(l) && GateOk(w.gate) && FreshOk(l, w.health, w.candidate.current.Some?) && CandidateOk(w)
  }

  lemma GateStep(l: Limits, w: World, e: Event)
    requires GateOk(w.gate)
    ensures GateOk(Step(l, w, e).gate)
  {}

  lemma ReturnedKept(resolved: map<nat, seq<Addr>>, t: nat, set_: seq<Addr>, a: Addr)
    requires Returned(resolved, a) && t !in resolved
    ensures Returned(resolved[t := set_], a)
  {
    var k :| k in resolved && a in resolved[k];
    assert k in resolved[t := set_] && resolved[t := set_][k] == resolved[k];
  }

  lemma CompleteKeepsCandidate(l: Limits, w: World, t: nat, result: Option<seq<Addr>>, literal: bool)
    requires GateOk(w.gate) && CandidateOk(w) && Completes(w, t, result)
    ensures CandidateOk(Step(l, w, CompleteEvent(t, result, literal)))
  {
    hide Returned, ValidAnswers;
    if result.Some? && w.candidate.current.Some? {
      ReturnedKept(w.resolved, t, result.value, w.candidate.current.value);
    }
  }

  lemma ApplyKeepsCandidate(l: Limits, w: World, t: nat, answers: Option<nat>, now: nat)
    requires GateOk(w.gate) && CandidateOk(w)
    ensures CandidateOk(ApplyLookup(l, w, t, answers, now).0)
  {
    hide Returned, Ascending, Evaluate, BeginStale;
  }

  lemma CommitKeepsCandidate(l: Limits, w: World, t: nat, now: nat)
    requires GateOk(w.gate) && CandidateOk(w)
    ensures CandidateOk(CommitPublished(l, w, t, now).0)
  {
    hide ValidAnswers, Evaluate;
    if w.candidate.selectedBy.Some? {
      assert w.candidate.selectedBy.value in w.resolved;
      assert Returned(w.resolved, w.candidate.selected.value);
    }
  }

  lemma CandidateStep(l: Limits, w: World, e: Event)
    requires GateOk(w.gate) && CandidateOk(w)
    ensures CandidateOk(Step(l, w, e))
  {
    hide Returned, ValidAnswers, ApplyLookup, CommitPublished;
    match e
    case CompleteEvent(t, result, literal) =>
      if Completes(w, t, result) {
        CompleteKeepsCandidate(l, w, t, result, literal);
      }
    case ApplyEvent(t, answers, now) => ApplyKeepsCandidate(l, w, t, answers, now);
    case CommitEvent(t, now) => CommitKeepsCandidate(l, w, t, now);
    case _ =>
  }

  lemma ApplyKeepsFresh(l: Limits, w: World, t: nat, answers: Option<nat>, now: nat)
    requires ValidLimits(l) && FreshOk(l, w.health, w.candidate.current.Some?)
    ensures var after := ApplyLookup(l, w, t, answers, now).0; FreshOk(l, after.health, after.candidate.current.Some?)
  {
    hide Live;
  }

  lemma CommitKeepsFresh(l: Limits, w: World, t: nat, now: nat)
    requires ValidLimits(l) && FreshOk(l, w.health, w.candidate.current.Some?)
    ensures var after := CommitPublished(l, w, t, now).0; FreshOk(l, after.health, after.candidate.current.Some?)
  {
    hide Live;
  }

  lemma FreshStep(l: Limits, w: World, e: Event)
    requires ValidLimits(l) && FreshOk(l, w.health, w.candidate.current.Some?)
    ensures FreshOk(l, Step(l, w, e).health, Step(l, w, e).candidate.current.Some?)
  {
    hide Live, Claim, Complete, Completes, Begin, End, ApplyLookup, CommitPublished;
    match e
    case ApplyEvent(t, answers, now) => ApplyKeepsFresh(l, w, t, answers, now);
    case CommitEvent(t, now) => CommitKeepsFresh(l, w, t, now);
    case _ =>
  }

  lemma StepKeepsInv(l: Limits, w: World, e: Event)
    requires Inv(l, w)
    ensures Inv(l, Step(l, w, e))
  {
    hide GateOk, FreshOk, CandidateOk, Step;
    GateStep(l, w, e);
    CandidateStep(l, w, e);
    FreshStep(l, w, e);
  }

  /** Every reachable world satisfies the invariant. */
  lemma {:induction false} RunKeepsInv(l: Limits, w: World, events: seq<Event>)
    requires Inv(l, w)
    ensures Inv(l, Run(l, w, events))
    decreases |events|
  {
    hide Inv, Step;
    if events != [] {
      StepKeepsInv(l, w, events[0]);
      RunKeepsInv(l, Step(l, w, events[0]), events[1..]);
    }
  }

  lemma StartInv(l: Limits)
    requires ValidLimits(l)
    ensures Inv(l, START)
  {}

  // ---- theorems -------------------------------------------------------------------------

  /** Over every run and any clock: an available address is published, was returned by some lookup, is
      seen through a working clock, and has been stale for less than the limit. */
  lemma AvailableMeansFresh(l: Limits, events: seq<Event>)
    requires ValidLimits(l)
    ensures var w := Run(l, START, events);
      w.health.available ==>
        && w.candidate.current.Some? && Returned(w.resolved, w.candidate.current.value) && !w.health.fault && !w.health.expired
        && (w.health.stale ==> w.health.lastSample.Some? && w.health.lastSample.value - w.health.staleSince < l.staleAfter)
  {
    hide Step, Returned;
    StartInv(l);
    RunKeepsInv(l, START, events);
  }

  /** A clock sample the state accepts: present, and not before an earlier one. */
  predicate Runs(f: Fresh, now: nat) { now < MAX_UINT64 && (f.lastSample.Some? ==> f.lastSample.value <= now) }

  /** What an observation tells. A clock that fails makes the address unavailable and a refresh due. Otherwise the
      address is available exactly when it is published, not expired and stale for less than the limit; and a
      refresh is due exactly when none was made or the last one is a whole interval old. */
  lemma SnapshotTells(l: Limits, w: World, now: nat)
    requires Inv(l, w)
    ensures var t := Snapshot(l, w, now);
      if !Runs(w.health, now) then !t.health.available && Due(l, t.health)
      else
        && (t.health.available <==> w.candidate.current.Some? && !w.health.expired
                                    && (w.health.stale ==> now < w.health.staleSince + l.staleAfter))
        && (Due(l, t.health) <==> w.health.lastRefresh == None || now >= w.health.lastRefresh.value + l.refresh)
  {
    hide GateOk, CandidateOk;
  }

  /** What a lookup result tells. It counts as a refresh; if it confirms the published address, which has not
      expired, that is fresh again; if it does not, the address is stale from the first such result on. The
      candidate is the published address when confirmed and else the least of the set. */
  lemma LookupTells(l: Limits, w: World, t: nat, answers: Option<nat>, now: nat)
    requires Inv(l, w) && ApplyLookup(l, w, t, answers, now).1 == if answers == None then Some(ErrLookup) else None
    ensures var (after, _) := ApplyLookup(l, w, t, answers, now);
      var f, current := w.health, w.candidate.current;
      var expired := f.expired || (f.stale && now >= f.staleSince + l.staleAfter);
      && after.health.lastRefresh == Some(now) && after.candidate.current == current
      && (answers.Some? ==> t in w.resolved && after.candidate.selected.Some?)
      && var confirmed := answers.Some? && current.Some? && current.value in w.resolved[t];
         (confirmed && !expired ==> after.health.available && !after.health.stale)
         && (current.Some? && (!confirmed || expired) ==>
               && after.health.stale && after.health.staleSince == (if f.stale then f.staleSince else now)
               && (after.health.available <==> !expired))
         && (answers.Some? ==>
               var chosen := after.candidate.selected.value;
               && chosen in w.resolved[t] && (confirmed ==> chosen == current.value)
               && (!confirmed ==> forall a :: a in w.resolved[t] ==> a == chosen || Less(chosen, a)))
  {
    hide GateOk;
  }

  /** The six calls of one maintenance run whose lookup returns `set_`. */
  function Maintenance(t: nat, set_: seq<Addr>, now: nat): seq<Event>
  {
    [BeginEvent, ClaimEvent(t), CompleteEvent(t, Some(set_), false), ApplyEvent(t, Some(t), now), CommitEvent(t, now),
     EndEvent(t)]
  }

  /** With no other run in progress and a working clock, a maintenance run publishes an address of its own lookup,
      the old one if it is still among them, and leaves it available, fresh and the gate free. */
  lemma HealthyMaintenancePublishes(l: Limits, w: World, set_: seq<Addr>, now: nat)
    requires Inv(l, w) && w.gate.active == None && |w.gate.tokens| < MAX_UINT64 && Runs(w.health, now) && ValidAnswers(set_)
    ensures var t := Run(l, w, Maintenance(|w.gate.tokens|, set_, now));
      var kept := w.candidate.current.Some? && w.candidate.current.value in set_;
      && t.candidate.current == (if kept then w.candidate.current else Some(set_[0]))
      && t.health.available && !t.health.stale && t.health.lastRefresh == Some(now)
      && t.gate.active == None && !t.gate.pending && |t.gate.tokens| == |w.gate.tokens| + 1
  {
    hide GateOk, FreshOk, CandidateOk, Ascending, Step, Runs;
    var k := |w.gate.tokens|;
    var events := Maintenance(k, set_, now);
    LookupDone(l, w, set_);
    var w1 := Step(l, w, events[0]);
    var w2 := Step(l, w1, events[1]);
    var w3 := LookedUp(w, set_);
    var w4 := Step(l, w3, events[3]);
    ApplyDone(l, w3, k, set_, now);
    var w5 := Step(l, w4, events[4]);
    CommitDone(l, w4, k, now);
    EndDone(l, w5, k);
    assert Run(l, w, events) == Run(l, w1, events[1..]);
    assert Run(l, w1, events[1..]) == Run(l, w2, events[2..]);
    assert Run(l, w2, events[2..]) == Run(l, w3, events[3..]);
    assert Run(l, w3, events[3..]) == Run(l, w4, events[4..]);
    assert Run(l, w4, events[4..]) == Run(l, w5, events[5..]);
    assert Run(l, w5, events[5..]) == Step(l, w5, events[5]);
  }

  const LOOKED_UP := Token(false, true, false, false, LookupSucceeded, false)

  /** The new token's lookup has returned the set. */
  function LookedUp(w: World, set_: seq<Addr>): World
  {
    w.(gate := Gate(w.gate.tokens + [LOOKED_UP], Some(|w.gate.tokens|), false), resolved := w.resolved[|w.gate.tokens| := set_])
  }

  lemma LookupDone(l: Limits, w: World, set_: seq<Addr>)
    requires GateOk(w.gate) && w.gate.active == None && |w.gate.tokens| < MAX_UINT64 && ValidAnswers(set_)
    ensures var t := |w.gate.tokens|;
      Step(l, Step(l, Step(l, w, BeginEvent), ClaimEvent(t)), CompleteEvent(t, Some(set_), false)) == LookedUp(w, set_)
  {
    hide ValidAnswers;
    var t, tokens := |w.gate.tokens|, w.gate.tokens;
    assert (tokens + [FRESH_TOKEN])[t := FRESH_TOKEN.(started := true, inFlight := true)]
        == tokens + [FRESH_TOKEN.(started := true, inFlight := true)];
    assert (tokens + [FRESH_TOKEN.(started := true, inFlight := true)])[t := LOOKED_UP] == tokens + [LOOKED_UP];
  }

  lemma ApplyDone(l: Limits, w: World, t: nat, set_: seq<Addr>, now: nat)
    requires Live(w.gate, t) && w.gate.tokens[t] == LOOKED_UP && !w.gate.pending && Runs(w.health, now)
    requires t in w.resolved && w.resolved[t] == set_ && set_ != []
    ensures var after := Step(l, w, ApplyEvent(t, Some(t), now));
      && Live(after.gate, t) && after.gate.tokens[t] == LOOKED_UP.(applied := true) && !after.gate.pending
      && |after.gate.tokens| == |w.gate.tokens| && Runs(after.health, now) && after.health.lastRefresh == Some(now)
      && after.candidate.selectedBy == Some(t)
      && after.candidate.selected
         == (if w.candidate.current.Some? && w.candidate.current.value in set_ then w.candidate.current else Some(set_[0]))
  {}

  lemma CommitDone(l: Limits, w: World, t: nat, now: nat)
    requires Live(w.gate, t) && w.gate.tokens[t] == LOOKED_UP.(applied := true) && !w.gate.pending && Runs(w.health, now)
    requires w.candidate.selected.Some? && w.candidate.selectedBy == Some(t)
    ensures var after := Step(l, w, CommitEvent(t, now));
      && Live(after.gate, t) && !after.gate.tokens[t].inFlight && !after.gate.pending && |after.gate.tokens| == |w.gate.tokens|
      && after.candidate.current == w.candidate.selected && after.health.available && !after.health.stale
      && after.health.lastRefresh == w.health.lastRefresh
  {}

  lemma EndDone(l: Limits, w: World, t: nat)
    requires Live(w.gate, t) && !w.gate.tokens[t].inFlight
    ensures var after := Step(l, w, EndEvent(t));
      && after.gate.active == None && !after.gate.pending && |after.gate.tokens| == |w.gate.tokens|
      && after.candidate == w.candidate && after.health == w.health
  {}

  /** A commit that succeeds. */
  predicate Publishes(l: Limits, w: World, e: Event)
  {
    e.CommitEvent? && CommitPublished(l, w, e.t, e.now).1 == None
  }

  /** A publication needs a live token that has not published yet, whose own lookup returned the
      published address and was applied under it. */
  lemma PublishNeedsOwnLookup(l: Limits, w: World, e: Event)
    requires Inv(l, w) && Publishes(l, w, e)
    ensures Live(w.gate, e.t) && !w.gate.tokens[e.t].committed && w.gate.tokens[e.t].applied
    ensures w.gate.tokens[e.t].started
    ensures e.t in w.resolved && Step(l, w, e).candidate.current.Some?
    ensures Step(l, w, e).candidate.current.value in w.resolved[e.t] && Step(l, w, e).gate.tokens[e.t].committed
  {
    hide Ascending, FreshOk;
  }

  lemma ExpiredStays(l: Limits, w: World, e: Event)
    requires Inv(l, w) && w.health.expired && !Publishes(l, w, e)
    ensures Step(l, w, e).health.expired && !Step(l, w, e).health.available
  {
    hide CandidateOk, GateOk, Live, Completes;
  }

  ghost predicate NeverPublishes(l: Limits, w: World, events: seq<Event>)
    decreases |events|
  {
    events != [] ==> !Publishes(l, w, events[0]) && NeverPublishes(l, Step(l, w, events[0]), events[1..])
  }

  /** An expired address is never revived: without a publication it stays expired and unavailable,
      whatever the clock, the lookups and their answers do. */
  lemma {:induction false} ExpiredIsNotRevived(l: Limits, w: World, events: seq<Event>)
    requires Inv(l, w) && w.health.expired && NeverPublishes(l, w, events)
    ensures Run(l, w, events).health.expired && !Run(l, w, events).health.available
    decreases |events|
  {
    hide Inv, Step, Publishes;
    if events == [] {
      ExpiredIsUnavailable(l, w);
    } else {
      ExpiredStays(l, w, events[0]);
      StepKeepsInv(l, w, events[0]);
      ExpiredIsNotRevived(l, Step(l, w, events[0]), events[1..]);
    }
  }

  lemma ExpiredIsUnavailable(l: Limits, w: World)
    requires Inv(l, w) && w.health.expired
    ensures !w.health.available
  {}

  /** A consumed token is never valid again, and no token is lost. */
  lemma {:induction false} ConsumedIsFinal(l: Limits, w: World, events: seq<Event>, t: nat)
    requires Inv(l, w) && t < |w.gate.tokens| && w.gate.tokens[t].consumed
    ensures t < |Run(l, w, events).gate.tokens| && Run(l, w, events).gate.tokens[t].consumed
    ensures !Live(Run(l, w, events).gate, t)
    decreases |events|
  {
    hide Inv;
    if events != [] {
      StepKeepsInv(l, w, events[0]);
      ConsumedStep(l, w, events[0], t);
      ConsumedIsFinal(l, Step(l, w, events[0]), events[1..], t);
    }
  }

  lemma ConsumedStep(l: Limits, w: World, e: Event, t: nat)
    requires t < |w.gate.tokens| && w.gate.tokens[t].consumed
    ensures t < |Step(l, w, e).gate.tokens| && Step(l, w, e).gate.tokens[t].consumed
  {
    hide Sample, Evaluate, BeginStale;
  }

  /** One live token at most, and it is the newest. */
  lemma OneLiveToken(l: Limits, w: World, t: nat, u: nat)
    requires Inv(l, w) && Live(w.gate, t) && Live(w.gate, u)
    ensures t == u && t + 1 == |w.gate.tokens|
    ensures forall i :: End(w.gate, i).1.Some? ==> End(w.gate, i).0 == w.gate && !End(w.gate, i).2
    ensures Begin(w.gate).1 == Some(ErrPending) && Begin(w.gate).0.pending
    ensures End(Begin(w.gate).0, t).1 == None ==> End(Begin(w.gate).0, t).2 && !End(Begin(w.gate).0, t).0.pending
  {
    hide CandidateOk, FreshOk;
  }

  lemma PendingStep(l: Limits, w: World, e: Event, t: nat)
    requires Inv(l, w) && Live(w.gate, t) && w.gate.pending
    ensures Live(Step(l, w, e).gate, t) ==> Step(l, w, e).gate.pending
    ensures !Live(Step(l, w, e).gate, t) ==>
      e == EndEvent(t) && End(w.gate, t).1 == None && End(w.gate, t).2 && Step(l, w, e).gate.tokens[t].consumed
  {
    hide CandidateOk, FreshOk, Sample, Evaluate, BeginStale;
  }

  /** The End that finishes token `t` within these events, with what it reports. */
  ghost predicate Reported(l: Limits, w: World, events: seq<Event>, t: nat)
    decreases |events|
  {
    events != [] &&
    if events[0] == EndEvent(t) && End(w.gate, t).1 == None then End(w.gate, t).2
    else Reported(l, Step(l, w, events[0]), events[1..], t)
  }

  /** No trigger is lost: a Begin refused while `t` is live is still owed after any events, or has been
      reported by the one End that finished `t`. */
  lemma {:induction false} TriggerIsNotLost(l: Limits, w: World, events: seq<Event>, t: nat)
    requires Inv(l, w) && Live(w.gate, t) && w.gate.pending
    ensures var g := Run(l, w, events).gate;
      if Live(g, t) then g.pending else Reported(l, w, events, t)
    decreases |events|
  {
    hide Inv, Live, End, Step;
    if events != [] {
      PendingStep(l, w, events[0], t);
      StepKeepsInv(l, w, events[0]);
      if Live(Step(l, w, events[0]).gate, t) {
        LiveIsNotEnded(l, w, events[0], t);
        TriggerIsNotLost(l, Step(l, w, events[0]), events[1..], t);
      } else {
        FinishedStays(l, w, events, t);
      }
    }
  }

  lemma LiveIsNotEnded(l: Limits, w: World, e: Event, t: nat)
    requires Live(w.gate, t) && Live(Step(l, w, e).gate, t)
    ensures !(e == EndEvent(t) && End(w.gate, t).1 == None)
  {}

  lemma FinishedStays(l: Limits, w: World, events: seq<Event>, t: nat)
    requires Inv(l, w) && Live(w.gate, t) && events != [] && w.gate.pending && !Live(Step(l, w, events[0]).gate, t)
    ensures !Live(Run(l, w, events).gate, t)
  {
    hide Inv;
    PendingStep(l, w, events[0], t);
    StepKeepsInv(l, w, events[0]);
    TokensKept(l, w, events[0]);
    ConsumedIsFinal(l, Step(l, w, events[0]), events[1..], t);
  }

  lemma TokensKept(l: Limits, w: World, e: Event)
    ensures |w.gate.tokens| <= |Step(l, w, e).gate.tokens|
  {
    hide Sample, Evaluate, BeginStale;
  }
}
