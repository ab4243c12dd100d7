/** DNS maintenance as the objects the exporter holds, each method proved to be the transition of
    ResolverModel, and the normalisation of raw DNS answers in a fixed array. */
module Resolvers {
  import opened Base
  import opened ResolverModel

  /** A token names its gate and its run; all copies name the same marker. */
  datatype MaintenanceToken = MaintenanceToken(gate: Maintenance?, index: nat)

  /** An answer set remembers whose lookup returned it. */
  datatype AnswerSet = AnswerSet(addresses: seq<Addr>, origin: MaintenanceToken)

  class Maintenance {
    var tokens: seq<Token>
    var active: Option<nat>
    var pending: bool
    ghost var resolved: map<nat, seq<Addr>>

    function Model(): Gate
      reads this
    {
      Gate(tokens, active, pending)
    }

    /** The token's run in this gate; a nil or foreign token names none. */
    function IndexOf(token: MaintenanceToken): nat
      reads this
    {
      if token.gate == this then token.index else |tokens|
    }

    predicate IsValid(token: MaintenanceToken)
      reads this
    {
      token.gate == this && Live(Model(), token.index)
    }

    constructor ()
      ensures Model() == Gate([], None, false) && resolved == map[]
    {
      tokens, active, pending, resolved := [], None, false, map[];
    }

    method Begin() returns (token: MaintenanceToken, err: Option<ResolverError>)
      modifies this
      ensures (Model(), err) == ResolverModel.Begin(old(Model())) && resolved == old(resolved)
      ensures token == if err == None then MaintenanceToken(this, |old(tokens)|) else MaintenanceToken(null, 0)
    {
      if active.Some? {
        pending := true;
        return MaintenanceToken(null, 0), Some(ErrPending);
      }
      if |tokens| == MAX_UINT64 {
        return MaintenanceToken(null, 0), Some(ErrExhausted);
      }
      active := Some(|tokens|);
      tokens := tokens + [FRESH_TOKEN];
      return MaintenanceToken(this, |tokens| - 1), None;
    }

    method End(token: MaintenanceToken) returns (coalesced: bool, err: Option<ResolverError>)
      modifies this
      ensures (Model(), err, coalesced) == ResolverModel.End(old(Model()), old(IndexOf(token)))
      ensures resolved == old(resolved)
    {
      if !IsValid(token) {
        return false, Some(ErrToken);
      }
      if tokens[token.index].inFlight {
        return false, Some(ErrInFlight);
      }
      coalesced := pending;
      pending := false;
      tokens := tokens[token.index := tokens[token.index].(consumed := true)];
      active := None;
      return coalesced, None;
    }

    method ClaimLookup(token: MaintenanceToken) returns (claimed: bool)
      modifies this`tokens
      ensures Model() == Claim(old(Model()), old(IndexOf(token))).0
      ensures claimed <==> Claim(old(Model()), old(IndexOf(token))).1 == None
    {
      if !IsValid(token) || tokens[token.index].started {
        return false;
      }
      tokens := tokens[token.index := tokens[token.index].(started := true, inFlight := true)];
      return true;
    }

    method FinishLookup(token: MaintenanceToken, outcome: LookupOutcome)
      modifies this`tokens
      ensures Model() == Complete(old(Model()), old(IndexOf(token)), outcome)
    {
      if token.gate == this && token.index < |tokens| && active == Some(token.index) {
        tokens := tokens[token.index := tokens[token.index].(inFlight := false, outcome := outcome)];
      }
    }

    /** The end of ResolveFor: the answer set carries its token's identity. */
    method CompleteLookup(token: MaintenanceToken, result: Option<seq<Addr>>,
                          literal: bool) returns (answers: Option<AnswerSet>)
      requires token.gate == this && Completes(World(Model(), NO_CANDIDATE, UNKNOWN, resolved), token.index, result)
      requires GateOk(Model())
      modifies this
      ensures var w := Step(Limits(0, 0), World(old(Model()), NO_CANDIDATE, UNKNOWN, old(resolved)),
                            CompleteEvent(token.index, result, literal));
        Model() == w.gate && resolved == w.resolved
      ensures answers == if result.Some? then Some(AnswerSet(result.value, token)) else None
    {
      var outcome := if literal then LookupNotAttempted else if result.Some? then LookupSucceeded else LookupFailed;
      FinishLookup(token, outcome);
      if result == None {
        return None;
      }
      resolved := resolved[token.index := result.value];
      return Some(AnswerSet(result.value, token));
    }
  }

  class ResolverState {
    const maintenance: Maintenance
    const limits: Limits
    var candidate: Candidate
    var health: Fresh

    ghost function Model(): World
      reads this, maintenance
    {
      World(maintenance.Model(), candidate, health, maintenance.resolved)
    }

    constructor (maintenance: Maintenance, limits: Limits)
      requires ValidLimits(limits)
      ensures this.maintenance == maintenance && this.limits == limits && candidate == NO_CANDIDATE && health == UNKNOWN
    {
      this.maintenance, this.limits, candidate, health := maintenance, limits, NO_CANDIDATE, UNKNOWN;
    }

    /** Only ResolveFor makes an answer set that names a token of this gate. */
    ghost predicate Genuine(answers: AnswerSet)
      reads this, maintenance
    {
      answers.origin.gate == maintenance ==>
        answers.origin.index in maintenance.resolved && answers.addresses == maintenance.resolved[answers.origin.index]
        && answers.addresses != []
    }

    method SampleClock(now: nat) returns (ok: bool)
      modifies this`health
      ensures (health, ok) == Sample(old(health), now)
    {
      if now >= MAX_UINT64 || (health.lastSample.Some? && now < health.lastSample.value) {
        health := health.(fault := true, available := false);
        return false;
      }
      health := health.(lastSample := Some(now), fault := false);
      return true;
    }

    method EvaluateAvailability(now: nat)
      modifies this`health
      ensures health == Evaluate(limits, old(health), candidate.current.Some?, now)
    {
      if candidate.current == None || health.fault {
        health := health.(available := false);
        return;
      }
      if health.stale && !health.expired && now >= health.staleSince && now - health.staleSince >= limits.staleAfter {
        health := health.(expired := true);
      }
      health := health.(available := !health.expired);
    }

    method MarkStale(now: nat)
      modifies this`health
      ensures health == BeginStale(old(health), candidate.current.Some?, now)
    {
      if candidate.current.Some? && !health.stale {
        health := health.(stale := true, staleSince := now, expired := false);
      }
    }

    /** `answers` is None when the lookup failed. */
    method ApplyLookup(token: MaintenanceToken, answers: Option<AnswerSet>,
                       now: nat) returns (err: Option<ResolverError>)
      requires answers.Some? ==> Genuine(answers.value)
      modifies this, maintenance`tokens
      ensures (Model(), err) == ResolverModel.ApplyLookup(limits, old(Model()), old(maintenance.IndexOf(token)),
        if answers == None then None else Some(old(maintenance.IndexOf(answers.value.origin))), now)
    {
      hide Sample, Evaluate, BeginStale;
      if !maintenance.IsValid(token) {
        return Some(ErrToken);
      }
      var state := maintenance.tokens[token.index];
      if state.applied {
        return Some(ErrApplied);
      }
      if answers.Some? && answers.value.origin != token {
        return Some(ErrToken);
      }
      var ok := SampleClock(now);
      if !ok {
        return Some(ErrClock);
      }
      RecordAnswers(token, answers);
      maintenance.tokens := maintenance.tokens[token.index := state.(applied := true)];
      health := health.(lastRefresh := Some(now));
      if answers == None {
        MarkStale(now);
        EvaluateAvailability(now);
        return Some(ErrLookup);
      }
      EvaluateAvailability(now);
      Judge(answers.value.addresses, now);
      return None;
    }

    /** The selected address stays the current one while the answer still contains it. */
    method RecordAnswers(token: MaintenanceToken, answers: Option<AnswerSet>)
      requires answers.Some? ==> answers.value.addresses != []
      modifies this`candidate
      ensures candidate == match answers
        case None => old(candidate).(appliedBy := Some(token.index))
        case Some(a) =>
          Candidate(a.addresses, old(candidate).current,
                    if old(candidate).current.Some? && old(candidate).current.value in a.addresses then old(candidate).current
                    else Some(a.addresses[0]),
                    Some(token.index), Some(token.index))
    {
      if answers.Some? {
        var selected := answers.value.addresses[0];
        if candidate.current.Some? && candidate.current.value in answers.value.addresses {
          selected := candidate.current.value;
        }
        candidate := Candidate(answers.value.addresses, candidate.current, Some(selected), Some(token.index), Some(token.index));
      } else {
        candidate := candidate.(appliedBy := Some(token.index));
      }
    }

    /** Freshness after a successful answer, once expiry has been latched. */
    method Judge(addresses: seq<Addr>, now: nat)
      modifies this`health
      ensures health ==
        if candidate.current.Some? && candidate.current.value in addresses && !old(health).expired
        then old(health).(stale := false, staleSince := 0, available := true)
        else if candidate.current.Some? then Evaluate(limits, BeginStale(old(health), true, now), true, now)
        else old(health).(available := false)
    {
      if candidate.current.Some? && candidate.current.value in addresses && !health.expired {
        health := health.(stale := false, staleSince := 0, available := true);
      } else if candidate.current.Some? {
        MarkStale(now);
        EvaluateAvailability(now);
      } else {
        health := health.(available := false);
      }
    }

    method CommitPublishedCandidate(token: MaintenanceToken, now: nat) returns (err: Option<ResolverError>)
      modifies this, maintenance`tokens
      ensures (Model(), err) == CommitPublished(limits, old(Model()), old(maintenance.IndexOf(token)), now)
    {
      hide Sample, Evaluate;
      if !maintenance.IsValid(token) {
        return Some(ErrToken);
      }
      var state := maintenance.tokens[token.index];
      if state.committed {
        return Some(ErrCommitted);
      }
      var ok := SampleClock(now);
      if !ok {
        return Some(ErrClock);
      }
      EvaluateAvailability(now);
      if candidate.selected == None || candidate.selectedBy != Some(token.index) {
        return Some(ErrNoCandidate);
      }
      candidate := candidate.(current := candidate.selected);
      health := health.(available := true, stale := false, expired := false, staleSince := 0);
      maintenance.tokens := maintenance.tokens[token.index := state.(committed := true)];
      return None;
    }

    /** Snapshot: an unusable clock sample leaves the address unavailable. */
    method Observe(now: nat) returns (available: bool, due: bool)
      modifies this`health
      ensures Model() == Snapshot(limits, old(Model()), now)
      ensures available == health.available && due == Due(limits, health)
    {
      var ok := SampleClock(now);
      if ok {
        EvaluateAvailability(now);
      } else {
        health := health.(available := false, fault := true);
      }
      return health.available, Due(limits, health);
    }
  }
}
