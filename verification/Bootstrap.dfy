/** Bootstrap of an unpublished candidate: template rounds on its private socket until the state is
    ready, or failure. */
module Bootstraps {
  import opened Base
  import opened Sizes
  import opened StateModel
  import opened StateLaws
  import opened StateRuns
  import opened States
  import opened Outsides
  import opened Journals

  /** Templates still to be committed. */
  function Left(c: Config, s: St): int
  {
    if s.epoch.ready then 0 else (c.copies - s.templateRound) * |c.shapes| - s.nextTemplateIndex
  }

  /** A bootstrap in progress, between two templates. */
  ghost predicate Bootstrapping(c: Config, s: St)
  {
    c.version != V5 && !s.epoch.ready && s.pending == None
  }

  lemma BootPosition(c: Config, s: St)
    requires Inv(c, s) && Bootstrapping(c, s)
    ensures PhaseOf(c, s.trace) == Boot(s.templateRound, s.nextTemplateIndex)
    ensures s.templateRound < c.copies && s.nextTemplateIndex < |c.shapes| && Left(c, s) > 0
  {
    hide Sequenced, TimeOrdered, TotalWeight;
    assert (c.copies - s.templateRound) * |c.shapes| >= |c.shapes|;
  }

  /** A template of the bootstrap, reserved after the state stood at `before`. */
  ghost predicate BootPacket(c: Config, s: St, before: St)
  {
    && !s.epoch.ready && s.pending.Some? && s.pending.value.template && s.pending.value.stream == None
    && s.pending.value.shape == before.nextTemplateIndex
    && s.trace == before.trace && s.nextTemplateIndex == before.nextTemplateIndex && s.templateRound == before.templateRound
  }

  lemma BootBegins(c: Config, s: St, wall: nat, mono: nat)
    requires Inv(c, s) && Bootstrapping(c, s)
    ensures var (t, r) := BeginTemplate(c, s, wall, mono, s.nextTemplateIndex);
      if r.Done? then BootPacket(c, t, s) && !r.value.encoded && r.value.stream == None else Bootstrapping(c, t)
  {
    hide Sequenced, TimeOrdered, Judge;
  }

  lemma BootEncodes(c: Config, s: St, before: St, written: Option<int>)
    requires BootPacket(c, s, before) && !s.pending.value.encoded
    ensures var (t, r) := Encode(s, written);
      if r.Done? then t == s.(pending := Some(s.pending.value.(encoded := true))) && BootPacket(c, t, before)
      else !t.epoch.ready && t.pending == None
  {}

  /** Only a full write moves the bootstrap forward, by exactly one template; anything else starts it over. */
  lemma BootCommits(c: Config, s: St, before: St, write: WriteClass)
    requires Inv(c, s) && BootPacket(c, s, before) && Inv(c, before) && Bootstrapping(c, before)
    ensures var t := CommitState(c, s, write);
      && t.pending == None
      && (write != WriteFull ==> !t.epoch.ready && t.trace == [])
      && (write == WriteFull ==> Left(c, t) == Left(c, before) - 1 && BootTraced(c, before, t))
  {
    hide Inv, CommitFull, Left, BootTraced;
    BootPosition(c, before);
    StillConfigured(c, s);
    if write == WriteFull {
      BootFull(c, s, before);
    }
  }

  /** One more template in the trace; the last one opens the first data block. */
  ghost predicate BootTraced(c: Config, before: St, t: St)
  {
    && |t.trace| == |before.trace| + 1 && t.trace[..|before.trace|] == before.trace
    && t.trace[|before.trace|].kind == Template(before.nextTemplateIndex)
    && (t.epoch.ready ==> Advance(c, PhaseOf(c, before.trace), Template(before.nextTemplateIndex)) == Block(0))
  }

  lemma BootFull(c: Config, s: St, before: St)
    requires ValidConfig(c) && BootPacket(c, s, before) && Bootstrapping(c, before)
    requires PhaseOf(c, before.trace) == Boot(before.templateRound, before.nextTemplateIndex)
    requires before.templateRound < c.copies && before.nextTemplateIndex < |c.shapes|
    ensures var t := CommitFull(c, s, s.pending.value);
      t.pending == None && Left(c, t) == Left(c, before) - 1 && BootTraced(c, before, t)
  {
    hide PhaseOf, MarkDue;
    var s1 := CommitSequence(c, s, s.pending.value);
    MarkDueKeepsRound(c, CommitTemplate(c, s1, s.pending.value.mono), s.pending.value.mono);
    OneRoundLess(c.copies - before.templateRound, |c.shapes|);
  }

  lemma OneRoundLess(rounds: int, n: nat)
    ensures rounds * n - n == (rounds - 1) * n
  {}

  lemma StillConfigured(c: Config, s: St)
    requires Inv(c, s)
    ensures ValidConfig(c)
  {}

  lemma MarkDueKeepsRound(c: Config, s: St, mono: nat)
    ensures MarkDue(c, s, mono) == s.(refreshDue := MarkDue(c, s, mono).refreshDue)
  {}

  /** The moment the last bootstrap template is committed: whole rounds, in catalog order, and no data. */
  lemma BootLayout(c: Config, before: seq<Sent>, after: seq<Sent>)
    requires ValidConfig(c) && c.version != V5 && PhaseOf(c, before).Boot?
    requires |after| == |before| + 1 && after[..|before|] == before
    requires after[|before|].kind.Template? && Advance(c, PhaseOf(c, before), after[|before|].kind) == Block(0)
    ensures Marks(after) == Rounds(|c.shapes|, c.copies)
  {
    hide ValidConfig, Advance, Rounds;
    GrammarIsLayout(c, before);
    BootHasNoBlocks(c, PhaseOf(c, before), BlocksOf(c, before));
    GrammarIsLayout(c, after);
    assert BlocksOf(c, after) == [0];
    assert DataBlock(0) == [];
    assert Body(|c.shapes|, [0]) == [];
    assert Rounds(|c.shapes|, c.copies) + [] == Rounds(|c.shapes|, c.copies);
  }

  /** One more template, as the log sees it. */
  lemma BootKinds(c: Config, before: St, t: St)
    requires BootTraced(c, before, t)
    ensures Kinds(t.trace) == Kinds(before.trace) + [TemplatePacket]
  {
    var sent := t.trace[|before.trace|];
    assert t.trace == before.trace + [sent];
    KindsGrow(before.trace, sent);
  }

  /** The log of a bootstrap whose epoch already held `done`: only templates were written, all in full, and
      they are what the epoch committed since. */
  ghost predicate Booted(answers: seq<Answer>, done: seq<Packed>, trace: seq<Sent>)
  {
    Journaled(answers, [], None, done, Kinds(trace)) && !Halted(answers)
  }

  lemma BootHears(answers: seq<Answer>, done: seq<Packed>, trace: seq<Sent>, a: Answer)
    requires Booted(answers, done, trace) && !a.WriteAnswer?
    ensures Orderly(answers + [a])
    ensures !Halts(a) ==> Booted(answers + [a], done, trace)
  {
    hide Halted, Orderly, Dispatched, Delivered, Accepted, Halts;
    JournalGrows(answers, [], None, done, Kinds(trace), a);
    HaltedGrows(answers, a);
  }

  lemma BootSends(answers: seq<Answer>, done: seq<Packed>, before: seq<Sent>, after: seq<Sent>, n: int, length: nat,
                  failed: bool)
    requires Booted(answers, done, before) && Cleared(answers, true, length)
    ensures Orderly(answers + [WriteAnswer(true, n, length, failed)])
    ensures ClassifyWrite(n, length, failed) == WriteFull && Kinds(after) == Kinds(before) + [TemplatePacket] ==>
      Booted(answers + [WriteAnswer(true, n, length, failed)], done, after)
  {
    hide Halted, Orderly, Cleared, Dispatched, Delivered, Accepted, ClassifyWrite;
    JournalTemplate(answers, [], done, Kinds(before), n, length, failed);
    HaltedGrows(answers, WriteAnswer(true, n, length, failed));
  }

  lemma BootBegun(trace: seq<Sent>)
    ensures Booted([], Kinds(trace), trace)
  {
    assert Kinds(trace) + [] == Kinds(trace);
  }

  /** Runtime.bootstrap. On success the epoch is ready after exactly InitialCopies whole template rounds, and
      every template committed meanwhile was answered by a write in full. */
  method Bootstrap(state: State, outside: Outside) returns (ok: bool)
    requires state.Valid() && state.pending == None
    modifies state, outside
    ensures state.Valid() && state.pending == None && Orderly(outside.answers)
    ensures ok <==> state.epoch.ready
    ensures ok ==> Booted(outside.answers, old(Kinds(state.trace)), state.trace)
    ensures !old(state.epoch.ready) && ok ==> Marks(state.trace) == Rounds(|state.config.shapes|, state.config.copies)
  {
    hide StateLaws.Inv, Marks, Rounds, Kinds, Journaled, Halted;
    outside.Forget();
    ghost var done := Kinds(state.trace);
    BootBegun(state.trace);
    if state.epoch.ready {
      return true;
    }
    Unready(state.config, state.Model());
    while !state.epoch.ready
      invariant state.Valid() && state.pending == None && state.config.version != V5
      invariant Booted(outside.answers, done, state.trace) && Orderly(outside.answers)
      invariant !old(state.epoch.ready) && state.epoch.ready ==>
        Marks(state.trace) == Rounds(|state.config.shapes|, state.config.copies)
      decreases Left(state.config, state.Model())
    {
      BootPosition(state.config, state.Model());
      var sent := BootTemplate(state, outside, done);
      if !sent {
        return false;
      }
    }
    return true;
  }

  lemma Unready(c: Config, s: St)
    requires Inv(c, s) && !s.epoch.ready
    ensures c.version != V5
  {}

  /** The context, or the check under the lifecycle lock that admits a write. */
  method Admitted(outside: Outside, ghost done: seq<Packed>, ghost trace: seq<Sent>) returns (admitted: bool)
    requires Booted(outside.answers, done, trace)
    modifies outside
    ensures outside.answers == old(outside.answers) + [AvailableAnswer(admitted)] && Orderly(outside.answers)
    ensures admitted ==> Booted(outside.answers, done, trace)
  {
    hide Journaled, Halted, Orderly;
    BootHears(outside.answers, done, trace, AvailableAnswer(true));
    BootHears(outside.answers, done, trace, AvailableAnswer(false));
    admitted := outside.Available();
  }

  /** One template of the bootstrap. */
  method BootTemplate(state: State, outside: Outside, ghost done: seq<Packed>) returns (sent: bool)
    requires state.Valid() && Bootstrapping(state.config, state.Model()) && Booted(outside.answers, done, state.trace)
    modifies state, outside
    ensures state.Valid() && state.pending == None && Orderly(outside.answers)
    ensures !sent ==> !state.epoch.ready
    ensures sent ==> Left(state.config, state.Model()) == old(Left(state.config, state.Model())) - 1
    ensures sent ==> Booted(outside.answers, done, state.trace)
    ensures sent && state.epoch.ready ==> Marks(state.trace) == Rounds(|state.config.shapes|, state.config.copies)
  {
    hide StateLaws.Inv, StateModel.BeginTemplate, CommitState, BootPacket, Marks, Rounds, Left, Booted, Orderly, Kinds;
    ghost var before := state.Model();
    var admitted := Admitted(outside, done, state.trace);
    if !admitted {
      return false;
    }
    var offered := OfferTemplate(state, outside, done, before);
    if offered == None {
      return false;
    }
    admitted := Admitted(outside, done, before.trace);
    if !admitted {
      BootAborts(state.config, state.Model(), before);
      var _ := state.AbortPacket(offered.value);
      return false;
    }
    sent := BootCommit(state, outside, offered.value, done, before);
  }

  /** Reserves and encodes the next template. */
  method OfferTemplate(state: State, outside: Outside, ghost done: seq<Packed>,
                       ghost before: St) returns (offered: Option<Packet>)
    requires state.Valid() && Bootstrapping(state.config, state.Model()) && state.Model() == before
    requires Booted(outside.answers, done, before.trace)
    modifies state, outside
    ensures state.Valid() && Booted(outside.answers, done, before.trace) && Orderly(outside.answers)
    ensures match offered
            case None => !state.epoch.ready && state.pending == None
            case Some(packet) =>
              && state.Holds(packet) && BootPacket(state.config, state.Model(), before)
              && state.pending.value.encoded && state.pending.value.length == packet.length
              && outside.answers != []
              && outside.answers[|outside.answers| - 1] == EncodeAnswer(Some(packet.length), packet.length)
  {
    hide StateLaws.Inv, StateModel.BeginTemplate, BootPacket, Booted, Orderly;
    var config := state.config;
    BootPosition(config, before);
    StillConfigured(config, before);
    ghost var asked := outside.answers;
    var wall, mono := outside.Clock();
    BootHears(asked, done, before.trace, ClockAnswer(wall, mono));
    BootBegins(config, before, wall, mono);
    var begun := state.BeginTemplate(wall, mono, state.progress.nextTemplateIndex);
    if begun.Failed? {
      return None;
    }
    var packet := begun.value;
    asked := outside.answers;
    var written := outside.Encode(packet.length);
    BootHears(asked, done, before.trace, EncodeAnswer(written, packet.length));
    BootEncodes(config, state.Model(), before, written);
    var encoded := state.Encode(packet, written);
    return if encoded.Done? then Some(packet) else None;
  }

  lemma BootAborts(c: Config, s: St, before: St)
    requires BootPacket(c, s, before)
    ensures !Abort(s).epoch.ready && Abort(s).pending == None
  {}

  method BootCommit(state: State, outside: Outside, packet: Packet, ghost done: seq<Packed>,
                    ghost before: St) returns (sent: bool)
    requires state.Valid() && state.Holds(packet) && BootPacket(state.config, state.Model(), before)
    requires state.pending.value.encoded && state.pending.value.length == packet.length
    requires Inv(state.config, before) && Bootstrapping(state.config, before)
    requires Booted(outside.answers, done, before.trace) && Cleared(outside.answers, true, packet.length)
    modifies state, outside
    ensures state.Valid() && state.pending == None && Orderly(outside.answers)
    ensures !sent ==> !state.epoch.ready
    ensures sent ==> Left(state.config, state.Model()) == Left(state.config, before) - 1
    ensures sent ==> Booted(outside.answers, done, state.trace)
    ensures sent && state.epoch.ready ==> Marks(state.trace) == Rounds(|state.config.shapes|, state.config.copies)
  {
    hide StateLaws.Inv, CommitState, BootPacket, Marks, Rounds, Left, Advance, PhaseOf, Booted, Orderly, Cleared, Kinds;
    ghost var asked := outside.answers;
    var n, failed := outside.Write(true, packet.length);
    ghost var write := ClassifyWrite(n, packet.length, failed);
    BootPosition(state.config, before);
    StillConfigured(state.config, before);
    BootCommits(state.config, state.Model(), before, write);
    BootSends(asked, done, before.trace, CommitState(state.config, state.Model(), write).trace, n, packet.length, failed);
    if write == WriteFull {
      BootKinds(state.config, before, CommitState(state.config, state.Model(), write));
    }
    var commit, err := state.Commit(packet, n, failed);
    if err.Some? || !commit.value.committed {
      return false;
    }
    if state.epoch.ready {
      BootLayout(state.config, before.trace, state.trace);
    }
    return true;
  }
}
