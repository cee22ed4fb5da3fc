/** What a registration and a heartbeat say, in any reachable state: the evidence, and nothing else. */
module Registration {
  import opened Types
  import opened JournalState
  import opened Framing
  import opened Executor
  import opened Observed
  import opened SessionSpec
  import opened Effects
  import opened SessionProofs
  import opened System

  // ---- an observation of the runtime ----

  /** The runtime lists each container once, so indexing it by id finds exactly that one. */
  lemma LastObserved(rt: Runtime, a: AllocationId)
    requires RuntimeOk(rt)
    ensures LastFor(Executor.Observed(rt), a).Some? <==> Visible(rt, a)
    ensures a in rt.running ==> LastFor(Executor.Observed(rt), a) == Some(RunningView(rt, a))
    ensures a in rt.exited ==> LastFor(Executor.Observed(rt), a) == Some(rt.exited[a])
  {
    hide Executor.Observed;
    var cs := Executor.Observed(rt);
    var last := LastFor(cs, a);
    if a in rt.running {
      ObservedMembers(rt, RunningView(rt, a));
      assert RunningView(rt, a).allocation == a;
    }
    if a in rt.exited { ObservedMembers(rt, rt.exited[a]); }
    if last.Some? {
      ObservedMembers(rt, last.value);
      assert forall b :: b in rt.running ==> RunningView(rt, b).allocation == b;
    }
  }

  lemma RunningIsSeenRunning(rt: Runtime, a: AllocationId)
    requires RuntimeOk(rt) && a in rt.running
    ensures RunningView(rt, a).state.IsRunning?
    ensures RunningView(rt, a).attempt == rt.running[a].attempt && RunningView(rt, a).job == rt.running[a].job
  {
  }

  // ---- the registration report ----

  predicate InFlight(a: Agent, alloc: AllocationId) { alloc in a.starting || alloc in a.stopping }

  /** One entry of a registration whose observation succeeded, in full. */
  ghost predicate TellsEvidence(w: World, e: ObservedAllocation) {
    var a, s := e.allocation, w.agent.state;
    && a in s.intents && e.attempt == s.intents[a].attempt && e.job == s.intents[a].job
    && (e.running <==> a in w.rt.running)
    && (a in s.exits ==> !e.running && e.outcome == Some(s.exits[a].outcome) && e.runtime == s.exits[a].runtime)
    && (a !in s.exits && a in w.rt.exited && !InFlight(w.agent, a) ==>
          && w.rt.exited[a].state.HasExited?
          && e.outcome == Some(ClassifyExit(w.rt.exited[a].state.exit, AttributionOf(s, a)))
          && e.runtime == w.rt.exited[a].state.exit.runtime)
    && (e.outcome.None? <==> e.running || (InFlight(w.agent, a) && a !in s.exits))
    && (e.outcome == Some(AgentError) <==> StartCount(w.rt, a) == 0 && a !in s.exits && !InFlight(w.agent, a))
  }

  /** The tables a registration reads: admission may only have raised the watermark over them. */
  predicate SameTables(a: Agent, b: Agent) {
    && b.state == a.state.(watermark := b.state.watermark)
    && b.starting == a.starting && b.stopping == a.stopping
  }

  lemma AdmitKeepsTables(a: Agent, h: Header)
    ensures SameTables(a, Admit(a, h).agent)
  {
    hide Admit;
    AdmitKeeps(a, h);
  }

  /** No exit is journaled for a container still running, and what is visible belongs to its intent. */
  lemma EvidenceOf(c: Codec, w: World, a: AllocationId)
    requires Lawful(c) && Inv(c, w)
    ensures RuntimeOk(w.rt) && Accounted(w.agent.state)
    ensures a in w.agent.state.exits ==> a !in w.rt.running
    ensures Visible(w.rt, a) ==>
              && StartCount(w.rt, a) >= 1 && a in w.agent.state.intents
              && Labels(w.rt, a) == (w.agent.state.intents[a].attempt, w.agent.state.intents[a].job)
    ensures StartCount(w.rt, a) >= 1 ==> Visible(w.rt, a) || a in w.agent.state.exits
  {
    hide Clean, EvidenceOk;
    if a in w.agent.state.exits { assert Finished(w, a); }
  }

  lemma EntryTells(c: Codec, w: World, b: Agent, a: AllocationId)
    requires Lawful(c) && Inv(c, w) && SameTables(w.agent, b) && a in w.agent.state.intents
    ensures var cs := Executor.Observed(w.rt);
            var e := Unresolve(b, Entry(b.state, cs, a));
            e.allocation == a && TellsEvidence(w, e)
  {
    hide Inv, Executor.Observed, WellFormed;
    EvidenceOf(c, w, a);
    LastObserved(w.rt, a);
    if a in w.rt.running { RunningIsSeenRunning(w.rt, a); }
  }

  /** Registration lists every intent once, in id order, whatever the runtime holds. */
  lemma ReportedAreIntents(c: Codec, w: World)
    requires Lawful(c) && Inv(c, w)
    ensures Reported(w.agent.state, Executor.Observed(w.rt)) == w.agent.state.intents.Keys
    ensures Reported(w.agent.state, []) == w.agent.state.intents.Keys
  {
    hide Inv, Executor.Observed, WellFormed, RuntimeOk;
    var s, cs := w.agent.state, Executor.Observed(w.rt);
    ReportedIsReportable(s, cs);
    ReportedIsReportable(s, []);
    forall a ensures (Reportable(s, cs, a) <==> a in s.intents) && (Reportable(s, [], a) <==> a in s.intents) {
      EvidenceOf(c, w, a);
      LastObserved(w.rt, a);
    }
  }

  /** The one report of an accepted registration. */
  function Registers(w: World, cmd: Command, clock: Clock): Out { HandleCommand(w.agent, w.rt, cmd, clock) }

  predicate IsRegistration(w: World, cmd: Command) {
    Accepts(w.agent, cmd) && cmd.body.value.RegisterAccepted?
  }

  lemma RegistrationEntries(w: World, cmd: Command, clock: Clock)
    requires IsRegistration(w, cmd)
    ensures var b := Admit(w.agent, cmd.header.value).agent;
            Registers(w, cmd, clock).reports ==
                [ObservedSetReport(b.epoch, UnresolveAll(b, ObservedSet(b.state, Seen(w.rt))))]
  {
    hide Admit, UnresolveAll, ObservedSet, Seen, SpentIds, Rearmed;
  }

  /**
   * An accepted registration answers with exactly one set: one entry per journaled intent in strict id
   * order, each telling the evidence. So the agent's own doubt, AgentError, is reported exactly for an
   * allocation that never started, has no journaled exit, and has neither start nor stop in flight.
   */
  lemma RegistrationTellsEvidence(c: Codec, w: World, cmd: Command, clock: Clock)
    requires Lawful(c) && Inv(c, w) && IsRegistration(w, cmd) && !w.rt.failObserve
    ensures var reports := Registers(w, cmd, clock).reports;
            && |reports| == 1 && reports[0].ObservedSetReport?
            && var entries := reports[0].entries;
               && IdsOf(entries) == Ascending(w.agent.state.intents.Keys)
               && StrictlyAscending(IdsOf(entries))
               && (forall i :: 0 <= i < |entries| ==> TellsEvidence(w, entries[i]))
  {
    hide Inv, HandleCommand, TellsEvidence, Entry, Admit, Reported, Executor.Observed;
    var b := Admit(w.agent, cmd.header.value).agent;
    var cs := Executor.Observed(w.rt);
    RegistrationEntries(w, cmd, clock);
    AdmitKeepsTables(w.agent, cmd.header.value);
    ReportedAreIntents(c, w);
    SameTablesReported(w.agent, b, cs);
    var ks := Ascending(w.agent.state.intents.Keys);
    var entries := UnresolveAll(b, ObservedSet(b.state, cs));
    forall i | 0 <= i < |entries| ensures entries[i].allocation == ks[i] && TellsEvidence(w, entries[i]) {
      assert ks[i] in ks;
      EntryTells(c, w, b, ks[i]);
    }
    assert IdsOf(entries) == ks;
  }

  lemma SameTablesReported(a: Agent, b: Agent, cs: seq<Container>)
    requires SameTables(a, b)
    ensures Reported(b.state, cs) == Reported(a.state, cs)
  {
  }

  /** One entry of a registration whose observation failed. */
  predicate Doubts(a: Agent, e: ObservedAllocation) {
    && !e.running
    && e.outcome == (if e.allocation in a.state.exits then Some(a.state.exits[e.allocation].outcome)
                     else if InFlight(a, e.allocation) then None else Some(AgentError))
  }

  lemma BlindEntryDoubts(a: Agent, b: Agent, alloc: AllocationId)
    requires SameTables(a, b) && alloc in a.state.intents
    ensures var e := Unresolve(b, Entry(b.state, [], alloc)); e.allocation == alloc && Doubts(a, e)
  {
    assert LastFor([], alloc) == None;
  }

  /**
   * With the observation failed, the set is the journal's alone: nothing is called running, and every
   * unjournaled allocation not in flight is doubted, started or not.
   */
  lemma BlindRegistrationDoubts(c: Codec, w: World, cmd: Command, clock: Clock)
    requires Lawful(c) && Inv(c, w) && IsRegistration(w, cmd) && w.rt.failObserve
    ensures var reports := Registers(w, cmd, clock).reports;
            && |reports| == 1 && reports[0].ObservedSetReport?
            && var entries := reports[0].entries;
               && IdsOf(entries) == Ascending(w.agent.state.intents.Keys)
               && (forall i :: 0 <= i < |entries| ==> Doubts(w.agent, entries[i]))
  {
    hide Inv, HandleCommand, Admit, Reported, Executor.Observed, Entry, Doubts;
    var b := Admit(w.agent, cmd.header.value).agent;
    RegistrationEntries(w, cmd, clock);
    AdmitKeepsTables(w.agent, cmd.header.value);
    ReportedAreIntents(c, w);
    SameTablesReported(w.agent, b, []);
    var ks := Ascending(w.agent.state.intents.Keys);
    var entries := UnresolveAll(b, ObservedSet(b.state, []));
    forall i | 0 <= i < |entries| ensures entries[i].allocation == ks[i] && Doubts(w.agent, entries[i]) {
      assert ks[i] in ks;
      BlindEntryDoubts(w.agent, b, ks[i]);
    }
    assert IdsOf(entries) == ks;
  }

  // ---- the heartbeat ----

  lemma {:induction false} ClaimedMembers(s: State, cs: seq<Container>, a: AllocationId)
    ensures a in Claimed(s, cs) <==> exists c :: c in cs && Claims(s, c) && c.allocation == a
    decreases |cs|
  {
    if cs != [] {
      ClaimedMembers(s, cs[1..], a);
      assert cs == [cs[0]] + cs[1..];
    }
  }

  /**
   * The heartbeat claims exactly the outstanding work that has started: every live container, every exit
   * not yet journaled, and nothing else.
   */
  lemma HeartbeatClaimsLiveWork(c: Codec, w: World, a: AllocationId)
    requires Lawful(c) && Inv(c, w) && !w.rt.failObserve
    ensures a in Heartbeat(w.agent, w.rt).running <==>
              a in OutstandingSet(w.agent.state) && StartCount(w.rt, a) >= 1
  {
    hide Inv, Executor.Observed, WellFormed;
    var s, cs := w.agent.state, Executor.Observed(w.rt);
    EvidenceOf(c, w, a);
    LastObserved(w.rt, a);
    ClaimedMembers(s, cs, a);
    if a in w.rt.running { RunningIsSeenRunning(w.rt, a); }
    forall d | d in cs && d.allocation == a ensures Some(d) == LastFor(cs, a) { OnlyOneObserved(w.rt, a, d); }
  }

  lemma OnlyOneObserved(rt: Runtime, a: AllocationId, d: Container)
    requires RuntimeOk(rt) && d in Executor.Observed(rt) && d.allocation == a
    ensures LastFor(Executor.Observed(rt), a) == Some(d)
  {
    hide Executor.Observed;
    ObservedMembers(rt, d);
    LastObserved(rt, a);
    assert forall b :: b in rt.running ==> RunningView(rt, b).allocation == b;
  }
}
