/** What the agent owes and says over whole runs: evidence, final exits, refusals, notices, live work. */
module Accountability {
  import opened Types
  import opened JournalState
  import opened Framing
  import opened Executor
  import opened Observed
  import opened SessionSpec
  import opened Effects
  import opened SessionProofs
  import opened SessionFacts
  import opened System
  import opened Runs
  import opened FencingRuns
  import opened Registration

  // ---- no lost evidence ----

  /**
   * What ever started is running, still visible as exited, or has its exit journaled, and is labelled as its
   * intent.
   */
  lemma NoLostEvidence(c: Codec, r: Run, i: nat, a: AllocationId)
    requires Lawful(c) && IsRun(c, r) && i < |r.worlds|
    ensures StartCount(r.worlds[i].rt, a) >= 1 ==> Visible(r.worlds[i].rt, a) || a in StateAt(r, i).exits
    ensures Visible(r.worlds[i].rt, a) ==>
              && a in StateAt(r, i).intents
              && Labels(r.worlds[i].rt, a) == (StateAt(r, i).intents[a].attempt, StateAt(r, i).intents[a].job)
    ensures a in StateAt(r, i).exits ==> a !in r.worlds[i].rt.running && a !in r.worlds[i].inflight
  {
    hide Inv, IsRun, Accounted, RuntimeOk;
    RunInv(c, r, i);
    EvidenceOf(c, r.worlds[i], a);
    InflightIsLive(c, r.worlds[i], a);
  }

  /** Every accepted registration of a run whose observation succeeds tells the evidence, entry by entry. */
  lemma RegistrationsTellEvidence(c: Codec, r: Run, i: nat, cmd: Command)
    requires Lawful(c) && IsRun(c, r) && AcceptedAt(r, i, cmd) && cmd.body.value.RegisterAccepted?
    requires !r.worlds[i].rt.failObserve
    ensures Enabled(r.worlds[i], r.steps[i])
    ensures var sent := Sent(r.worlds[i], r.steps[i]);
            && |sent| == 1 && sent[0].ObservedSetReport?
            && IdsOf(sent[0].entries) == Ascending(StateAt(r, i).intents.Keys)
            && (forall e :: e in sent[0].entries ==> TellsEvidence(r.worlds[i], e))
  {
    hide Inv, Moves, Crashes, Init, TellsEvidence, HandleCommand;
    RunInv(c, r, i);
    RunStep(c, r, i);
    RegistrationTellsEvidence(c, r.worlds[i], cmd, r.steps[i].clock);
  }

  // ---- exits are final ----

  /** Whatever event is handled, what is said of an allocation with a journaled exit is that exit. */
  lemma EventIsHonest(c: Codec, w: World, s: Step)
    requires Lawful(c) && Inv(c, w) && s.Deliver? && Enabled(w, s)
    ensures Honest(Interrupts(w, s).agent, Interrupts(w, s).reports)
  {
    hide Inv, HandleCommand, KeepsFence, TellsTruth, OnMaxRuntime, OnTimers, OnInterruption, ResumeNotices,
         FinishStart, FinishStop, OnObservedExit, JanitorSweep, AgentOk;
    if s.ev.CommandArrives? {
      InvQueues(c, w);
      HandleCommandFacts(w.agent, w.rt, s.ev.cmd, s.clock);
    } else if !s.ev.Reconnects? && !s.ev.DrainingSet? {
      OtherEventKeepsFence(w.agent, Taken(w, s.ev).rt, s.ev, s.clock);
    }
  }

  /** An exit is written once: no later state of the run holds another for the allocation, or none. */
  lemma ExitIsWrittenOnce(c: Codec, r: Run, i: nat, j: nat, a: AllocationId)
    requires Lawful(c) && IsRun(c, r) && i <= j < |r.worlds| && a in StateAt(r, i).exits
    ensures a in StateAt(r, j).exits && StateAt(r, j).exits[a] == StateAt(r, i).exits[a]
    ensures a !in r.worlds[j].rt.running
  {
    hide IsRun;
    RunLater(c, r, i, j);
    NoLostEvidence(c, r, j, a);
  }

  /**
   * Once an exit is journaled every later status of the allocation is Terminal with exactly that outcome
   * and runtime, and none is Running, whatever arrives late or twice and however often the agent restarts.
   */
  lemma EveryLaterStatusIsTheExit(c: Codec, r: Run, i: nat, j: nat, a: AllocationId, report: Report)
    requires Lawful(c) && IsRun(c, r) && i <= j < |r.steps| && a in StateAt(r, i).exits
    requires Enabled(r.worlds[j], r.steps[j]) && report in Sent(r.worlds[j], r.steps[j])
    requires report.AttemptStatus? && report.allocation == a
    ensures var exit := StateAt(r, i).exits[a];
            && report.observed == Terminal(exit.outcome) && report.runtime == exit.runtime
            && report.attempt == exit.attempt && report.job == exit.job
            && report.epoch == r.worlds[j + 1].agent.epoch
  {
    hide Inv, Init, Handle, Crashes, DiskAfter, RuntimeAfter, WithSpecs;
    RunInv(c, r, j);
    RunStep(c, r, j);
    EventIsHonest(c, r.worlds[j], r.steps[j]);
    ExitIsWrittenOnce(c, r, i, j + 1, a);
    assert TellsTruth(Interrupts(r.worlds[j], r.steps[j]).agent, report);
  }

  // ---- the door ----

  /** While the agent drains or an interruption plan is journaled, nothing is queued. */
  lemma ClosedDoorQueuesNothing(c: Codec, r: Run, i: nat)
    requires Lawful(c) && IsRun(c, r) && i < |r.steps|
    requires r.worlds[i].agent.draining || StateAt(r, i).plan.interruption.Some?
    ensures forall a :: r.worlds[i + 1].queued[a] <= r.worlds[i].queued[a]
  {
    hide Inv, Init, Next, Scan;
    forall a ensures r.worlds[i + 1].queued[a] <= r.worlds[i].queued[a] {
      if r.worlds[i + 1].queued[a] > r.worlds[i].queued[a] { QueuedBehindIntent(c, r, i, a); }
    }
  }

  /**
   * An allocation refused before it had an intent never starts, and stays refused unless a StopJob makes it
   * an abort.
   */
  lemma RefusedNeverStarts(c: Codec, r: Run, i: nat, j: nat, a: AllocationId)
    requires Lawful(c) && IsRun(c, r) && i <= j < |r.worlds| && Refused(StateAt(r, i), a)
    ensures Refused(StateAt(r, j), a)
    ensures StateAt(r, j).tombstones[a] == StateAt(r, i).tombstones[a] || StateAt(r, j).tombstones[a] == Abort
    ensures r.worlds[j].queued[a] == 0 && StartCount(r.worlds[j].rt, a) == 0 && !Visible(r.worlds[j].rt, a)
  {
    hide IsRun, Inv, Scan;
    RunLater(c, r, i, j);
    StartsAtMostOnce(c, r, j, a);
    MemoryIsReplay(c, r, j);
    NoLostEvidence(c, r, j, a);
  }

  lemma RefusedAnswer(a: Agent, rt: Runtime, cmd: Command, clock: Clock)
    requires AgentOk(a) && Accepts(a, cmd) && cmd.body.value.StartJobBody? && cmd.body.value.start.ids.Some?
    requires Refused(a.state, cmd.body.value.start.ids.value.allocation)
    ensures var ids := cmd.body.value.start.ids.value;
            HandleCommand(a, rt, cmd, clock).reports ==
              [AttemptStatus(Token(cmd).nodeEpoch, ids.allocation, ids.attempt, ids.job,
                             Terminal(TombstoneOutcome(a.state.tombstones[ids.allocation])), 0)]
  {
    hide Admit, Launch, Refuse, Accounted;
    AdmitFacts(a, cmd.header.value);
    AdmitKeepsTables(a, cmd.header.value);
    RefusedIsUnknown(a, cmd.body.value.start.ids.value.allocation);
  }

  lemma RefusedIsUnknown(a: Agent, alloc: AllocationId)
    requires AgentOk(a) && Refused(a.state, alloc)
    ensures alloc !in a.starting && alloc !in a.state.exits
  {
  }

  /** Every StartJob re-delivered for a refused allocation is answered with its tombstone, across restarts. */
  lemma RefusedAlwaysAnswers(c: Codec, r: Run, i: nat, j: nat, cmd: Command)
    requires Lawful(c) && IsRun(c, r) && i <= j && AcceptedAt(r, j, cmd)
    requires cmd.body.value.StartJobBody? && cmd.body.value.start.ids.Some?
    requires Refused(StateAt(r, i), cmd.body.value.start.ids.value.allocation)
    ensures Enabled(r.worlds[j], r.steps[j])
    ensures var ids := cmd.body.value.start.ids.value;
            var was := StateAt(r, i).tombstones[ids.allocation];
            exists t :: (t == was || t == Abort) &&
              Sent(r.worlds[j], r.steps[j]) ==
                [AttemptStatus(Token(cmd).nodeEpoch, ids.allocation, ids.attempt, ids.job,
                               Terminal(TombstoneOutcome(t)), 0)]
  {
    hide Inv, Init, Moves, Crashes, HandleCommand, AgentOk;
    var a := cmd.body.value.start.ids.value.allocation;
    RunInv(c, r, j);
    RunStep(c, r, j);
    InvQueues(c, r.worlds[j]);
    RefusedNeverStarts(c, r, i, j, a);
    RefusedAnswer(r.worlds[j].agent, r.worlds[j].rt, cmd, r.steps[j].clock);
    var t := StateAt(r, j).tombstones[a];
    assert t == StateAt(r, i).tombstones[a] || t == Abort;
  }

  // ---- live work ----

  /** Exits are of intents, and each step changes the outstanding set by the intents added minus the exits recorded. */
  lemma LiveWorkIsConserved(c: Codec, r: Run, i: nat)
    requires Lawful(c) && IsRun(c, r) && i < |r.steps|
    ensures i + 1 < |r.worlds|
    ensures var s, t := StateAt(r, i), StateAt(r, i + 1);
            && s.exits.Keys <= s.intents.Keys
            && OutstandingSet(t) ==
                 OutstandingSet(s) + (t.intents.Keys - s.intents.Keys) - (t.exits.Keys - s.exits.Keys)
            && (t.exits.Keys - s.exits.Keys) <= OutstandingSet(s) + (t.intents.Keys - s.intents.Keys)
  {
    hide Inv, Init, Next, WellFormed, NoticesAccounted;
    RunLater(c, r, i, i + 1);
    RunInv(c, r, i);
    RunInv(c, r, i + 1);
    InvQueues(c, r.worlds[i]);
    InvQueues(c, r.worlds[i + 1]);
  }

  lemma HeartbeatsClaimLiveWork(c: Codec, r: Run, i: nat, a: AllocationId)
    requires Lawful(c) && IsRun(c, r) && i < |r.worlds| && !r.worlds[i].rt.failObserve
    ensures a in Heartbeat(r.worlds[i].agent, r.worlds[i].rt).running <==>
              a in OutstandingSet(StateAt(r, i)) && StartCount(r.worlds[i].rt, a) >= 1
  {
    hide Inv, IsRun, Heartbeat;
    RunInv(c, r, i);
    HeartbeatClaimsLiveWork(c, r.worlds[i], a);
  }

  // ---- what is called running ----

  predicate SaysRunning(r: Report) { r.AttemptStatus? && r.observed.NowRunning? }

  /** An accepted StartJob for `alloc` whose sequence number was already processed. */
  predicate DuplicateStart(a: Agent, cmd: Command, alloc: AllocationId) {
    && Accepts(a, cmd) && cmd.body.value.StartJobBody? && cmd.body.value.start.ids.Some?
    && cmd.body.value.start.ids.value.allocation == alloc
    && Admit(a, cmd.header.value).admission.Duplicate?
  }

  lemma EventRunningIsBacked(a: Agent, rt: Runtime, ev: Event, clock: Clock, report: Report)
    requires !ev.CommandArrives? && report in Handle(a, rt, ev, clock).reports && SaysRunning(report)
    ensures ev.StartFinished? && ev.result.Started? && ev.alloc == report.allocation && ev.alloc in a.state.intents
  {
    hide OnMaxRuntime, OnTimers, OnInterruption, ResumeNotices, FinishStart, FinishStop, OnObservedExit, TellsTruth;
    match ev
    case StartFinished(alloc, result) => FinishStartFacts(a, alloc, result, clock);
    case StopFinished(alloc, result) => FinishStopFacts(a, alloc, result, clock.wall);
    case ExitSeen(alloc, exit) => OnObservedExitFacts(a, alloc, exit);
    case WatchdogFires(alloc) => OnMaxRuntimeFacts(a, rt, alloc);
    case TimersDue => OnTimersFacts(a, clock.wall);
    case Interrupted(deadline) => OnInterruptionFacts(a, deadline, clock.wall);
    case Resumes => ResumeNoticesFacts(a, clock.wall, 0);
    case _ =>
  }

  lemma CommandRunningIsBacked(a: Agent, rt: Runtime, cmd: Command, clock: Clock, report: Report)
    requires AgentOk(a) && report in HandleCommand(a, rt, cmd, clock).reports && SaysRunning(report)
    ensures report.allocation in a.state.intents || DuplicateStart(a, cmd, report.allocation)
  {
    hide Admit, OnFresh, AgentOk, TellsTruth;
    var r := Admit(a, cmd.header.value);
    AdmitSound(a, cmd.header.value, rt, {});
    AdmitKeepsTables(a, cmd.header.value);
    AgentIsAccounted(r.agent);
    if !cmd.body.value.RegisterAccepted? && !r.admission.Duplicate? {
      OnFreshFacts(r.agent, cmd.body.value, clock);
      assert BackedRunning(r.agent, report);
    }
  }

  lemma AgentIsAccounted(a: Agent)
    requires AgentOk(a)
    ensures Accounted(a.state)
  {
  }

  /**
   * A Running status is backed by a durable intent with no journaled exit, unless it answers a duplicate
   * StartJob for an allocation the agent has no record of at all.
   */
  lemma RunningIsBacked(c: Codec, r: Run, i: nat, report: Report)
    requires Lawful(c) && IsRun(c, r) && i < |r.steps| && Enabled(r.worlds[i], r.steps[i])
    requires report in Sent(r.worlds[i], r.steps[i]) && SaysRunning(report)
    ensures report.allocation !in StateAt(r, i + 1).exits
    ensures report.allocation in StateAt(r, i).intents ||
              (r.steps[i].ev.CommandArrives? && DuplicateStart(r.worlds[i].agent, r.steps[i].ev.cmd, report.allocation))
  {
    hide Inv, Init, DiskAfter, RuntimeAfter, WithSpecs, Crashes, HandleCommand, AgentOk, DuplicateStart;
    var w, s := r.worlds[i], r.steps[i];
    RunInv(c, r, i);
    RunStep(c, r, i);
    EventIsHonest(c, w, s);
    assert TellsTruth(Interrupts(w, s).agent, report);
    if s.ev.CommandArrives? {
      InvQueues(c, w);
      CommandRunningIsBacked(w.agent, w.rt, s.ev.cmd, s.clock, report);
    } else {
      EventRunningIsBacked(w.agent, Taken(w, s.ev).rt, s.ev, s.clock, report);
    }
  }

  /** A command calls an allocation without an intent Running exactly when it is such a duplicate, and not refused. */
  lemma UnbackedRunningIff(a: Agent, rt: Runtime, cmd: Command, clock: Clock, alloc: AllocationId)
    requires AgentOk(a) && alloc !in a.state.intents
    ensures (exists report ::
               report in HandleCommand(a, rt, cmd, clock).reports && SaysRunning(report) && report.allocation == alloc)
              <==> DuplicateStart(a, cmd, alloc) && alloc !in a.state.tombstones
  {
    hide Admit, OnFresh, TellsTruth, HandleCommand, Accounted;
    var reports := HandleCommand(a, rt, cmd, clock).reports;
    forall report | report in reports && SaysRunning(report) && report.allocation == alloc
      ensures DuplicateStart(a, cmd, alloc)
    {
      CommandRunningIsBacked(a, rt, cmd, clock, report);
    }
    if DuplicateStart(a, cmd, alloc) {
      DuplicateAnswer(a, rt, cmd, clock, alloc);
    }
  }

  lemma DuplicateAnswer(a: Agent, rt: Runtime, cmd: Command, clock: Clock, alloc: AllocationId)
    requires AgentOk(a) && alloc !in a.state.intents && DuplicateStart(a, cmd, alloc)
    ensures var reports := HandleCommand(a, rt, cmd, clock).reports;
            && |reports| == 1 && reports[0].AttemptStatus? && reports[0].allocation == alloc
            && (SaysRunning(reports[0]) <==> alloc !in a.state.tombstones)
  {
    hide Admit, Accounted, WellFormed;
    AdmitKeepsTables(a, cmd.header.value);
    AgentIsAccounted(a);
    if alloc in a.state.exits { ExitHasIntent(a.state, alloc); }
  }

  lemma ExitHasIntent(s: State, alloc: AllocationId)
    requires Accounted(s) && alloc in s.exits
    ensures alloc in s.intents
  {
  }

  /** A StartJob that would be dropped as malformed, for an allocation without any record. */
  predicate DroppedStart(a: Agent, cmd: Command) {
    && Accepts(a, cmd) && cmd.body.value.StartJobBody?
    && var sj := cmd.body.value.start;
       && sj.ids.Some? && (!sj.envOk || !sj.identityOk
                           || (sj.latestStartUs.Some? && FromMicros(sj.latestStartUs.value).None?))
       && sj.ids.value.allocation !in a.state.intents && sj.ids.value.allocation !in a.state.tombstones
  }

  /** The exception is real: a malformed StartJob is dropped in silence, and called Running when re-delivered. */
  lemma DroppedStartIsCalledRunning(a: Agent, rt: Runtime, cmd: Command, clock: Clock)
    requires AgentOk(a) && DroppedStart(a, cmd) && Admit(a, cmd.header.value).admission.Fresh?
    ensures var ids := cmd.body.value.start.ids.value;
            var first := HandleCommand(a, rt, cmd, clock);
            var again := HandleCommand(first.agent, rt, cmd, clock);
            && first.reports == [] && ids.allocation !in first.agent.state.intents
            && again == Out(first.agent, [], [Running(first.agent, ids.allocation, ids.attempt, ids.job)])
  {
    hide Admit, Launch, Refuse;
    var h := cmd.header.value;
    AdmitFacts(a, h);
    AdmitKeepsTables(a, h);
    AdmitSound(a, h, rt, {});
    var b := Admit(a, h).agent;
    AdmitFacts(b, h);
    AdmitAgain(a, h);
  }

  lemma AdmitSeen(b: Agent, h: Header)
    requires b.state.watermark == TokenOf(h) && b.lastSeq.Some? && h.commandSeq <= b.lastSeq.value
    ensures Admit(b, h) == Admitted(Duplicate, b, [])
  {
  }

  /** Admitting the same header twice in a row finds it already processed. */
  lemma AdmitAgain(a: Agent, h: Header)
    requires AgentOk(a) && !Stale(a.state.watermark, TokenOf(h))
    ensures var b := Admit(a, h).agent; Admit(b, h) == Admitted(Duplicate, b, [])
  {
    hide Admit, Accounted;
    AdmitFacts(a, h);
    AdmitSeen(Admit(a, h).agent, h);
  }
}
