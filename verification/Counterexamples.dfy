/** Where the agent departs from what it sets out to do: whole runs from first boot, one for each departure. */
module Counterexamples {
  import opened Types
  import opened JournalState
  import opened Framing
  import opened Executor
  import opened Observed
  import opened SessionSpec
  import opened Effects
  import opened SessionFacts
  import opened System
  import opened Runs
  import opened FencingRuns
  import opened Registration
  import opened Accountability
  import opened LaunchRefusals
  import opened NoticeRuns
  import opened Watchdogs
  import opened Outcomes
  import opened Retelling
  import opened Witness

  // ---- building a run ----

  ghost function FirstBoot(c: Codec): Run
    requires Lawful(c)
  {
    Run([World(EncodeLog(c, Canonical(EMPTY)), NewAgent(EMPTY), NO_CONTAINERS, multiset{}, map[], {}, {}, {}, {},
               multiset{})], [])
  }

  function Last(r: Run): World
    requires r.worlds != []
  {
    r.worlds[|r.worlds| - 1]
  }

  function Then(r: Run, s: Step, w: World): Run { Run(r.worlds + [w], r.steps + [s]) }

  lemma FirstBootIsRun(c: Codec)
    requires Lawful(c)
    ensures IsRun(c, FirstBoot(c)) && Init(c, Last(FirstBoot(c)))
  {
    hide EncodeLog, Canonical;
  }

  lemma ThenIsRun(c: Codec, r: Run, s: Step, w: World)
    requires Lawful(c) && IsRun(c, r) && Next(c, Last(r), s, w)
    ensures IsRun(c, Then(r, s, w))
  {
    hide Next, Init;
    var t := Then(r, s, w);
    forall i {:trigger t.steps[i]} | 0 <= i < |t.steps| ensures Next(c, t.worlds[i], t.steps[i], t.worlds[i + 1]) {
      if i < |r.steps| { assert t.steps[i] == r.steps[i]; }
    }
  }

  // ---- one live container under a drain not yet due ----

  const BOUNDED_START := Command(Some(Header(Some(TOKEN), 2)),
                                 Some(StartJobBody(StartJob(Some(StartIds(7, 8, 9)), true, true, None, Some(1000),
                                                            Sigterm, 0, 0, 0))))

  const JOB: Intent := Intent(7, 8, 9, 1, Some(1000), Sigterm, 0, 0, 0)

  const SPEC := StartSpec(7, 8, 9, Some(1000))

  const DRAIN_AT_1000 := Command(Some(Header(Some(TOKEN), 3)), Some(DrainBody(Some(1000), 0)))

  const DRAINED_AT_1000 := Plan(Some(OperatorDrain(1000, 0)), None)

  const REGISTERED: Agent := NewAgent(EMPTY.(watermark := TOKEN)).(lastSeq := Some(1), registered := true)

  const STARTING: Agent := REGISTERED.(
    state := REGISTERED.state.(intents := map[7 := JOB]), lastSeq := Some(2), starting := {7},
    launchBounds := map[7 := StartBound(None, None, None)])

  const LIVE: Agent := STARTING.(starting := {}, launchBounds := map[])

  const UNDER_DRAIN: Agent := LIVE.(state := LIVE.state.(plan := DRAINED_AT_1000), lastSeq := Some(3))

  const ONE_CONTAINER: Runtime := NO_CONTAINERS.(
    running := map[7 := Container(7, 8, 9, IsRunning(0))], startCounts := map[7 := 1], startedAt := map[7 := 0])

  lemma RegisterHandled()
    ensures var o := HandleCommand(NewAgent(EMPTY), NO_CONTAINERS, REGISTER, NOON);
            && Drained(o.agent) == REGISTERED && o.fx == [Append(Fencing(TOKEN)), Observe]
            && o.agent.pendingStarts == [] && o.agent.pendingStops == []
  {
    hide UnresolveAll, SpentIds, Rearmed, Seen;
  }

  lemma StartHandled()
    ensures var o := HandleCommand(REGISTERED, NO_CONTAINERS, BOUNDED_START, NOON);
            && Drained(o.agent) == STARTING && o.agent.pendingStarts == [SPEC]
            && o.fx == [Append(StartIntent(JOB))] && o.agent.pendingStops == []
  {
  }

  lemma StartedHandled()
    ensures FinishStart(STARTING, 7, Started, NOON) ==
              Out(LIVE.(armedWatchdogs := [ArmedWatchdog(7, 1000, 0)]), [], [Running(LIVE, 7, 8, 9)])
  {
  }

  lemma NobodyDue(a: Agent, now: Timestamp)
    requires DueNotices(a, now) == {}
    ensures BeginDueNotices(a, now) == Unchanged(a)
  {
    hide DueNotices;
  }

  lemma NotDueAtNoon()
    ensures BeginDueNotices(UNDER_DRAIN, 0) == Unchanged(UNDER_DRAIN)
  {
    hide BeginDueNotices;
    assert DueNotices(UNDER_DRAIN, 0) == {};
    NobodyDue(UNDER_DRAIN, 0);
  }

  lemma PlannedAtNoon()
    ensures WithPlan(LIVE.(lastSeq := Some(3)), DRAINED_AT_1000, 0) == UNDER_DRAIN
  {
    assert RefreshedBounds(UNDER_DRAIN, 0) == map[];
  }

  lemma DrainHandled()
    ensures var o := HandleCommand(LIVE, ONE_CONTAINER, DRAIN_AT_1000, NOON);
            && o.agent == UNDER_DRAIN && o.fx == [Append(DrainPlan(DRAINED_AT_1000))]
            && o.agent.pendingStarts == [] && o.agent.pendingStops == []
  {
    hide BeginDueNotices, WithPlan;
    NotDueAtNoon();
    PlannedAtNoon();
  }

  /** A world in which nothing is queued or in flight but what the agent and the runtime themselves hold. */
  predicate Calm(w: World, a: Agent, rt: Runtime) {
    w.agent == a && w.rt == rt && w.inflight == multiset{} && w.startsDone == {} && w.stops == {}
  }

  lemma Delivers(c: Codec, w: World, ev: Event, clock: Clock) returns (w': World)
    requires Lawful(c) && Ready(w, ev)
    ensures Next(c, w, Deliver(ev, clock), w')
    ensures w' == Performed(c, Taken(w, ev), Handle(w.agent, Taken(w, ev).rt, ev, clock))
  {
    hide Handle, Performed;
    w' := Performed(c, Taken(w, ev), Handle(w.agent, Taken(w, ev).rt, ev, clock));
  }

  lemma Appended(rt: Runtime, record: Record)
    ensures RuntimeAfter(rt, [Append(record)]) == rt
  {
    OneEffect(EMPTY, rt, {}, Append(record));
  }

  lemma RegisteredRun(c: Codec) returns (r: Run)
    requires Lawful(c)
    ensures IsRun(c, r) && |r.steps| == 1 && Calm(Last(r), REGISTERED, NO_CONTAINERS) && Last(r).specs == map[]
  {
    hide Next, Init, HandleCommand, DiskAfter;
    FirstBootIsRun(c);
    r := FirstBoot(c);
    RegisterHandled();
    var w := Delivers(c, Last(r), CommandArrives(REGISTER), NOON);
    var fx := [Append(Fencing(TOKEN)), Observe];
    Appended(NO_CONTAINERS, Fencing(TOKEN));
    OneEffect(EMPTY, NO_CONTAINERS, {}, Observe);
    EffectsConcat(EMPTY, NO_CONTAINERS, {}, [fx[0]], [fx[1]]);
    assert fx == [fx[0]] + [fx[1]];
    assert Allocations([]) == [];
    ThenIsRun(c, r, Deliver(CommandArrives(REGISTER), NOON), w);
    r := Then(r, Deliver(CommandArrives(REGISTER), NOON), w);
  }

  /** A world with the start of 7 spawned and not yet run. */
  predicate Spawned(w: World, a: Agent) {
    && w.agent == a && w.rt == NO_CONTAINERS && w.inflight == multiset{7} && w.specs == map[7 := SPEC]
    && w.startsDone == {} && w.stops == {}
  }

  lemma SpawnedRun(c: Codec) returns (r: Run)
    requires Lawful(c)
    ensures IsRun(c, r) && |r.steps| == 2 && Spawned(Last(r), STARTING)
  {
    hide Next, Init, HandleCommand, DiskAfter;
    r := RegisteredRun(c);
    StartHandled();
    var w := Delivers(c, Last(r), CommandArrives(BOUNDED_START), NOON);
    Appended(NO_CONTAINERS, StartIntent(JOB));
    SpecCarried();
    ThenIsRun(c, r, Deliver(CommandArrives(BOUNDED_START), NOON), w);
    r := Then(r, Deliver(CommandArrives(BOUNDED_START), NOON), w);
  }

  lemma StartedRun(c: Codec) returns (r: Run)
    requires Lawful(c)
    ensures IsRun(c, r) && |r.steps| == 4 && Calm(Last(r), LIVE, ONE_CONTAINER)
  {
    hide Next, Init, FinishStart, DiskAfter;
    r := SpawnedRun(c);
    var w := Launches(c, Last(r));
    ThenIsRun(c, r, RunStart(7, false), w);
    r := Then(r, RunStart(7, false), w);
    StartedHandled();
    var w' := Delivers(c, w, StartFinished(7, Started), NOON);
    assert Allocations([]) == [];
    ThenIsRun(c, r, Deliver(StartFinished(7, Started), NOON), w');
    r := Then(r, Deliver(StartFinished(7, Started), NOON), w');
  }

  lemma SpecCarried()
    ensures Allocations([SPEC]) == [7] && WithSpecs(map[], [SPEC]) == map[7 := SPEC]
  {
    assert [SPEC][1..] == [];
  }

  lemma Launches(c: Codec, w: World) returns (w': World)
    requires Lawful(c) && w.agent == STARTING && w.rt == NO_CONTAINERS && w.inflight == multiset{7}
             && w.startsDone == {}
    requires w.specs == map[7 := SPEC]
    ensures Next(c, w, RunStart(7, false), w')
    ensures w'.agent == STARTING && w'.rt == ONE_CONTAINER && w'.inflight == multiset{}
            && w'.startsDone == {(7, Started)}
    ensures w'.stops == w.stops
  {
    w' := w.(rt := StartRun(w, 7, false).0, inflight := w.inflight - multiset{7},
             startsDone := w.startsDone + {(7, StartRun(w, 7, false).1)});
  }

  /** First boot, registration, a start, its container, and a drain whose deadline is still ahead. */
  lemma DrainingRun(c: Codec) returns (r: Run)
    requires Lawful(c)
    ensures IsRun(c, r) && |r.steps| == 5 && Calm(Last(r), UNDER_DRAIN, ONE_CONTAINER)
  {
    hide Next, Init, HandleCommand, DiskAfter;
    r := StartedRun(c);
    DrainHandled();
    var w := Delivers(c, Last(r), CommandArrives(DRAIN_AT_1000), NOON);
    Appended(ONE_CONTAINER, DrainPlan(DRAINED_AT_1000));
    assert Allocations([]) == [];
    ThenIsRun(c, r, Deliver(CommandArrives(DRAIN_AT_1000), NOON), w);
    r := Then(r, Deliver(CommandArrives(DRAIN_AT_1000), NOON), w);
  }

  // ---- an exit that happened, retold as a preemption ----

  const FAILED_EXIT := ExitInfo(1, Natural, 5, 500)

  const RESTART := Clock(2000, 2000)

  lemma Exits(c: Codec, w: World, a: Agent) returns (w': World)
    requires Lawful(c) && Calm(w, a, ONE_CONTAINER)
    ensures Next(c, w, ContainerExits(7, FAILED_EXIT), w') && w'.agent == a
    ensures w'.rt.queue == [ExitEvent(7, FAILED_EXIT)] && !w'.rt.failObserve
  {
    w' := w.(rt := Finish(w.rt, 7, FAILED_EXIT));
  }

  lemma {:induction false} ObservationStaysUp(rt: Runtime, fx: seq<Effect>)
    requires !rt.failObserve
    ensures !RuntimeAfter(rt, fx).failObserve
    decreases |fx|
  {
    hide RuntimeAfterOne;
    if fx != [] {
      EffectKeepsObservation(rt, fx[0]);
      ObservationStaysUp(RuntimeAfterOne(rt, fx[0]), fx[1..]);
    }
  }

  lemma FinishKeepsObservation(rt: Runtime, a: AllocationId, exit: ExitInfo)
    ensures Finish(rt, a, exit).failObserve == rt.failObserve
  {
  }

  lemma EffectKeepsObservation(rt: Runtime, e: Effect)
    requires !rt.failObserve
    ensures !RuntimeAfterOne(rt, e).failObserve
  {
    hide Finish;
    if e.Signal? && e.allocation in rt.exitOnSignal {
      FinishKeepsObservation(rt.(signals := rt.signals + [(e.allocation, e.signal)]), e.allocation,
                             ExitInfo(rt.exitOnSignal[e.allocation].1, Natural, RanFor(rt, e.allocation), rt.now));
    }
  }

  /** A crash before any effect of the handler: the journal and the containers as they were. */
  lemma CrashesAtOnce(c: Codec, w: World, ev: Event, clock: Clock) returns (w': World)
    requires Lawful(c) && Inv(c, w) && Ready(w, ev) && !w.rt.failObserve
    ensures Next(c, w, Crash(ev, clock, 0, 0), w')
    ensures w'.agent == NewAgent(w.agent.state) && !w'.rt.failObserve
  {
    hide Inv, Handle, Crashes;
    var s := Crash(ev, clock, 0, 0);
    CrashHereRecovers(c, w, s);
    var fx := Interrupts(w, s).fx;
    assert fx[..0] == [];
    w' := Restarted(w, EncodeLog(c, Canonical(w.agent.state)), Taken(w, ev).rt, w.agent.state);
  }

  /** The restart's own schedule: notices resumed, then a registration that sees the containers. */
  lemma RestartsAndRegisters(c: Codec, r: Run) returns (t: Run)
    requires Lawful(c) && IsRun(c, r) && Last(r).agent == NewAgent(Last(r).agent.state)
    requires Last(r).agent.state.watermark == TOKEN && !Last(r).rt.failObserve
    ensures IsRun(c, t) && |t.steps| == |r.steps| + 2 && r.worlds <= t.worlds && r.steps <= t.steps
    ensures t.steps[|r.steps|] == Deliver(Resumes, RESTART) && AcceptedAt(t, |r.steps| + 1, REGISTER)
    ensures !t.worlds[|r.steps| + 1].rt.failObserve
  {
    hide Next, Init, Handle, DiskAfter, RuntimeAfter, WithSpecs;
    var w := Delivers(c, Last(r), Resumes, RESTART);
    ThenIsRun(c, r, Deliver(Resumes, RESTART), w);
    ObservationStaysUp(Last(r).rt, Handle(Last(r).agent, Last(r).rt, Resumes, RESTART).fx);
    ResumedFence(Last(r).agent);
    t := Then(r, Deliver(Resumes, RESTART), w);
    var w' := Delivers(c, w, CommandArrives(REGISTER), RESTART);
    ThenIsRun(c, t, Deliver(CommandArrives(REGISTER), RESTART), w');
    t := Then(t, Deliver(CommandArrives(REGISTER), RESTART), w');
  }

  lemma ResumedFence(a: Agent)
    ensures Handle(a, NO_CONTAINERS, Resumes, RESTART).agent.state.watermark == a.state.watermark
    ensures forall rt :: Handle(a, rt, Resumes, RESTART) == Handle(a, NO_CONTAINERS, Resumes, RESTART)
  {
    hide ResumeNotices;
    ResumeNoticesFacts(a, RESTART.wall, 7);
  }

  /** The entry a registration sends for an allocation with an intent. */
  lemma EntryFor(c: Codec, r: Run, k: nat, a: AllocationId) returns (e: ObservedAllocation)
    requires Lawful(c) && IsRun(c, r) && AcceptedAt(r, k, REGISTER) && !r.worlds[k].rt.failObserve
    requires a in StateAt(r, k).intents
    ensures Enabled(r.worlds[k], r.steps[k]) && e.allocation == a && TellsEvidence(r.worlds[k], e)
    ensures var sent := Sent(r.worlds[k], r.steps[k]); |sent| == 1 && sent[0].ObservedSetReport? && e in sent[0].entries
  {
    hide IsRun, TellsEvidence, Handle;
    RegistrationsTellEvidence(c, r, k, REGISTER);
    var entries := Sent(r.worlds[k], r.steps[k])[0].entries;
    assert a in IdsOf(entries);
    var i :| 0 <= i < |entries| && IdsOf(entries)[i] == a;
    e := entries[i];
  }

  lemma DueByRestart()
    ensures LateNotice(UNDER_DRAIN.state, 7, RESTART.wall) && Attributable(FAILED_EXIT)
    ensures ClassifyExit(FAILED_EXIT, AttributionOf(UNDER_DRAIN.state, 7)) == Exited(1)
    ensures NoticeAfter(NewAgent(UNDER_DRAIN.state), 7, RESTART.wall) == Some(Drain)
  {
  }

  /**
   * A container exits with code 1, and the agent crashes before it journals that. The drain's deadline
   * passes while it is down: the restart notifies the dead container, and registers it as preempted.
   */
  lemma ResumingRewritesAnExit(c: Codec) returns (r: Run, e: ObservedAllocation)
    requires Lawful(c)
    ensures IsRun(c, r) && |r.steps| == 9
    ensures r.steps[6] == Crash(ExitSeen(7, FAILED_EXIT), NOON, 0, 0) && SeesExit(r.worlds[6], r.steps[6].ev)
    ensures LiveOutcome(r.worlds[6], r.steps[6].ev) == Exited(1)
    ensures r.steps[7] == Deliver(Resumes, RESTART) && AcceptedAt(r, 8, REGISTER) && Enabled(r.worlds[8], r.steps[8])
    ensures var sent := Sent(r.worlds[8], r.steps[8]); |sent| == 1 && sent[0].ObservedSetReport? && e in sent[0].entries
    ensures e.allocation == 7 && e.outcome == Some(Preempted(Drain))
  {
    hide Next, Init, Inv, Handle, TellsEvidence, ResumeNotices, NoticeAfter;
    r := DrainingRun(c);
    var w := Exits(c, Last(r), UNDER_DRAIN);
    ThenIsRun(c, r, ContainerExits(7, FAILED_EXIT), w);
    r := Then(r, ContainerExits(7, FAILED_EXIT), w);
    RunInv(c, r, 6);
    var w' := CrashesAtOnce(c, w, ExitSeen(7, FAILED_EXIT), NOON);
    ThenIsRun(c, r, Crash(ExitSeen(7, FAILED_EXIT), NOON, 0, 0), w');
    r := Then(r, Crash(ExitSeen(7, FAILED_EXIT), NOON, 0, 0), w');
    r := RestartsAndRegisters(c, r);
    assert r.worlds[6] == w && r.worlds[7] == w';
    RunLater(c, r, 6, 8);
    e := EntryFor(c, r, 8, 7);
    DueByRestart();
    ResumeNoticesFacts(r.worlds[7].agent, RESTART.wall, 7);
    RunInv(c, r, 7);
    RunStep(c, r, 7);
    ResumedState(c, r.worlds[7], r.steps[7], r.worlds[8]);
    CutExitIsRetold(c, r, e);
  }

  lemma CutExitIsRetold(c: Codec, r: Run, e: ObservedAllocation)
    requires Lawful(c) && IsRun(c, r) && |r.steps| == 9 && r.steps[6] == Crash(ExitSeen(7, FAILED_EXIT), NOON, 0, 0)
    requires SeesExit(r.worlds[6], r.steps[6].ev) && r.worlds[7].agent == NewAgent(StateAt(r, 6))
    requires 7 !in StateAt(r, 8).exits && !InFlight(r.worlds[8].agent, 7)
    requires e.allocation == 7 && TellsEvidence(r.worlds[8], e) && Get(StateAt(r, 8).noticeIntents, 7) == Some(Drain)
    ensures e.outcome == Some(Preempted(Drain))
  {
    hide Next, Init, Inv, TellsEvidence, OnlyEvidence;
    RunInv(c, r, 6);
    RunStep(c, r, 6);
    CutExitIsEvidence(c, r.worlds[6], r.steps[6], r.worlds[7]);
    RetoldFromEvidence(c, r, 7, 8, 8, FAILED_EXIT, e);
  }

  // ---- a max-runtime kill, retold as an exit of the job's own ----

  const OVERDUE := Clock(1000, 1000)

  lemma KillIsCut(c: Codec, w: World) returns (w': World)
    requires Lawful(c) && Inv(c, w) && w.agent == LIVE && w.rt == ONE_CONTAINER
    ensures Next(c, w, Crash(WatchdogFires(7), OVERDUE, 1, 0), w') && KillsOverdue(w, WatchdogFires(7))
    ensures w'.agent == NewAgent(LIVE.state) && !w'.rt.failObserve
  {
    hide Inv, Handle, Crashes, StopContainer, StateAfter, RuntimeAfter;
    var s := Crash(WatchdogFires(7), OVERDUE, 1, 0);
    InvReaps(c, w);
    OverdueKillRecords(w, s.ev, s.clock);
    CrashHereRecovers(c, w, s);
    var fx := Interrupts(w, s).fx;
    assert fx[..1] == [fx[0]];
    OneEffect(w.agent.state, w.rt, {}, fx[0]);
    ObservationStaysUp(w.rt, [fx[0]]);
    w' := Restarted(w, EncodeLog(c, Canonical(w.agent.state)), RuntimeAfter(w.rt, fx[..1]), w.agent.state);
  }

  lemma KillIsNotALimit()
    ensures KillOutcome(World([], LIVE, ONE_CONTAINER, multiset{}, map[], {}, {}, {}, {}, multiset{}), 7) ==
              RuntimeLimitExceeded
    ensures forall s: State :: 7 !in s.noticeIntents ==>
              ClassifyExit(StopExit(ONE_CONTAINER, 7), AttributionOf(s, 7)) == Exited(137)
  {
  }

  /**
   * A container outlives its bound, and the agent crashes after stopping it and before journaling why. The
   * uninterrupted handling would have journaled the runtime limit; the registration tells a job that
   * exited with code 137.
   */
  lemma KillIsToldAsAnExit(c: Codec) returns (r: Run, e: ObservedAllocation)
    requires Lawful(c)
    ensures IsRun(c, r) && |r.steps| == 7
    ensures r.steps[4] == Crash(WatchdogFires(7), OVERDUE, 1, 0) && KillsOverdue(r.worlds[4], r.steps[4].ev)
    ensures KillOutcome(r.worlds[4], 7) == RuntimeLimitExceeded
    ensures r.steps[5] == Deliver(Resumes, RESTART) && AcceptedAt(r, 6, REGISTER) && Enabled(r.worlds[6], r.steps[6])
    ensures var sent := Sent(r.worlds[6], r.steps[6]); |sent| == 1 && sent[0].ObservedSetReport? && e in sent[0].entries
    ensures e.allocation == 7 && e.outcome == Some(Exited(137))
  {
    hide Next, Init, Inv, Handle, TellsEvidence, ResumeNotices, NoticeAfter;
    r := StartedRun(c);
    RunInv(c, r, 4);
    var w := Last(r);
    var w' := KillIsCut(c, w);
    ThenIsRun(c, r, Crash(WatchdogFires(7), OVERDUE, 1, 0), w');
    r := Then(r, Crash(WatchdogFires(7), OVERDUE, 1, 0), w');
    r := RestartsAndRegisters(c, r);
    assert r.worlds[4] == w && r.worlds[5] == w';
    RunLater(c, r, 4, 6);
    e := EntryFor(c, r, 6, 7);
    RunInv(c, r, 5);
    RunStep(c, r, 5);
    ResumedState(c, r.worlds[5], r.steps[5], r.worlds[6]);
    ResumeNoticesFacts(r.worlds[5].agent, RESTART.wall, 7);
    NobodyNotified();
    KillIsNotALimit();
    CutKillRetoldIff(c, r, 4, 6, 6, e);
  }

  lemma NobodyNotified()
    ensures NoticeAfter(NewAgent(LIVE.state), 7, RESTART.wall) == None
  {
  }

  // ---- notified and stopped in one pass ----

  lemma DueByTheTimer()
    ensures FirstNoticed(UNDER_DRAIN, 7, RESTART.wall) && PlanStop(UNDER_DRAIN, 7, RESTART.wall) <= RESTART.wall
  {
  }

  /** A drain's deadline passes with no timer handled in between: one pass notifies the attempt and stops it. */
  lemma StoppedInTheSameBreath(c: Codec) returns (r: Run)
    requires Lawful(c)
    ensures IsRun(c, r) && |r.steps| == 6 && r.steps[5] == Deliver(TimersDue, RESTART)
    ensures 7 !in StateAt(r, 5).noticeIntents && 7 !in r.worlds[5].stops
    ensures 7 in StateAt(r, 6).noticeIntents && 7 in r.worlds[6].stops
  {
    hide Next, Init, Performed, FirstNoticed, PlanStop;
    r := DrainingRun(c);
    var w := Delivers(c, Last(r), TimersDue, RESTART);
    ThenIsRun(c, r, Deliver(TimersDue, RESTART), w);
    r := Then(r, Deliver(TimersDue, RESTART), w);
    DueByTheTimer();
    NotifiedNowStoppedNowIff(c, r, 5, 7);
  }

  // ---- a start dropped, and called running ----

  const MALFORMED_START := Command(Some(Header(Some(TOKEN), 2)),
                                   Some(StartJobBody(StartJob(Some(StartIds(7, 8, 9)), false, true, None, None,
                                                              Sigterm, 0, 0, 0))))

  const DEAF: Agent := REGISTERED.(lastSeq := Some(2))

  lemma MalformedIsDropped()
    ensures DroppedStart(REGISTERED, MALFORMED_START)
    ensures HandleCommand(REGISTERED, NO_CONTAINERS, MALFORMED_START, NOON) == Unchanged(DEAF)
    ensures HandleCommand(DEAF, NO_CONTAINERS, MALFORMED_START, NOON) == Out(DEAF, [], [Running(DEAF, 7, 8, 9)])
  {
  }

  lemma Silent(c: Codec, w: World, cmd: Command, a: Agent, reports: seq<Report>) returns (w': World)
    requires Lawful(c) && HandleCommand(w.agent, w.rt, cmd, NOON) == Out(a, [], reports) && QueuesEmpty(a)
    ensures Next(c, w, Deliver(CommandArrives(cmd), NOON), w') && w'.agent == a && w'.rt == w.rt
    ensures Enabled(w, Deliver(CommandArrives(cmd), NOON)) && Sent(w, Deliver(CommandArrives(cmd), NOON)) == reports
  {
    hide Next, HandleCommand, WithSpecs;
    w' := Delivers(c, w, CommandArrives(cmd), NOON);
  }

  /** A malformed StartJob, delivered twice: nothing is journaled or started, and the second is answered Running. */
  lemma DroppedStartRuns(c: Codec) returns (r: Run)
    requires Lawful(c)
    ensures IsRun(c, r) && |r.steps| == 3 && DroppedStart(r.worlds[1].agent, MALFORMED_START)
    ensures r.steps[1] == r.steps[2] == Deliver(CommandArrives(MALFORMED_START), NOON)
    ensures Enabled(r.worlds[1], r.steps[1]) && Sent(r.worlds[1], r.steps[1]) == []
    ensures Enabled(r.worlds[2], r.steps[2]) && Sent(r.worlds[2], r.steps[2]) == [Running(r.worlds[2].agent, 7, 8, 9)]
    ensures 7 !in StateAt(r, 3).intents && StartCount(r.worlds[3].rt, 7) == 0
  {
    hide Next, Init, HandleCommand, DroppedStart, Sent;
    r := RegisteredRun(c);
    MalformedIsDropped();
    var step := Deliver(CommandArrives(MALFORMED_START), NOON);
    var w := Silent(c, Last(r), MALFORMED_START, DEAF, []);
    ThenIsRun(c, r, step, w);
    r := Then(r, step, w);
    var w' := Silent(c, w, MALFORMED_START, DEAF, [Running(DEAF, 7, 8, 9)]);
    ThenIsRun(c, r, step, w');
    r := Then(r, step, w');
  }

  // ---- a start in flight under two plans ----

  const INTERRUPTED := Plan(Some(OperatorDrain(1000, 0)), Some(5000))

  /** A start in flight, its bound lowered to the drain's stop. */
  const STARTING_DRAINED: Agent := STARTING.(
    state := STARTING.state.(plan := DRAINED_AT_1000), lastSeq := Some(3),
    launchBounds := map[7 := StartBound(Some(1000), None, Some(Drain))])

  /** The same with an interruption on top, and its bound set to `at`. */
  function StartingInterrupted(at: Timestamp): Agent {
    STARTING_DRAINED.(state := STARTING_DRAINED.state.(plan := INTERRUPTED),
                      launchBounds := map[7 := StartBound(Some(at), None, Some(Interruption))])
  }

  lemma {:induction false} StartsAreNotNotified(a: Agent, allocs: seq<AllocationId>, now: Timestamp)
    requires forall x :: x in allocs ==> x in a.starting
    ensures NotifyAll(a, allocs, now) == Unchanged(a)
    decreases |allocs|
  {
    if allocs != [] { StartsAreNotNotified(a, allocs[1..], now); }
  }

  lemma DrainRebounds()
    ensures WithPlan(STARTING.(lastSeq := Some(3)), DRAINED_AT_1000, 0) == STARTING_DRAINED
    ensures DueNotices(STARTING_DRAINED, 0) == {}
  {
    assert RefreshedBounds(STARTING.(state := STARTING_DRAINED.state, lastSeq := Some(3)), 0) ==
           STARTING_DRAINED.launchBounds;
  }

  lemma DrainHandledStarting()
    ensures HandleCommand(STARTING, NO_CONTAINERS, DRAIN_AT_1000, NOON) ==
              Out(STARTING_DRAINED, [Append(DrainPlan(DRAINED_AT_1000))], [])
  {
    hide BeginDueNotices, WithPlan, DueNotices;
    DrainRebounds();
    NobodyDue(STARTING_DRAINED, 0);
  }

  lemma InterruptionRebounds(now: Timestamp)
    requires 0 <= now <= 2000
    ensures WithPlan(STARTING_DRAINED, INTERRUPTED, now) == StartingInterrupted(if now < 1000 then 5000 else 1000)
  {
    var planned := STARTING_DRAINED.(state := STARTING_DRAINED.state.(plan := INTERRUPTED));
    assert RefreshedBounds(planned, now) == StartingInterrupted(if now < 1000 then 5000 else 1000).launchBounds;
  }

  lemma InterruptionHandled(now: Timestamp)
    requires 0 <= now <= 2000
    ensures OnInterruption(STARTING_DRAINED, 5000, now) ==
              Out(StartingInterrupted(if now < 1000 then 5000 else 1000), [Append(DrainPlan(INTERRUPTED))], [])
  {
    hide NotifyAll, WithPlan;
    InterruptionRebounds(now);
    var a := StartingInterrupted(if now < 1000 then 5000 else 1000);
    StartsAreNotNotified(a, Outstanding(a.state), now);
  }

  lemma SpawnedDrainedRun(c: Codec) returns (r: Run)
    requires Lawful(c)
    ensures IsRun(c, r) && |r.steps| == 3 && Spawned(Last(r), STARTING_DRAINED)
  {
    hide Next, Init, HandleCommand, DiskAfter;
    r := SpawnedRun(c);
    DrainHandledStarting();
    var w := Delivers(c, Last(r), CommandArrives(DRAIN_AT_1000), NOON);
    Appended(NO_CONTAINERS, DrainPlan(DRAINED_AT_1000));
    assert Allocations([]) == [];
    ThenIsRun(c, r, Deliver(CommandArrives(DRAIN_AT_1000), NOON), w);
    r := Then(r, Deliver(CommandArrives(DRAIN_AT_1000), NOON), w);
  }

  /** The runtime's clock moves to `now`. */
  lemma ClockMoves(c: Codec, w: World, now: Timestamp) returns (s: Step, w': World)
    requires Lawful(c)
    ensures s == RuntimeProgrammed(w.rt.(now := now)) && Next(c, w, s, w') && w' == w.(rt := w.rt.(now := now))
  {
    s, w' := RuntimeProgrammed(w.rt.(now := now)), w.(rt := w.rt.(now := now));
  }

  lemma Interrupts5000(c: Codec, w: World, clock: Clock) returns (w': World)
    requires Lawful(c) && w.agent == STARTING_DRAINED && 0 <= clock.wall <= 2000
    ensures Next(c, w, Deliver(Interrupted(5000), clock), w')
    ensures w' == w.(disk := w'.disk, agent := StartingInterrupted(if clock.wall < 1000 then 5000 else 1000))
  {
    hide Next, OnInterruption, DiskAfter;
    InterruptionHandled(clock.wall);
    w' := Delivers(c, w, Interrupted(5000), clock);
    Appended(w.rt, DrainPlan(INTERRUPTED));
    assert Allocations([]) == [];
    assert w'.inflight == w.inflight && w'.stops == w.stops && w'.reaps == w.reaps && w'.queued == w.queued;
  }

  lemma PastTheDrain()
    ensures TermsFor(INTERRUPTED, JOB, 2000) == Some(PlanTerms(MIN_MICROS, 1000, Interruption))
  {
  }

  lemma CreatedAt2000(c: Codec, w: World) returns (w': World)
    requires Lawful(c) && w.agent == StartingInterrupted(5000) && w.rt == NO_CONTAINERS.(now := 2000)
    requires w.inflight == multiset{7} && w.specs == map[7 := SPEC]
    ensures Next(c, w, RunStart(7, false), w') && StartCount(w.rt, 7) == 0 && StartCount(w'.rt, 7) == 1
  {
    w' := w.(rt := StartRun(w, 7, false).0, inflight := w.inflight - multiset{7},
             startsDone := w.startsDone + {(7, StartRun(w, 7, false).1)});
  }

  /**
   * An interruption with a later deadline arrives before the drain's notice time, and hands a start in flight
   * the later bound. The container is created at 2000 under a plan whose stop for it was 1000.
   */
  lemma CreatedPastTheDrain(c: Codec) returns (r: Run)
    requires Lawful(c)
    ensures IsRun(c, r) && |r.steps| == 6 && r.steps[3] == Deliver(Interrupted(5000), NOON)
    ensures StartCount(r.worlds[5].rt, 7) == 0 && StartCount(r.worlds[6].rt, 7) == 1
    ensures r.worlds[5].rt.now == 2000 && 7 in StateAt(r, 5).intents
    ensures var terms := TermsFor(StateAt(r, 5).plan, StateAt(r, 5).intents[7], 2000);
            terms.Some? && terms.value.stopAt == 1000
  {
    hide Next, Init;
    r := SpawnedDrainedRun(c);
    var w := Interrupts5000(c, Last(r), NOON);
    ThenIsRun(c, r, Deliver(Interrupted(5000), NOON), w);
    r := Then(r, Deliver(Interrupted(5000), NOON), w);
    var s, w1 := ClockMoves(c, w, 2000);
    ThenIsRun(c, r, s, w1);
    r := Then(r, s, w1);
    var w2 := CreatedAt2000(c, w1);
    ThenIsRun(c, r, RunStart(7, false), w2);
    r := Then(r, RunStart(7, false), w2);
    PastTheDrain();
  }

  lemma RefusedAt1000(c: Codec, w: World) returns (w': World)
    requires Lawful(c) && w.agent == STARTING_DRAINED && w.rt == NO_CONTAINERS.(now := 2000)
    requires w.inflight == multiset{7} && w.specs == map[7 := SPEC] && w.startsDone == {}
    ensures Next(c, w, RunStart(7, false), w') && RefusedAt(w, RunStart(7, false), 7, 1000)
    ensures w'.agent == w.agent && w'.startsDone == {(7, Failed(LaunchBoundPassed(1000)))}
  {
    w' := w.(rt := StartRun(w, 7, false).0, inflight := w.inflight - multiset{7},
             startsDone := w.startsDone + {(7, StartRun(w, 7, false).1)});
  }

  /**
   * A launch is refused at the drain's stop. An interruption is set before the answer is handled, and lowers the
   * bound again: the refusal is journaled as the interruption's, though the drain refused it.
   */
  lemma RefusalBlamedOnAnother(c: Codec) returns (r: Run)
    requires Lawful(c)
    ensures IsRun(c, r) && |r.steps| == 7
    ensures RefusedAt(r.worlds[4], r.steps[4], 7, 1000) && AnswersRefusal(r.steps[6], 7, 1000)
    ensures ReasonOf(StateAt(r, 4).plan) == Drain
    ensures 7 in StateAt(r, 7).exits && StateAt(r, 7).exits[7].outcome == Preempted(Interruption)
  {
    hide Next, Init, RefusedAt, Performed, Handle, ReasonMoves, LoweredOnlyFor;
    r := SpawnedDrainedRun(c);
    var s, w := ClockMoves(c, Last(r), 2000);
    ThenIsRun(c, r, s, w);
    r := Then(r, s, w);
    var w1 := RefusedAt1000(c, w);
    ThenIsRun(c, r, RunStart(7, false), w1);
    r := Then(r, RunStart(7, false), w1);
    var w2 := Interrupts5000(c, w1, RESTART);
    ThenIsRun(c, r, Deliver(Interrupted(5000), RESTART), w2);
    r := Then(r, Deliver(Interrupted(5000), RESTART), w2);
    var answer := StartFinished(7, Failed(LaunchBoundPassed(1000)));
    var w3 := Delivers(c, w2, answer, RESTART);
    ThenIsRun(c, r, Deliver(answer, RESTART), w3);
    r := Then(r, Deliver(answer, RESTART), w3);
    RefusedLaunchIsTold(c, r, 4, 6, 7, 1000);
  }

  // ---- a watchdog swallowed, and the bound granted again ----

  const LATE := Clock(1500, 1500)

  const DEAF_STARTING: Agent := ResetSession(STARTING)

  const HEARD_STARTING: Agent := STARTING.(lastSeq := Some(1))

  lemma RunningWhileStarting(c: Codec) returns (r: Run)
    requires Lawful(c)
    ensures IsRun(c, r) && |r.steps| == 4 && r.steps[3] == Deliver(Reconnects, NOON)
    ensures Last(r).agent == DEAF_STARTING && Last(r).rt == ONE_CONTAINER && (7, Started) in Last(r).startsDone
  {
    hide Next, Init, DiskAfter;
    r := SpawnedRun(c);
    var w := Launches(c, Last(r));
    ThenIsRun(c, r, RunStart(7, false), w);
    r := Then(r, RunStart(7, false), w);
    var w1 := Delivers(c, w, Reconnects, NOON);
    ThenIsRun(c, r, Deliver(Reconnects, NOON), w1);
    r := Then(r, Deliver(Reconnects, NOON), w1);
  }

  lemma RegisteredWhileStarting()
    ensures var o := HandleCommand(DEAF_STARTING, ONE_CONTAINER, REGISTER, NOON);
            Drained(o.agent) == HEARD_STARTING && o.fx == [Observe]
  {
    hide UnresolveAll, SpentIds, Rearmed, Seen;
  }

  lemma LookingChangesNothing(rt: Runtime)
    requires !rt.failObserve
    ensures RuntimeAfter(rt, [Observe]) == rt
  {
    OneEffect(EMPTY, rt, {}, Observe);
  }

  lemma StartedLate()
    ensures var o := FinishStart(HEARD_STARTING, 7, Started, LATE);
            o.fx == [] && o.agent.armedWatchdogs == [ArmedWatchdog(7, 1000, 1500)] && o.agent.state.exits == map[]
  {
  }

  lemma Reregisters(c: Codec, r: Run) returns (w: World)
    requires Lawful(c) && IsRun(c, r) && Last(r).agent == DEAF_STARTING && Last(r).rt == ONE_CONTAINER
    ensures IsRun(c, Then(r, Deliver(CommandArrives(REGISTER), NOON), w))
    ensures w.agent == HEARD_STARTING && w.rt == ONE_CONTAINER && w.startsDone == Last(r).startsDone
  {
    hide Next, Init, HandleCommand, DiskAfter, WithSpecs;
    RegisteredWhileStarting();
    w := Delivers(c, Last(r), CommandArrives(REGISTER), NOON);
    LookingChangesNothing(ONE_CONTAINER);
    ThenIsRun(c, r, Deliver(CommandArrives(REGISTER), NOON), w);
  }

  lemma FiresUnheard(c: Codec, r: Run) returns (w: World)
    requires Lawful(c) && IsRun(c, r) && Last(r).agent == HEARD_STARTING && Last(r).rt == ONE_CONTAINER
    ensures IsRun(c, Then(r, Deliver(WatchdogFires(7), OVERDUE), w))
    ensures w.agent == HEARD_STARTING && w.rt == ONE_CONTAINER && w.startsDone == Last(r).startsDone
  {
    hide Next, Init, WithSpecs;
    w := Delivers(c, Last(r), WatchdogFires(7), OVERDUE);
    ThenIsRun(c, r, Deliver(WatchdogFires(7), OVERDUE), w);
  }

  lemma ComesBackLate(c: Codec, r: Run) returns (w: World)
    requires Lawful(c) && IsRun(c, r) && Last(r).agent == HEARD_STARTING && Last(r).rt == ONE_CONTAINER
    requires (7, Started) in Last(r).startsDone
    ensures IsRun(c, Then(r, Deliver(StartFinished(7, Started), LATE), w))
    ensures w.rt == ONE_CONTAINER && w.agent.state.exits == map[]
    ensures ArmedBy(Last(r), Deliver(StartFinished(7, Started), LATE)) == [ArmedWatchdog(7, 1000, 1500)]
  {
    hide Next, Init, FinishStart, DiskAfter, WithSpecs;
    StartedLate();
    w := Delivers(c, Last(r), StartFinished(7, Started), LATE);
    ThenIsRun(c, r, Deliver(StartFinished(7, Started), LATE), w);
  }

  /**
   * A container outlives its bound of 1000 while its start has not come back. A reconnect armed its watchdog in
   * time; the watchdog fires, is swallowed, and the start that comes back at 1500 is granted 1000 more.
   */
  lemma BudgetIsGrantedAgain(c: Codec) returns (r: Run)
    requires Lawful(c)
    ensures IsRun(c, r) && |r.steps| == 7
    ensures r.steps[5] == Deliver(WatchdogFires(7), OVERDUE) && Swallows(r.worlds[5], r.steps[5], 7)
    ensures 7 in DeadlinesAt(r, 5) && DeadlinesAt(r, 5)[7] <= 1000
    ensures r.steps[6] == Deliver(StartFinished(7, Started), LATE) && 7 in r.worlds[7].rt.running
    ensures 7 in DeadlinesAt(r, 7) && DeadlinesAt(r, 7)[7] == 2500
  {
    hide Next, Init, DeadlinesAt, ArmedBy, HeldBy, WatchKept;
    r := RunningWhileStarting(c);
    var w := Reregisters(c, r);
    r := Then(r, Deliver(CommandArrives(REGISTER), NOON), w);
    HeldAtFirst(c, r);
    var armed := r;
    w := FiresUnheard(c, r);
    r := Then(r, Deliver(WatchdogFires(7), OVERDUE), w);
    HandedOverWatchdogEndsIff(c, r, 5, 7);
    var fired := r;
    w := ComesBackLate(c, r);
    r := Then(r, Deliver(StartFinished(7, Started), LATE), w);
    SameHistory(armed, r, 5);
    SameHistory(fired, r, 6);
    GrantedLate(r);
  }

  lemma HeldAtFirst(c: Codec, r: Run)
    requires Lawful(c) && IsRun(c, r) && |r.steps| == 5 && r.steps[4] == Deliver(CommandArrives(REGISTER), NOON)
    requires r.worlds[4].agent == DEAF_STARTING && r.worlds[4].rt == ONE_CONTAINER && r.worlds[5].rt == ONE_CONTAINER
    requires StateAt(r, 5) == STARTING.state
    ensures 7 in DeadlinesAt(r, 5) && DeadlinesAt(r, 5)[7] <= 1000
  {
    hide Next, Init, DeadlinesAfter;
    BudgetHeldIff(c, r, 4, 5, REGISTER, 0, 7);
    assert WatchKept(r, 4, 5, 7);
  }

  /** Deadlines depend on the run so far only. */
  lemma {:induction false} SameHistory(r: Run, t: Run, i: nat)
    requires |r.worlds| == |r.steps| + 1 && |t.worlds| == |t.steps| + 1 && i < |r.worlds|
    requires r.worlds <= t.worlds && r.steps <= t.steps
    ensures DeadlinesAt(t, i) == DeadlinesAt(r, i)
  {
    hide DeadlinesAfter;
    if i > 0 { SameHistory(r, t, i - 1); }
  }

  lemma GrantedLate(r: Run)
    requires |r.steps| == 7 && |r.worlds| == 8 && r.steps[6] == Deliver(StartFinished(7, Started), LATE)
    requires ArmedBy(r.worlds[6], r.steps[6]) == [ArmedWatchdog(7, 1000, 1500)]
    requires 7 !in DeadlinesAt(r, 6) && StateAt(r, 7).exits == map[]
    ensures 7 in DeadlinesAt(r, 7) && DeadlinesAt(r, 7)[7] == 2500
  {
    hide ArmedBy;
    var ds := DeadlinesAt(r, 6);
    assert DeadlinesAt(r, 7) == Folded(ds, [ArmedWatchdog(7, 1000, 1500)]) - {};
    assert [ArmedWatchdog(7, 1000, 1500)][1..] == [];
  }
}
