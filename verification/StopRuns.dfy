/** Stops over whole runs: never two in flight for one allocation, and no exit seen meanwhile is dropped. */
module StopRuns {
  import opened Types
  import opened JournalState
  import opened Framing
  import opened Executor
  import opened SessionSpec
  import opened Effects
  import opened SessionProofs
  import opened SessionFacts
  import opened System
  import opened SystemProofs
  import opened Runs

  // ---- what a handler queues ----

  ghost predicate Distinct(stops: seq<StopRequest>) {
    forall i, j :: 0 <= i < j < |stops| ==> stops[i].allocation != stops[j].allocation
  }

  /** No allocation is in both tables. */
  predicate Apart(a: Agent) { a.starting !! a.stopping }

  /** From queues empty of stops: what is queued was not being stopped, once each, and now is. */
  ghost predicate QueuesFreshStops(a: Agent, b: Agent) {
    && Apart(b) && a.stopping <= b.stopping && Distinct(b.pendingStops)
    && forall i :: 0 <= i < |b.pendingStops| ==>
         b.pendingStops[i].allocation !in a.stopping && b.pendingStops[i].allocation in b.stopping
  }

  predicate KeepsStops(a: Agent, b: Agent) {
    b.stopping == a.stopping && b.pendingStops == a.pendingStops && b.starting == a.starting
  }

  lemma NoticesKeepStops(a: Agent, b: Agent)
    requires OnlyNotices(a, b)
    ensures KeepsStops(a, b)
  {
  }

  function StopIds(stops: seq<StopRequest>): seq<AllocationId> {
    seq(|stops|, i requires 0 <= i < |stops| => stops[i].allocation)
  }

  lemma BeginOneStop(a: Agent, alloc: AllocationId)
    requires alloc in a.state.intents
    ensures var b := BeginStop(a, alloc).agent;
            && b.starting == a.starting && b.stopping == a.stopping + {alloc} && b.state.intents == a.state.intents
            && StopIds(b.pendingStops) == StopIds(a.pendingStops) + [alloc]
  {
  }

  /** Beginning the stops of listed allocations queues each of them once, in order. */
  lemma {:induction false} BeginStopsQueues(a: Agent, allocs: seq<AllocationId>)
    requires forall x :: x in allocs ==> x in a.state.intents
    ensures var b := BeginStops(a, allocs).agent;
            && b.starting == a.starting
            && b.stopping == a.stopping + (set x | x in allocs)
            && StopIds(b.pendingStops) == StopIds(a.pendingStops) + allocs
    decreases |allocs|
  {
    hide BeginStop, StopIds;
    if allocs != [] {
      BeginOneStop(a, allocs[0]);
      BeginStopsQueues(BeginStop(a, allocs[0]).agent, allocs[1..]);
      assert allocs == [allocs[0]] + allocs[1..];
      assert forall x :: x in allocs <==> x == allocs[0] || x in allocs[1..];
    }
  }

  lemma BeginDueStopsQueues(n: Agent, now: Timestamp)
    requires Apart(n) && n.pendingStops == []
    ensures QueuesFreshStops(n, BeginDueStops(n, now).agent)
  {
    hide BeginStops, StopDue, Ascending;
    var due := Ascending(DueStops(n, now));
    BeginStopsQueues(n, due);
    var b := BeginStops(n, due).agent;
    assert StopIds(b.pendingStops) == due;
    forall i | 0 <= i < |b.pendingStops| ensures b.pendingStops[i].allocation == due[i] && due[i] in due {
      assert StopIds(b.pendingStops)[i] == due[i];
    }
  }

  lemma OnTimersStops(a: Agent, now: Timestamp)
    requires Apart(a) && a.pendingStops == []
    ensures QueuesFreshStops(a, OnTimers(a, now).agent)
  {
    hide NotifyAll, BeginDueStops, DueNotices, Ascending, OnlyNotices;
    var notices := Ascending(DueNotices(a, now));
    NotifyAllFacts(a, notices, now, 0);
    NoticesKeepStops(a, NotifyAll(a, notices, now).agent);
    BeginDueStopsQueues(NotifyAll(a, notices, now).agent, now);
  }

  lemma OnStopJobStops(a: Agent, target: Option<AllocationId>, graceUs: i64)
    requires Apart(a) && a.pendingStops == []
    ensures QueuesFreshStops(a, OnStopJob(a, target, graceUs).agent)
  {
  }

  lemma ArmedStops(a: Agent, alloc: AllocationId, i: Intent, clock: Clock)
    ensures KeepsStops(a, Armed(a, alloc, i, clock))
  {
  }

  lemma StartedStops(a: Agent, alloc: AllocationId, i: Intent, clock: Clock)
    requires Apart(a) && a.pendingStops == [] && alloc !in a.stopping && alloc !in a.starting
    ensures QueuesFreshStops(a, StartedOut(a, alloc, i, clock).agent)
  {
    hide NotifyUnderPlan, OnlyNotices, Armed;
    var a1 := Armed(a, alloc, i, clock);
    ArmedStops(a, alloc, i, clock);
    NotifyUnderPlanFacts(a1, alloc, clock.wall);
    NoticesKeepStops(a1, NotifyUnderPlan(a1, alloc, clock.wall).agent);
  }

  lemma FinishStartStops(a: Agent, alloc: AllocationId, result: StartResult, clock: Clock)
    requires Apart(a) && a.pendingStops == []
    ensures QueuesFreshStops(a, FinishStart(a, alloc, result, clock).agent)
  {
    hide StartedOut, PlanRefusal, StartErrorOutcome;
    if alloc in a.starting && alloc in a.state.intents && result.Started? {
      StartedStops(a.(launchBounds := a.launchBounds - {alloc}, starting := a.starting - {alloc}), alloc,
                   a.state.intents[alloc], clock);
    }
  }

  lemma OpenedStops(a: Agent, i: Intent, latestStart: Option<Timestamp>, now: Timestamp)
    requires AgentOk(a) && Apart(a) && i.allocation !in a.state.intents
    ensures var b := Opened(a, i, latestStart, now);
            b.stopping == a.stopping && b.pendingStops == a.pendingStops && Apart(b)
  {
    hide Accounted, Rebound, TermsFor;
  }

  lemma LaunchStops(a: Agent, sj: StartJob, latestStart: Option<Timestamp>, clock: Clock)
    requires AgentOk(a) && Apart(a) && a.pendingStops == [] && sj.ids.Some?
             && sj.ids.value.allocation !in a.state.intents
    ensures QueuesFreshStops(a, Launch(a, sj, latestStart, clock).agent)
  {
    hide FinishStart, Opened, AgentOk;
    var i := IntentFor(a, sj);
    var a1 := Opened(a, i, latestStart, clock.wall);
    OpenedStops(a, i, latestStart, clock.wall);
    if latestStart.Some? { FinishStartStops(a1, i.allocation, Failed(LaunchBoundPassed(latestStart.value)), clock); }
  }

  lemma OnStartJobStops(a: Agent, sj: StartJob, clock: Clock)
    requires AgentOk(a) && Apart(a) && a.pendingStops == []
    ensures QueuesFreshStops(a, OnStartJob(a, sj, clock).agent)
  {
    hide Launch, DoorRefusal, FromMicros, AgentOk, CurrentStatus;
    if sj.ids.Some? && sj.ids.value.allocation !in a.state.intents {
      var latestStart := if sj.latestStartUs.None? then None else FromMicros(sj.latestStartUs.value);
      LaunchStops(a, sj, latestStart, clock);
    }
  }

  lemma OnPreemptStops(a: Agent, victim: Option<AllocationId>, why: Option<PreemptReason>, noticeUs: u64,
                       now: Timestamp)
    ensures KeepsStops(a, OnPreempt(a, victim, why, noticeUs, now).agent)
  {
    hide SignalAndMark, Notify, TermsFor, NoticeReports;
    if victim.Some? && why.Some? && victim.value in a.state.intents {
      var alloc := victim.value;
      var terms := TermsFor(a.state.plan, a.state.intents[alloc], now);
      var asked := SatAdd(now, RuntimeBound(noticeUs));
      var stopAt := if terms.Some? then Min(asked, terms.value.stopAt) else asked;
      SignalAndMarkFacts(a, alloc, stopAt, now);
      NotifyFacts(a, alloc, why.value, stopAt, now);
    }
  }

  lemma PlanKeepsStops(a: Agent, p: Plan, allocs: seq<AllocationId>, now: Timestamp)
    ensures KeepsStops(a, WithPlan(a, p, now)) && KeepsStops(a, NotifyAll(WithPlan(a, p, now), allocs, now).agent)
  {
    hide NotifyAll, RefreshedBounds;
    NotifyAllFacts(WithPlan(a, p, now), allocs, now, 0);
  }

  lemma OnDrainStops(a: Agent, deadlineUs: Option<i64>, windowUs: u64, now: Timestamp)
    ensures KeepsStops(a, OnDrain(a, deadlineUs, windowUs, now).agent)
  {
    hide NotifyAll, WithPlan, DueNotices, FromMicros;
    var target := if deadlineUs.None? then None else FromMicros(deadlineUs.value);
    var p := a.state.plan.(operator :=
      if target.None? then None else Some(OperatorDrain(target.value, RuntimeBound(windowUs))));
    PlanKeepsStops(a, p, Ascending(DueNotices(WithPlan(a, p, now), now)), now);
  }

  lemma OnInterruptionStops(a: Agent, deadline: Timestamp, now: Timestamp)
    ensures KeepsStops(a, OnInterruption(a, deadline, now).agent)
  {
    hide NotifyAll, WithPlan, Outstanding;
    var p := a.state.plan.(interruption := Some(deadline));
    PlanKeepsStops(a, p, Outstanding(WithPlan(a, p, now).state), now);
  }

  lemma ResumeNoticesStops(a: Agent, now: Timestamp)
    ensures KeepsStops(a, ResumeNotices(a, now).agent)
  {
    hide NotifyAll, ResumeAll, WithPlan, Outstanding;
    var live := Outstanding(a.state);
    var o := if a.state.plan == NO_PLAN then ResumeAll(a, live, now) else NotifyAll(a, live, now);
    ResumeAllFacts(a, live, now);
    NotifyAllFacts(a, live, now, 0);
    PlanKeepsStops(o.agent, o.agent.state.plan.(interruption := None), [], now);
  }

  lemma OnFreshStops(a: Agent, body: Body, clock: Clock)
    requires AgentOk(a) && Apart(a) && a.pendingStops == []
    ensures QueuesFreshStops(a, OnFresh(a, body, clock).agent)
  {
    hide OnStartJob, OnStopJob, OnPreempt, OnDrain, AgentOk;
    match body
    case StartJobBody(sj) => OnStartJobStops(a, sj, clock);
    case StopJobBody(target, grace) => OnStopJobStops(a, target, grace);
    case PreemptJobBody(victim, why, notice) => OnPreemptStops(a, victim, why, notice, clock.wall);
    case DrainBody(deadline, window) => OnDrainStops(a, deadline, window, clock.wall);
    case _ =>
  }

  lemma HandleCommandStops(a: Agent, rt: Runtime, cmd: Command, clock: Clock)
    requires AgentOk(a) && Apart(a) && a.pendingStops == []
    ensures QueuesFreshStops(a, HandleCommand(a, rt, cmd, clock).agent)
  {
    hide Admit, OnFresh, AgentOk, SpentIds, Rearmed, UnresolveAll, Seen;
    if Accepts(a, cmd) {
      var r := Admit(a, cmd.header.value);
      AdmitSound(a, cmd.header.value, rt, {});
      AdmitKeeps(a, cmd.header.value);
      OnFreshStops(r.agent, cmd.body.value, clock);
    }
  }

  lemma RecordExitKeepsStops(a: Agent, alloc: AllocationId, outcome: Outcome, runtime: Duration)
    requires alloc in a.state.intents
    ensures KeepsStops(a, RecordExit(a, alloc, outcome, runtime).agent)
  {
  }

  lemma OnMaxRuntimeStops(a: Agent, rt: Runtime, alloc: AllocationId)
    ensures KeepsStops(a, OnMaxRuntime(a, rt, alloc).agent)
  {
    hide ClassifyStop, StopContainer, AttributionOf, RecordExit;
    if alloc in a.state.intents {
      var classified := ClassifyStop(StopContainer(rt, alloc).1, RuntimeLimitExceeded, AttributionOf(a.state, alloc));
      if classified.Some? { RecordExitKeepsStops(a, alloc, classified.value.0, classified.value.1); }
    }
  }

  lemma OnObservedExitStops(a: Agent, alloc: AllocationId, exit: ExitInfo)
    ensures KeepsStops(a, OnObservedExit(a, alloc, exit).agent)
  {
    hide ClassifyExit, AttributionOf, RecordExit;
    if alloc in a.state.intents {
      RecordExitKeepsStops(a.(stopRetryAt := a.stopRetryAt - {alloc}), alloc,
                           ClassifyExit(exit, AttributionOf(a.state, alloc)), exit.runtime);
    }
  }

  lemma FinishStopStops(a: Agent, alloc: AllocationId, result: StopResult, now: Timestamp)
    ensures KeepsStops(a.(stopping := a.stopping - {alloc}), FinishStop(a, alloc, result, now).agent)
  {
    hide StopVerdict;
  }

  /** Every event but a stop's own result leaves stops in flight in flight and queues only fresh ones. */
  lemma HandleStops(a: Agent, rt: Runtime, ev: Event, clock: Clock)
    requires AgentOk(a) && Apart(a) && a.pendingStops == [] && !ev.StopFinished?
    ensures QueuesFreshStops(a, Handle(a, rt, ev, clock).agent)
  {
    hide HandleCommand, FinishStart, OnObservedExit, OnMaxRuntime, OnTimers, OnInterruption, ResumeNotices, AgentOk;
    match ev
    case CommandArrives(cmd) => HandleCommandStops(a, rt, cmd, clock);
    case StartFinished(alloc, result) => FinishStartStops(a, alloc, result, clock);
    case TimersDue => OnTimersStops(a, clock.wall);
    case Interrupted(deadline) => OnInterruptionStops(a, deadline, clock.wall);
    case Resumes => ResumeNoticesStops(a, clock.wall);
    case ExitSeen(alloc, exit) => OnObservedExitStops(a, alloc, exit);
    case WatchdogFires(alloc) => OnMaxRuntimeStops(a, rt, alloc);
    case _ =>
  }

  // ---- runs ----

  /** Each stop in flight is marked as such, and has either not run yet or exactly one result on its way. */
  ghost predicate StopsOk(w: World) {
    && Apart(w.agent)
    && (forall x :: x in w.stops ==> x in w.agent.stopping)
    && (forall d :: d in w.stopsDone ==> d.0 in w.agent.stopping && d.0 !in w.stops)
    && (forall d, e :: d in w.stopsDone && e in w.stopsDone && d.0 == e.0 ==> d == e)
  }

  lemma DeliveredStops(c: Codec, w: World, ev: Event, clock: Clock)
    requires Lawful(c) && AgentOk(w.agent) && w.agent.pendingStops == [] && StopsOk(w) && Ready(w, ev)
    ensures StopsOk(Performed(c, Taken(w, ev), Handle(w.agent, Taken(w, ev).rt, ev, clock)))
  {
    hide Handle, AgentOk, DiskAfter, RuntimeAfter, WithSpecs;
    var b := Handle(w.agent, Taken(w, ev).rt, ev, clock).agent;
    if ev.StopFinished? {
      StopResultDelivered(w.agent, Taken(w, ev).rt, ev, clock);
    } else {
      HandleStops(w.agent, Taken(w, ev).rt, ev, clock);
      forall s | s in b.pendingStops ensures s.allocation !in w.agent.stopping && s.allocation in b.stopping {
        var i :| 0 <= i < |b.pendingStops| && b.pendingStops[i] == s;
      }
    }
  }

  lemma StopResultDelivered(a: Agent, rt: Runtime, ev: Event, clock: Clock)
    requires ev.StopFinished?
    ensures KeepsStops(a.(stopping := a.stopping - {ev.alloc}), Handle(a, rt, ev, clock).agent)
  {
    FinishStopStops(a, ev.alloc, ev.stopResult, clock.wall);
  }

  lemma StepStops(c: Codec, w: World, s: Step, w': World)
    requires Lawful(c) && Inv(c, w) && Next(c, w, s, w') && StopsOk(w)
    ensures StopsOk(w')
  {
    hide Inv, Handle, Performed, Scan, Canonical, EncodeLog, CrashedDisk, RuntimeAfter, AgentOk, StartRun,
         StopContainer;
    InvQueues(c, w);
    if s.Deliver? { DeliveredStops(c, w, s.ev, s.clock); }
  }

  lemma {:induction false} RunStops(c: Codec, r: Run, i: nat)
    requires Lawful(c) && IsRun(c, r) && i < |r.worlds|
    ensures StopsOk(r.worlds[i])
  {
    hide Inv, Next, EncodeLog, Canonical;
    if i > 0 {
      RunStops(c, r, i - 1);
      RunInv(c, r, i - 1);
      RunStep(c, r, i - 1);
      StepStops(c, r.worlds[i - 1], r.steps[i - 1], r.worlds[i]);
    }
  }

  /** A stop is never spawned twice: when one is queued, no earlier one of that allocation is unrun or unanswered. */
  lemma NeverTwoStops(c: Codec, r: Run, i: nat, a: AllocationId)
    requires Lawful(c) && IsRun(c, r) && i < |r.steps| && r.steps[i].Deliver? && Enabled(r.worlds[i], r.steps[i])
    requires exists s :: s in Interrupts(r.worlds[i], r.steps[i]).agent.pendingStops && s.allocation == a
    ensures a !in r.worlds[i].stops && (forall d :: d in r.worlds[i].stopsDone ==> d.0 != a)
    ensures Distinct(Interrupts(r.worlds[i], r.steps[i]).agent.pendingStops)
  {
    hide Inv, Next, Init, Handle, AgentOk;
    var w, s := r.worlds[i], r.steps[i];
    RunInv(c, r, i);
    RunStops(c, r, i);
    InvQueues(c, w);
    var q := Interrupts(w, s).agent.pendingStops;
    if s.ev.StopFinished? {
      StopResultDelivered(w.agent, Taken(w, s.ev).rt, s.ev, s.clock);
    } else {
      HandleStops(w.agent, Taken(w, s.ev).rt, s.ev, s.clock);
      var k :| 0 <= k < |q| && q[k].allocation == a;
    }
  }

  // ---- an exit seen is kept ----

  /** The exit is in the journal or waits for a stop's answer. */
  predicate HoldsExit(a: Agent, x: AllocationId) { x in a.deferredExits || x in a.state.exits }

  /** Whatever a stop comes back with, the exit held for it is journaled then. */
  lemma FinishStopJournalsHeld(a: Agent, alloc: AllocationId, result: StopResult, now: Timestamp)
    requires AgentOk(a) && alloc in a.deferredExits
    ensures alloc in FinishStop(a, alloc, result, now).agent.state.exits
  {
    hide Accounted, ClassifyExit, AttributionOf;
  }

  lemma FinishStopKeepsHeld(a: Agent, alloc: AllocationId, result: StopResult, now: Timestamp, x: AllocationId)
    requires AgentOk(a) && HoldsExit(a, x)
    ensures HoldsExit(FinishStop(a, alloc, result, now).agent, x)
  {
    hide Accounted, StopVerdict;
    if x == alloc && x in a.deferredExits { FinishStopJournalsHeld(a, alloc, result, now); }
  }

  lemma OnObservedExitHolds(a: Agent, alloc: AllocationId, exit: ExitInfo, x: AllocationId)
    ensures HoldsExit(a, x) || (x == alloc && alloc in a.state.intents) ==>
              HoldsExit(OnObservedExit(a, alloc, exit).agent, x)
  {
    hide ClassifyExit, AttributionOf;
  }

  lemma OnMaxRuntimeHolds(a: Agent, rt: Runtime, alloc: AllocationId, x: AllocationId)
    requires HoldsExit(a, x)
    ensures HoldsExit(OnMaxRuntime(a, rt, alloc).agent, x)
  {
    hide ClassifyStop, StopContainer, AttributionOf;
  }

  lemma StillHolds(a: Agent, b: Agent, x: AllocationId)
    requires HoldsExit(a, x) && b.deferredExits == a.deferredExits && Later(a.state, b.state)
    ensures HoldsExit(b, x)
  {
  }

  lemma HandleKeepsHeld(c: Codec, w: World, ev: Event, clock: Clock, x: AllocationId)
    requires Lawful(c) && Inv(c, w) && Ready(w, ev) && HoldsExit(w.agent, x)
    ensures HoldsExit(Handle(w.agent, Taken(w, ev).rt, ev, clock).agent, x)
  {
    hide Inv, HandleCommand, FinishStart, FinishStop, OnObservedExit, OnMaxRuntime, OnTimers, OnInterruption,
         ResumeNotices, AgentOk, Sound, Later, EffectsOk, StateAfter, RuntimeAfter;
    var a, rt := w.agent, Taken(w, ev).rt;
    var o := Handle(a, rt, ev, clock);
    InvQueues(c, w);
    HandledProgress(c, w, ev, clock, |o.fx|);
    match ev
    case CommandArrives(cmd) =>
      NothingBeforeIntent(c, w);
      HandleCommandSound(a, w.rt, cmd, clock, Unstarted(w));
      StillHolds(a, o.agent, x);
    case StartFinished(alloc, result) =>
      FinishStartSound(a, alloc, result, clock, NO_CONTAINERS, {});
      StillHolds(a, o.agent, x);
    case StopFinished(alloc, result) => FinishStopKeepsHeld(a, alloc, result, clock.wall, x);
    case ExitSeen(alloc, exit) => OnObservedExitHolds(a, alloc, exit, x);
    case WatchdogFires(alloc) => OnMaxRuntimeHolds(a, rt, alloc, x);
    case TimersDue =>
      OnTimersSound(a, clock.wall, NO_CONTAINERS, {});
      StillHolds(a, o.agent, x);
    case Interrupted(deadline) =>
      OnInterruptionSound(a, deadline, clock.wall, NO_CONTAINERS, {});
      StillHolds(a, o.agent, x);
    case Resumes =>
      ResumeNoticesSound(a, clock.wall, NO_CONTAINERS, {});
      StillHolds(a, o.agent, x);
    case _ => StillHolds(a, o.agent, x);
  }

  /** No crash in `[i, j)`. */
  predicate Uninterrupted(r: Run, i: nat, j: nat) {
    forall k :: i <= k < j && k < |r.steps| ==> !r.steps[k].Crash?
  }

  lemma StepKeepsHeld(c: Codec, w: World, s: Step, w': World, x: AllocationId)
    requires Lawful(c) && Inv(c, w) && Next(c, w, s, w') && !s.Crash? && HoldsExit(w.agent, x)
    ensures HoldsExit(w'.agent, x)
  {
    hide Inv, Handle, DiskAfter, RuntimeAfter, WithSpecs, StartRun, StopRun;
    if s.Deliver? { HandleKeepsHeld(c, w, s.ev, s.clock, x); }
  }

  /**
   * An exit seen by the watcher is never dropped: from then on, until a crash hands it back to the
   * runtime's own evidence, it is journaled or held for the stop in flight, whose result journals it.
   */
  lemma {:induction false} SeenExitIsNeverDropped(c: Codec, r: Run, i: nat, j: nat, x: AllocationId)
    requires Lawful(c) && IsRun(c, r) && i <= j < |r.worlds| && Uninterrupted(r, i, j)
    requires HoldsExit(r.worlds[i].agent, x) ||
             (i < j && r.steps[i].Deliver? && r.steps[i].ev.ExitSeen? && r.steps[i].ev.alloc == x
              && x in StateAt(r, i).intents)
    ensures HoldsExit(r.worlds[j].agent, x)
    decreases j - i
  {
    hide Inv, Next, Init;
    if i < j {
      RunInv(c, r, i);
      RunStep(c, r, i);
      if HoldsExit(r.worlds[i].agent, x) {
        StepKeepsHeld(c, r.worlds[i], r.steps[i], r.worlds[i + 1], x);
      } else {
        SeenStep(c, r.worlds[i], r.steps[i], r.worlds[i + 1]);
      }
      SeenExitIsNeverDropped(c, r, i + 1, j, x);
    }
  }

  lemma SeenStep(c: Codec, w: World, s: Step, w': World)
    requires Lawful(c) && Next(c, w, s, w') && s.Deliver? && s.ev.ExitSeen? && s.ev.alloc in w.agent.state.intents
    ensures HoldsExit(w'.agent, s.ev.alloc)
  {
    hide OnObservedExit, DiskAfter, RuntimeAfter, WithSpecs;
    OnObservedExitHolds(w.agent, s.ev.alloc, s.ev.exit, s.ev.alloc);
  }
}
