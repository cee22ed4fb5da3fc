/** The drain plan over whole runs: what bound a start is held to, when one starts past its stop, what is admitted. */
module PlanRuns {
  import opened Types
  import opened JournalState
  import opened Framing
  import opened Executor
  import opened SessionSpec
  import opened Effects
  import opened SessionProofs
  import opened Bystanders
  import opened System
  import opened SystemProofs
  import opened Runs
  import opened StopRuns
  import opened DrainPlans

  // ---- one handler and one launch bound ----

  /** A stop's result comes back only for a stop in flight. */
  predicate Expected(a: Agent, ev: Event) { ev.StopFinished? ==> ev.alloc in a.stopping }

  /** Whatever is handled, the launch bound of a known allocation moves only with the plan. */
  lemma HandlerLeavesBound(a: Agent, rt: Runtime, ev: Event, clock: Clock, x: AllocationId)
    requires AgentOk(a) && Expected(a, ev)
    requires ev.CommandArrives? && ev.cmd.body.Some? ==> !TakesOn(a, ev.cmd.body.value, x)
    ensures var b := Handle(a, rt, ev, clock).agent; BoundLeft(a, b, x, clock.wall) && StopLeft(a, b, x)
  {
    hide HandleCommand, FinishStart, FinishStop, OnObservedExit, OnMaxRuntime, OnTimers, OnInterruption,
         ResumeNotices, AgentOk, SweepFx, TermsFor, Rebound;
    AgentTracks(a, x);
    match ev
    case CommandArrives(cmd) => CommandLeavesAlone(a, rt, cmd, clock, x);
    case StartFinished(alloc, result) => StartLeavesAlone(a, alloc, result, clock, x);
    case StopFinished(alloc, result) => StopLeavesBounds(a, alloc, result, clock.wall, x);
    case ExitSeen(alloc, exit) => ExitLeavesBounds(a, alloc, exit, x, clock.wall);
    case WatchdogFires(alloc) => WatchdogLeavesBounds(a, rt, alloc, x, clock.wall);
    case TimersDue => TimersLeaveAlone(a, clock.wall, x);
    case Interrupted(deadline) => InterruptionLeavesAlone(a, deadline, clock.wall, x);
    case Resumes => ResumingLeavesAlone(a, clock.wall, x);
    case Reconnects =>
    case DrainingSet(_) =>
    case JanitorTicks(_) =>
  }

  /** An event that may tell how `x` ended: its own result, its own exit, or its watchdog once it has started. */
  predicate MayEnd(a: Agent, ev: Event, x: AllocationId) {
    || ((ev.StartFinished? || ev.StopFinished? || ev.ExitSeen?) && ev.alloc == x)
    || (ev.WatchdogFires? && ev.alloc == x && x !in a.starting)
  }

  /** No other event says anything of how `x` ended. */
  lemma HandlerLeavesEnd(a: Agent, rt: Runtime, ev: Event, clock: Clock, x: AllocationId)
    requires AgentOk(a) && Expected(a, ev) && !MayEnd(a, ev, x)
    requires ev.CommandArrives? && ev.cmd.body.Some? ==> !TakesOn(a, ev.cmd.body.value, x)
    ensures EndLeft(a, Handle(a, rt, ev, clock).agent, x)
  {
    hide HandleCommand, FinishStart, FinishStop, OnObservedExit, OnMaxRuntime, OnTimers, OnInterruption,
         ResumeNotices, AgentOk, SweepFx, BoundLeft, StopLeft;
    AgentTracks(a, x);
    match ev
    case CommandArrives(cmd) => CommandLeavesAlone(a, rt, cmd, clock, x);
    case StartFinished(alloc, result) => StartLeavesAlone(a, alloc, result, clock, x);
    case StopFinished(alloc, result) => StopLeavesBounds(a, alloc, result, clock.wall, x);
    case ExitSeen(alloc, exit) => ExitLeavesBounds(a, alloc, exit, x, clock.wall);
    case WatchdogFires(alloc) => WatchdogLeavesBounds(a, rt, alloc, x, clock.wall);
    case TimersDue => TimersLeaveAlone(a, clock.wall, x);
    case Interrupted(deadline) => InterruptionLeavesAlone(a, deadline, clock.wall, x);
    case Resumes => ResumingLeavesAlone(a, clock.wall, x);
    case Reconnects =>
    case DrainingSet(_) =>
    case JanitorTicks(_) =>
  }

  /** The plan's terms for a known allocation, as of `now`. */
  function Terms(s: State, x: AllocationId, now: Timestamp): Option<PlanTerms>
    requires x in s.intents
  {
    TermsFor(s.plan, s.intents[x], now)
  }

  /** The launch bound of `x` is as it was under the same plan, or is the earlier of its own and the plan's at `now`. */
  predicate BoundMoves(a: Agent, b: Agent, x: AllocationId, now: Timestamp) {
    x in b.launchBounds ==>
      && x in b.state.intents
      && (|| Earliest(b.launchBounds[x], Terms(b.state, x, now))
          || (x in a.launchBounds && Get(a.state.intents, x) == Get(b.state.intents, x) && SamePlan(a, b, x)))
  }

  lemma LeftBoundMoves(a: Agent, b: Agent, x: AllocationId, now: Timestamp)
    requires BoundLeft(a, b, x, now) && Tracked(a, x)
    ensures BoundMoves(a, b, x, now)
  {
    hide TermsFor, Rebound, Earliest;
    if x in b.launchBounds && x in a.state.intents {
      ReboundIsEarliest(a.launchBounds[x], TermsFor(b.state.plan, a.state.intents[x], now));
    }
  }

  lemma TakenOnBoundMoves(a: Agent, b: Agent, sj: StartJob, x: AllocationId, now: Timestamp)
    requires TakenOn(a, b, sj, x, now)
    ensures BoundMoves(a, b, x, now)
  {
    hide TermsFor, Rebound, Earliest, OwnLatestStart;
    if x in b.launchBounds {
      ReboundIsEarliest(StartBound(OwnLatestStart(sj), OwnLatestStart(sj), None),
                        TermsFor(a.state.plan, b.state.intents[x], now));
    }
  }

  lemma HandlerMovesBound(a: Agent, rt: Runtime, ev: Event, clock: Clock, x: AllocationId)
    requires AgentOk(a) && Expected(a, ev)
    ensures BoundMoves(a, Handle(a, rt, ev, clock).agent, x, clock.wall)
  {
    hide HandleCommand, Handle, AgentOk, BoundLeft, TakenOn, BoundMoves;
    AgentTracks(a, x);
    if ev.CommandArrives? && ev.cmd.body.Some? && TakesOn(a, ev.cmd.body.value, x) {
      HandlesCommand(a, rt, ev, clock);
      CommandTakesOn(a, rt, ev.cmd, clock, x);
      TakenOnBoundMoves(a, Handle(a, rt, ev, clock).agent, ev.cmd.body.value.start, x, clock.wall);
    } else {
      HandlerLeavesBound(a, rt, ev, clock, x);
      LeftBoundMoves(a, Handle(a, rt, ev, clock).agent, x, clock.wall);
    }
  }

  /**
   * Whatever plan is put in force, every start in flight is held to the earlier of its own bound and the
   * plan's stop.
   */
  lemma WithPlanBounds(a: Agent, p: Plan, now: Timestamp, x: AllocationId)
    requires AgentOk(a) && x in a.launchBounds
    ensures var b := WithPlan(a, p, now);
            && x in b.launchBounds && x in b.state.intents && Earliest(b.launchBounds[x], Terms(b.state, x, now))
            && b.launchBounds[x].latestStart == a.launchBounds[x].latestStart
  {
    hide Accounted, TermsFor, Rebound, Earliest;
    ReboundIsEarliest(a.launchBounds[x], TermsFor(p, a.state.intents[x], now));
  }

  // ---- launch bounds over runs ----

  lemma ExpectedResult(c: Codec, r: Run, i: nat)
    requires Lawful(c) && IsRun(c, r) && i < |r.steps| && r.steps[i].Deliver?
    ensures Enabled(r.worlds[i], r.steps[i]) && Expected(r.worlds[i].agent, r.steps[i].ev)
  {
    hide Init, Moves, Crashes;
    RunStops(c, r, i);
    RunStep(c, r, i);
  }

  lemma StepMovesBound(c: Codec, w: World, s: Step, w': World, x: AllocationId)
    requires Lawful(c) && Inv(c, w) && Next(c, w, s, w') && (s.Deliver? ==> Expected(w.agent, s.ev))
    ensures s.Crash? ==> w'.agent.launchBounds == map[]
    ensures s.Deliver? ==> BoundMoves(w.agent, w'.agent, x, s.clock.wall)
    ensures !s.Deliver? && !s.Crash? ==> w'.agent == w.agent
  {
    hide Inv, Handle, Scan, Canonical, EncodeLog, DiskAfter, CrashedDisk, RuntimeAfter, WithSpecs, AgentOk, StartRun,
         StopRun, TermsFor, Earliest;
    InvQueues(c, w);
    if s.Deliver? { HandlerMovesBound(w.agent, Taken(w, s.ev).rt, s.ev, s.clock, x); }
  }

  /**
   * From step `k` to world `i` neither the plan nor the launch bound of `x` changed, and that bound is the
   * earlier of the start's own and of the plan's stop as it was at the time of step `k`.
   */
  ghost predicate BoundSince(r: Run, k: nat, i: nat, x: AllocationId)
    requires k < i < |r.worlds| == |r.steps| + 1
  {
    && r.steps[k].Deliver? && x in r.worlds[i].agent.launchBounds && x in StateAt(r, i).intents
    && Earliest(r.worlds[i].agent.launchBounds[x], Terms(StateAt(r, i), x, r.steps[k].clock.wall))
    && forall m :: k < m <= i ==>
         && StateAt(r, m).plan == StateAt(r, i).plan
         && Get(r.worlds[m].agent.launchBounds, x) == Some(r.worlds[i].agent.launchBounds[x])
  }

  /** The bound a start is held to is the one the last plan set, or its own StartJob, gave it at that moment. */
  lemma {:induction false} RunBounds(c: Codec, r: Run, i: nat, x: AllocationId) returns (k: nat)
    requires Lawful(c) && IsRun(c, r) && i < |r.worlds| && x in r.worlds[i].agent.launchBounds
    ensures k < i && BoundSince(r, k, i, x)
  {
    hide Inv, Next, Earliest, TermsFor, EncodeLog, Canonical;
    RunInv(c, r, i - 1);
    RunStep(c, r, i - 1);
    if r.steps[i - 1].Deliver? { ExpectedResult(c, r, i - 1); }
    StepMovesBound(c, r.worlds[i - 1], r.steps[i - 1], r.worlds[i], x);
    if r.steps[i - 1].Deliver?
        && Earliest(r.worlds[i].agent.launchBounds[x], Terms(StateAt(r, i), x, r.steps[i - 1].clock.wall)) {
      k := i - 1;
    } else {
      k := RunBounds(c, r, i - 1, x);
    }
  }

  // ---- creation and the plan's stop ----

  lemma CreatedOnTimeIff(p: Plan, i: Intent, b: StartBound, setAt: Timestamp, now: Timestamp)
    requires IntentSpansOk(i) && PlanOk(p) && Earliest(b, TermsFor(p, i, setAt)) && !BoundPassed(b.current, now)
    ensures OnTime(p, i, now) <==>
              !(p.interruption.Some? && p.operator.Some? && now > StopTime(p.operator.value.deadline, i))
  {
    OnTimeMeansStopAhead(p, i, now);
  }

  /**
   * A start in flight is re-bounded only when a plan is set, so a container can be created past its stop. When
   * one is created, the stop the plan then gives is still ahead, and so is that of every component already due,
   * if and only if it is not a drain's stop, passed while an interruption is also in force.
   */
  lemma CreatedPastItsStopIff(c: Codec, r: Run, i: nat, a: AllocationId)
    requires Lawful(c) && IsRun(c, r) && i < |r.steps|
    requires StartCount(r.worlds[i + 1].rt, a) != StartCount(r.worlds[i].rt, a)
    ensures a in StateAt(r, i).intents
    ensures var p, intent, now := StateAt(r, i).plan, StateAt(r, i).intents[a], r.worlds[i].rt.now;
            var terms := TermsFor(p, intent, now);
            var passed := p.interruption.Some? && p.operator.Some? && now > StopTime(p.operator.value.deadline, intent);
            (OnTime(p, intent, now) <==> !passed) && (terms.Some? ==> (now <= terms.value.stopAt <==> !passed))
  {
    hide Inv, Init, Next, StopTime, TermsFor, Earliest, OnTime;
    var w := r.worlds[i];
    CreatedWithinBound(c, r, i, a);
    RunInv(c, r, i);
    InvQueues(c, w);
    StartingHasBound(w.agent, a);
    var k := RunBounds(c, r, i, a);
    SpansOk(w.agent.state, a);
    CreatedOnTimeIff(w.agent.state.plan, w.agent.state.intents[a], w.agent.launchBounds[a], r.steps[k].clock.wall,
                     w.rt.now);
    OnTimeMeansStopAhead(w.agent.state.plan, w.agent.state.intents[a], w.rt.now);
  }

  lemma SpansOk(s: State, a: AllocationId)
    requires Accounted(s) && a in s.intents
    ensures IntentSpansOk(s.intents[a]) && PlanOk(s.plan)
  {
  }

  lemma StartingHasBound(a: Agent, x: AllocationId)
    requires AgentOk(a) && x in a.starting
    ensures x in a.launchBounds
  {
  }

  // ---- admission ----

  /** What the door lets through is not already due for a notice. */
  predicate NotYetDue(p: Plan, i: Intent, now: Timestamp) {
    NoticeAt(p, i).Some? ==> now < NoticeAt(p, i).value
  }

  lemma LaunchQueues(a: Agent, sj: StartJob, latestStart: Option<Timestamp>, clock: Clock)
    requires sj.ids.Some? && Launch(a, sj, latestStart, clock).agent.pendingStarts != a.pendingStarts
    ensures !(latestStart.Some? && clock.wall > latestStart.value)
    ensures var o := Launch(a, sj, latestStart, clock);
            && o.agent.pendingStarts ==
                 a.pendingStarts + [StartSpec(sj.ids.value.allocation, sj.ids.value.attempt, sj.ids.value.job,
                                              IntentFor(a, sj).maxRuntime)]
            && o.agent.state == a.state.(intents := a.state.intents[sj.ids.value.allocation := IntentFor(a, sj)])
  {
    hide FinishStart, Rebound, TermsFor, RuntimeBound;
    var i := IntentFor(a, sj);
    if latestStart.Some? && clock.wall > latestStart.value {
      RefusedStartsNothing(Opened(a, i, latestStart, clock.wall), i.allocation,
                           Failed(LaunchBoundPassed(latestStart.value)), clock);
    }
  }

  lemma OnStartJobBeforeNotice(a: Agent, sj: StartJob, clock: Clock)
    requires OnStartJob(a, sj, clock).agent.pendingStarts != a.pendingStarts
    ensures var o := OnStartJob(a, sj, clock);
            && sj.ids.Some? && o.agent.pendingStarts != [] && o.agent.state.plan == a.state.plan
            && o.agent.pendingStarts[|o.agent.pendingStarts| - 1].allocation == sj.ids.value.allocation
            && sj.ids.value.allocation in o.agent.state.intents
            && NotYetDue(a.state.plan, o.agent.state.intents[sj.ids.value.allocation], clock.wall)
  {
    hide DoorRefusal, NoticeAt, RuntimeBound, Launch, CurrentStatus;
    var latestStart := if sj.latestStartUs.None? then None else FromMicros(sj.latestStartUs.value);
    LaunchQueues(a, sj, latestStart, clock);
    DoorClosesAtNotice(a, IntentFor(a, sj), clock.wall);
  }

  lemma RefusedStartsNothing(a: Agent, alloc: AllocationId, result: StartResult, clock: Clock)
    requires result.Failed?
    ensures FinishStart(a, alloc, result, clock).agent.pendingStarts == a.pendingStarts
  {
  }

  lemma EndingsQueueNothing(a: Agent, rt: Runtime, ev: Event, clock: Clock)
    requires ev.StopFinished? || ev.ExitSeen? || ev.WatchdogFires? || ev.JanitorTicks? || ev.Reconnects?
             || ev.DrainingSet?
    ensures Handle(a, rt, ev, clock).agent.pendingStarts == a.pendingStarts
  {
    hide StopVerdict, ClassifyStop, ClassifyExit, StopContainer, AttributionOf, SweepFx;
  }

  lemma OnlyCommandsQueue(a: Agent, rt: Runtime, ev: Event, clock: Clock)
    requires AgentOk(a) && !ev.CommandArrives?
    ensures Handle(a, rt, ev, clock).agent.pendingStarts == a.pendingStarts
  {
    hide FinishStart, FinishStop, OnObservedExit, OnMaxRuntime, OnTimers, OnInterruption, ResumeNotices, AgentOk,
         Sound;
    match ev
    case StartFinished(alloc, result) => FinishStartSound(a, alloc, result, clock, NO_CONTAINERS, {});
    case TimersDue => OnTimersSound(a, clock.wall, NO_CONTAINERS, {});
    case Interrupted(deadline) => OnInterruptionSound(a, deadline, clock.wall, NO_CONTAINERS, {});
    case Resumes => ResumeNoticesSound(a, clock.wall, NO_CONTAINERS, {});
    case _ => EndingsQueueNothing(a, rt, ev, clock);
  }

  lemma OnFreshBeforeNotice(a: Agent, body: Body, clock: Clock, spec: StartSpec)
    requires AgentOk(a) && OnFresh(a, body, clock).agent.pendingStarts == a.pendingStarts + [spec]
    ensures var o := OnFresh(a, body, clock);
            spec.allocation in o.agent.state.intents
                && NotYetDue(a.state.plan, o.agent.state.intents[spec.allocation], clock.wall)
  {
    hide OnStartJob, OnStopJob, OnPreempt, OnDrain, AgentOk, Sound, NotYetDue;
    match body
    case StartJobBody(sj) => OnStartJobBeforeNotice(a, sj, clock);
    case StopJobBody(target, grace) => OnStopJobSound(a, target, grace, NO_CONTAINERS, {});
    case PreemptJobBody(victim, why, notice) => OnPreemptSound(a, victim, why, notice, clock.wall, NO_CONTAINERS, {});
    case DrainBody(deadline, window) => OnDrainSound(a, deadline, window, clock.wall, NO_CONTAINERS, {});
    case _ =>
  }

  lemma CommandBeforeNotice(a: Agent, rt: Runtime, cmd: Command, clock: Clock, spec: StartSpec)
    requires AgentOk(a) && HandleCommand(a, rt, cmd, clock).agent.pendingStarts == a.pendingStarts + [spec]
    ensures var o := HandleCommand(a, rt, cmd, clock);
            spec.allocation in o.agent.state.intents
                && NotYetDue(a.state.plan, o.agent.state.intents[spec.allocation], clock.wall)
  {
    hide Admit, OnFresh, OnDuplicate, AgentOk, NotYetDue, SpentIds, Rearmed, UnresolveAll, Seen;
    var r := Admit(a, cmd.header.value);
    AdmitSound(a, cmd.header.value, rt, {});
    AdmitKeeps(a, cmd.header.value);
    DuplicateQueuesNothing(r.agent, cmd.body.value);
    OnFreshBeforeNotice(r.agent, cmd.body.value, clock, spec);
  }

  lemma DuplicateQueuesNothing(a: Agent, body: Body)
    ensures OnDuplicate(a, body).agent == a
  {
  }

  /** No start of any run is admitted that its own plan would notify at once: the door closes at the notice time. */
  lemma AdmittedBeforeNotice(c: Codec, r: Run, i: nat, a: AllocationId)
    requires Lawful(c) && IsRun(c, r) && i < |r.steps| && r.worlds[i + 1].queued[a] > r.worlds[i].queued[a]
    ensures r.steps[i].Deliver? && r.steps[i].ev.CommandArrives? && a in StateAt(r, i + 1).intents
    ensures NotYetDue(StateAt(r, i).plan, StateAt(r, i + 1).intents[a], r.steps[i].clock.wall)
  {
    hide Inv, Init, Next, Scan, NotYetDue;
    RunInv(c, r, i);
    RunStep(c, r, i);
    AdmittedStep(c, r.worlds[i], r.steps[i], r.worlds[i + 1], a);
  }

  lemma AdmittedStep(c: Codec, w: World, s: Step, w': World, a: AllocationId)
    requires Lawful(c) && Inv(c, w) && Next(c, w, s, w') && w'.queued[a] > w.queued[a]
    ensures s.Deliver? && s.ev.CommandArrives? && a in w'.agent.state.intents
    ensures NotYetDue(w.agent.state.plan, w'.agent.state.intents[a], s.clock.wall)
  {
    hide Inv, Handle, Sound, DiskAfter, RuntimeAfter, WithSpecs, AgentOk, NotYetDue;
    QueuedStep(c, w, s, w', a);
    InvQueues(c, w);
    HandleSound(c, w, s.ev, s.clock);
    var o := Interrupts(w, s);
    NewStarts(w.agent, o);
    if !s.ev.CommandArrives? {
      OnlyCommandsQueue(w.agent, Taken(w, s.ev).rt, s.ev, s.clock);
    } else {
      var spec: StartSpec :| NewStart(w.agent, o, spec) && o.agent.pendingStarts == [spec];
      HandlesCommand(w.agent, w.rt, s.ev, s.clock);
      CommandBeforeNotice(w.agent, w.rt, s.ev.cmd, s.clock, spec);
    }
  }

  lemma HandlesCommand(a: Agent, rt: Runtime, ev: Event, clock: Clock)
    requires ev.CommandArrives?
    ensures Handle(a, rt, ev, clock) == HandleCommand(a, rt, ev.cmd, clock)
  {
    hide HandleCommand;
  }
}
