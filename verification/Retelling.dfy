/** An exit a crash hands back to the runtime's evidence: how every later registration retells it. */
module Retelling {
  import opened Types
  import opened JournalState
  import opened Framing
  import opened Executor
  import opened Observed
  import opened SessionSpec
  import opened Effects
  import opened SessionProofs
  import opened SessionFacts
  import opened Bystanders
  import opened System
  import opened SystemProofs
  import opened Runs
  import opened Registration
  import opened StopRuns
  import opened DrainPlans
  import opened Outcomes

  // ---- an attempt over, its exit still only evidence ----

  /**
   * `x` ended with `exit` and no agent can know more: until that exit is journaled the runtime shows it, and
   * whatever is held or answered for `x` repeats it.
   */
  ghost predicate OnlyEvidence(w: World, x: AllocationId, exit: ExitInfo) {
    && x in w.agent.state.intents && x !in w.agent.state.exits && x !in w.agent.starting
    && x in w.rt.exited && w.rt.exited[x].state == HasExited(exit)
    && (x in w.agent.deferredExits ==> w.agent.deferredExits[x] == exit)
    && (forall d :: d in w.stopsDone && d.0 == x ==> d.1 == StopFailed || d.1 == Answered(AlreadyExited(exit)))
  }

  /** The journal tells `exit` of `x` under the attribution `s` held. */
  predicate ToldUnder(t: State, s: State, x: AllocationId, exit: ExitInfo) {
    x in t.exits && t.exits[x].outcome == ClassifyExit(exit, AttributionOf(s, x)) && t.exits[x].runtime == exit.runtime
  }

  lemma WatchdogTells(a: Agent, rt: Runtime, alloc: AllocationId, x: AllocationId, exit: ExitInfo)
    requires x in a.state.intents && x !in a.state.exits && x in rt.exited && rt.exited[x].state == HasExited(exit)
    ensures var b := OnMaxRuntime(a, rt, alloc).agent;
            && (x in b.state.exits ==> ToldUnder(b.state, a.state, x, exit))
            && b.starting == a.starting && b.deferredExits == a.deferredExits
  {
    hide ClassifyExit, AttributionOf;
  }

  lemma WatcherTells(a: Agent, alloc: AllocationId, seen: ExitInfo, x: AllocationId, exit: ExitInfo)
    requires x in a.state.intents && x !in a.state.exits && (alloc == x ==> seen == exit)
    requires x in a.deferredExits ==> a.deferredExits[x] == exit
    ensures var b := OnObservedExit(a, alloc, seen).agent;
            && (x in b.state.exits ==> ToldUnder(b.state, a.state, x, exit))
            && b.starting == a.starting && (x in b.deferredExits ==> b.deferredExits[x] == exit)
  {
    hide ClassifyExit, AttributionOf;
  }

  lemma StopTells(a: Agent, alloc: AllocationId, result: StopResult, now: Timestamp, x: AllocationId, exit: ExitInfo)
    requires x in a.state.intents && x !in a.state.exits && (x in a.deferredExits ==> a.deferredExits[x] == exit)
    requires alloc == x ==> result == StopFailed || result == Answered(AlreadyExited(exit))
    ensures var b := FinishStop(a, alloc, result, now).agent;
            && (x in b.state.exits ==> ToldUnder(b.state, a.state, x, exit))
            && b.starting == a.starting && (x in b.deferredExits ==> b.deferredExits[x] == exit)
  {
    hide ClassifyExit, AttributionOf, TombstoneOutcome, StopVerdict, RecordExit;
    if alloc == x { VerdictIsTheEvidence(a, x, result, exit); }
    var a1 := a.(stopping := a.stopping - {alloc}, deferredExits := a.deferredExits - {alloc});
    var verdict := StopVerdict(a, alloc, result);
    if alloc in a.state.intents && verdict.Some? { RecordLeavesOthers(a1, alloc, verdict.value.0, verdict.value.1, x); }
  }

  lemma VerdictIsTheEvidence(a: Agent, x: AllocationId, result: StopResult, exit: ExitInfo)
    requires result == StopFailed || result == Answered(AlreadyExited(exit))
    requires x in a.deferredExits ==> a.deferredExits[x] == exit
    ensures var verdict := StopVerdict(a, x, result);
            verdict.Some? ==> verdict.value == (ClassifyExit(exit, AttributionOf(a.state, x)), exit.runtime)
  {
    hide ClassifyExit, AttributionOf, TombstoneOutcome;
  }

  lemma RecordLeavesOthers(a: Agent, alloc: AllocationId, outcome: Outcome, runtime: Duration, x: AllocationId)
    requires alloc in a.state.intents
    ensures var b := RecordExit(a, alloc, outcome, runtime).agent;
            && (x != alloc ==> EndLeft(a, b, x))
            && b.starting == a.starting && b.deferredExits == a.deferredExits
            && alloc in b.state.exits && b.state.exits[alloc].outcome == outcome
            && b.state.exits[alloc].runtime == runtime
  {
  }

  lemma HandlerTells(c: Codec, w: World, ev: Event, clock: Clock, x: AllocationId, exit: ExitInfo)
    requires Lawful(c) && Inv(c, w) && Ready(w, ev) && OnlyEvidence(w, x, exit)
    ensures var b := Handle(w.agent, Taken(w, ev).rt, ev, clock).agent;
            && (x in b.state.exits ==> ToldUnder(b.state, w.agent.state, x, exit))
            && x !in b.starting && (x in b.deferredExits ==> b.deferredExits[x] == exit)
  {
    hide Inv, HandleCommand, FinishStart, FinishStop, OnObservedExit, OnMaxRuntime, OnTimers, OnInterruption,
         ResumeNotices, ToldUnder, SweepFx, BoundLeft, StopLeft, AgentOk;
    var a, rt := w.agent, Taken(w, ev).rt;
    InvQueues(c, w);
    AgentTracks(a, x);
    match ev
    case CommandArrives(cmd) => CommandLeavesAlone(a, rt, cmd, clock, x);
    case StartFinished(alloc, result) => StartLeavesAlone(a, alloc, result, clock, x);
    case StopFinished(alloc, result) =>
      assert (alloc, result) in w.stopsDone;
      StopTells(a, alloc, result, clock.wall, x, exit);
    case ExitSeen(alloc, seen) =>
      QueueTellsTruly(c, w, x, exit);
      WatcherTells(a, alloc, seen, x, exit);
    case WatchdogFires(alloc) => WatchdogTells(a, rt, alloc, x, exit);
    case TimersDue => TimersLeaveAlone(a, clock.wall, x);
    case Interrupted(deadline) => InterruptionLeavesAlone(a, deadline, clock.wall, x);
    case Resumes => ResumingLeavesAlone(a, clock.wall, x);
    case Reconnects =>
    case DrainingSet(_) =>
    case JanitorTicks(_) =>
  }

  lemma QueueTellsTruly(c: Codec, w: World, x: AllocationId, exit: ExitInfo)
    requires Lawful(c) && Inv(c, w) && x in w.rt.exited && w.rt.exited[x].state == HasExited(exit)
    ensures forall i :: 0 <= i < |w.rt.queue| && w.rt.queue[i].allocation == x ==> w.rt.queue[i].exit == exit
  {
    hide Clean, AgentOk, TasksInv, RuntimeOk;
    forall i | 0 <= i < |w.rt.queue| && w.rt.queue[i].allocation == x ensures w.rt.queue[i].exit == exit {
      assert Queued(w.rt, w.rt.queue[i]);
    }
  }

  /** What a crash keeps of a handler's records, the whole handler would have kept as well. */
  lemma {:induction false} PrefixIsEarlier(s: State, rt: Runtime, u: set<AllocationId>, fx: seq<Effect>, k: nat)
    requires EffectsOk(s, rt, u, fx) && k <= |fx| && Accounted(s) && RuntimeOk(rt) && EvidenceOk(rt)
    ensures Later(StateAfter(s, fx[..k]), StateAfter(s, fx))
    decreases k
  {
    hide Accounted, RuntimeOk, EvidenceOk, WindsDown, EffectOk, RuntimeAfterOne, StateAfterOne, Later,
         FreshExitsQuiet;
    if k == 0 {
      assert fx[..k] == [] && fx[..|fx|] == fx;
      PrefixProgress(s, rt, u, fx, |fx|);
    } else {
      assert fx[..k][0] == fx[0] && fx[..k][1..] == fx[1..][..k - 1];
      EffectProgress(s, rt, u, fx[0]);
      PrefixIsEarlier(StateAfterOne(s, fx[0]), RuntimeAfterOne(rt, fx[0]), u, fx[1..], k - 1);
    }
  }

  lemma CrashTells(c: Codec, w: World, s: Step, w': World, x: AllocationId, exit: ExitInfo)
    requires Lawful(c) && Inv(c, w) && Next(c, w, s, w') && s.Crash? && OnlyEvidence(w, x, exit)
    ensures x in w'.agent.state.exits ==> ToldUnder(w'.agent.state, w.agent.state, x, exit)
    ensures w'.agent == NewAgent(w'.agent.state) && w'.stopsDone == {}
  {
    hide Inv, Handle, Scan, Canonical, EncodeLog, CrashedDisk, StateAfter, RuntimeAfter, EffectsOk, Accounted,
         RuntimeOk, EvidenceOk, Progress;
    var o := Interrupts(w, s);
    CrashHereRecovers(c, w, s);
    HandlerTells(c, w, s.ev, s.clock, x, exit);
    HandledProgress(c, w, s.ev, s.clock, |o.fx|);
    TakenIsOk(c, w, s.ev);
    PrefixIsEarlier(w.agent.state, Taken(w, s.ev).rt, Unstarted(w), o.fx, s.done);
  }

  lemma TakenIsOk(c: Codec, w: World, ev: Event)
    requires Lawful(c) && Inv(c, w) && Ready(w, ev)
    ensures Accounted(w.agent.state) && RuntimeOk(Taken(w, ev).rt) && EvidenceOk(Taken(w, ev).rt)
  {
    hide Clean, TasksInv;
    TakenKeepsInv(c, w, ev);
  }

  lemma AlreadyOver(rt: Runtime, x: AllocationId, exit: ExitInfo)
    requires x in rt.exited && rt.exited[x].state == HasExited(exit)
    ensures StopContainer(rt, x).1 == AlreadyExited(exit)
  {
  }

  lemma DeliveryTells(c: Codec, w: World, s: Step, w': World, x: AllocationId, exit: ExitInfo)
    requires Lawful(c) && Inv(c, w) && Next(c, w, s, w') && s.Deliver? && OnlyEvidence(w, x, exit)
    requires x in w'.agent.state.intents
    requires x !in w'.agent.state.exits ==> x in w'.rt.exited && w'.rt.exited[x] == w.rt.exited[x]
    ensures x in w'.agent.state.exits ==> ToldUnder(w'.agent.state, w.agent.state, x, exit)
    ensures x !in w'.agent.state.exits ==> OnlyEvidence(w', x, exit)
  {
    hide Inv, Handle, DiskAfter, RuntimeAfter, WithSpecs, ToldUnder;
    HandlerTells(c, w, s.ev, s.clock, x, exit);
  }

  lemma QuietTells(c: Codec, w: World, s: Step, w': World, x: AllocationId, exit: ExitInfo)
    requires Lawful(c) && Next(c, w, s, w') && !s.Deliver? && !s.Crash? && OnlyEvidence(w, x, exit)
    requires x !in w'.agent.state.exits ==> x in w'.rt.exited && w'.rt.exited[x] == w.rt.exited[x]
    ensures OnlyEvidence(w', x, exit)
  {
    hide Performed, Crashes, StartRun, StopContainer, Reap, Finish;
    AlreadyOver(w.rt, x, exit);
  }

  /** Each step leaves it only evidence, or journals it under the attribution then in force. */
  lemma StepTells(c: Codec, w: World, s: Step, w': World, x: AllocationId, exit: ExitInfo)
    requires Lawful(c) && Inv(c, w) && Next(c, w, s, w') && OnlyEvidence(w, x, exit)
    ensures x in w'.agent.state.exits ==> ToldUnder(w'.agent.state, w.agent.state, x, exit)
    ensures x !in w'.agent.state.exits ==> OnlyEvidence(w', x, exit)
  {
    hide Inv, Next, ToldUnder;
    if x !in w'.agent.state.exits { StepKeepsEvidence(c, w, s, w', x); }
    NextInv(c, w, s, w');
    if s.Crash? {
      CrashTells(c, w, s, w', x, exit);
    } else if s.Deliver? {
      DeliveryTells(c, w, s, w', x, exit);
    } else {
      QuietTells(c, w, s, w', x, exit);
    }
  }

  /** Over any stretch of a run in which the exit stays unjournaled, crashes included, it stays the same evidence. */
  lemma {:induction false} StaysEvidence(c: Codec, r: Run, b: nat, m: nat, x: AllocationId, exit: ExitInfo)
    requires Lawful(c) && IsRun(c, r) && b <= m < |r.worlds| && OnlyEvidence(r.worlds[b], x, exit)
    requires x !in StateAt(r, m).exits
    ensures OnlyEvidence(r.worlds[m], x, exit)
    decreases m - b
  {
    hide Inv, Init, Next, OnlyEvidence;
    if b < m {
      RunInv(c, r, b);
      RunStep(c, r, b);
      RunLater(c, r, b + 1, m);
      StepTells(c, r.worlds[b], r.steps[b], r.worlds[b + 1], x, exit);
      StaysEvidence(c, r, b + 1, m, x, exit);
    }
  }

  /** The moment that fixes what is told of `x` at `j`: the step that journals its exit, or `j` itself. */
  predicate DecidedAt(r: Run, m: nat, j: nat, x: AllocationId)
    requires m <= j < |r.worlds|
  {
    x !in StateAt(r, m).exits && (m == j || x in StateAt(r, m + 1).exits)
  }

  lemma {:induction false} SomeMomentDecides(r: Run, b: nat, j: nat, x: AllocationId) returns (m: nat)
    requires b <= j < |r.worlds| && x !in StateAt(r, b).exits
    ensures b <= m <= j && DecidedAt(r, m, j, x)
    decreases j - b
  {
    if b == j || x in StateAt(r, b + 1).exits { m := b; } else { m := SomeMomentDecides(r, b + 1, j, x); }
  }

  /**
   * An exit left as evidence, as any later registration tells it, whatever happened in between: its own
   * runtime and its own classification, under the attribution of the moment that decides it.
   */
  lemma RetoldFromEvidence(c: Codec, r: Run, b: nat, m: nat, j: nat, exit: ExitInfo, e: ObservedAllocation)
    requires Lawful(c) && IsRun(c, r) && b <= m <= j < |r.worlds| && OnlyEvidence(r.worlds[b], e.allocation, exit)
    requires DecidedAt(r, m, j, e.allocation) && TellsEvidence(r.worlds[j], e)
    requires m == j ==> !InFlight(r.worlds[j].agent, e.allocation)
    ensures !e.running && e.runtime == exit.runtime
    ensures e.outcome == Some(ClassifyExit(exit, AttributionOf(StateAt(r, m), e.allocation)))
  {
    hide Inv, Init, Next, ClassifyExit, AttributionOf;
    var x := e.allocation;
    StaysEvidence(c, r, b, m, x, exit);
    if m < j {
      RunInv(c, r, m);
      RunStep(c, r, m);
      StepTells(c, r.worlds[m], r.steps[m], r.worlds[m + 1], x, exit);
      RunLater(c, r, m + 1, j);
    } else {
      RunInv(c, r, j);
      EvidenceOf(c, r.worlds[j], x);
    }
  }

  /**
   * The same, outcome by outcome: limit kills are told as such whatever the journal says, an abort is told only
   * of a kill its tombstone aborted, a preemption only where the deciding notice or tombstone names it, and
   * anything else is the job's own exit code.
   */
  lemma RetoldOutcomeMeans(c: Codec, r: Run, b: nat, m: nat, j: nat, exit: ExitInfo, e: ObservedAllocation)
    requires Lawful(c) && IsRun(c, r) && b <= m <= j < |r.worlds| && OnlyEvidence(r.worlds[b], e.allocation, exit)
    requires DecidedAt(r, m, j, e.allocation) && TellsEvidence(r.worlds[j], e)
    requires m == j ==> !InFlight(r.worlds[j].agent, e.allocation)
    ensures var s, x, o := StateAt(r, m), e.allocation, e.outcome;
            && (o == Some(MemoryLimitExceeded) <==> exit.cause == OomKilled)
            && (o == Some(DiskLimitExceeded) <==> exit.cause == DiskKilled)
            && (o == Some(Aborted) <==> exit.cause == Killed && Get(s.tombstones, x) == Some(Abort))
            && (forall reason :: o == Some(Preempted(reason)) <==>
                  || (exit.cause == Killed && Get(s.tombstones, x) == Some(Preempt(reason)))
                  || (exit.cause == Killed && x !in s.tombstones && Get(s.noticeIntents, x) == Some(reason))
                  || (exit.cause == Natural && exit.code != 0 && Get(s.noticeIntents, x) == Some(reason)))
            && (forall code :: o == Some(Exited(code)) ==> code == exit.code)
  {
    hide IsRun, Inv, TellsEvidence, OnlyEvidence, ClassifyExit;
    RetoldFromEvidence(c, r, b, m, j, exit, e);
    ClassificationMeans(exit, AttributionOf(StateAt(r, m), e.allocation));
  }

  // ---- what can move the verdict ----

  /** Whom the journal blames for a kill: a tombstone first, then a notice. */
  function Claim(s: State, x: AllocationId): Option<TombstoneReason> {
    if x in s.tombstones then Some(s.tombstones[x])
    else if x in s.noticeIntents then Some(Preempt(s.noticeIntents[x])) else None
  }

  /** Between `s` and `t` the journal changed its mind about `exit`: a kill reclaimed, or a failure first noticed. */
  predicate Reattributed(s: State, t: State, x: AllocationId, exit: ExitInfo) {
    if exit.cause.Killed? then Claim(t, x) != Claim(s, x)
    else exit.cause.Natural? && exit.code != 0 && x in t.noticeIntents && x !in s.noticeIntents
  }

  /** The same exit is classified alike at two points of a run exactly when it was not reattributed between them. */
  lemma VerdictMovesIff(s: State, t: State, x: AllocationId, exit: ExitInfo)
    requires Later(s, t)
    ensures ClassifyExit(exit, AttributionOf(t, x)) == ClassifyExit(exit, AttributionOf(s, x)) <==>
              !Reattributed(s, t, x, exit)
  {
  }

  // ---- a watcher's exit, its handling cut by a crash ----

  lemma CutExitIsEvidence(c: Codec, w: World, s: Step, w': World)
    requires Lawful(c) && Inv(c, w) && Next(c, w, s, w') && s.Crash? && SeesExit(w, s.ev)
    ensures if s.ev.alloc in w'.agent.state.exits then w'.agent.state.exits[s.ev.alloc] == ExitRecord(w, s.ev)
            else w'.agent.state == w.agent.state && OnlyEvidence(w', s.ev.alloc, s.ev.exit)
    ensures w'.agent == NewAgent(w'.agent.state)
  {
    hide Inv, Handle, Scan, Canonical, EncodeLog, CrashedDisk;
    CrashLeavesRecordOrEvidence(c, w, s, w');
  }

  /** What fixes the telling at `j` of an exit cut at `i`: nothing more if its record was whole. */
  predicate Decides(r: Run, i: nat, m: nat, j: nat, x: AllocationId)
    requires i < m <= j < |r.worlds|
  {
    x in StateAt(r, i + 1).exits || (DecidedAt(r, m, j, x) && (m == j ==> !InFlight(r.worlds[j].agent, x)))
  }

  /**
   * Crash-point independence, at any later registration and whatever ran in between: an exit whose handling
   * a crash cut is retold with its own runtime and labels, and with the outcome the uninterrupted handling
   * would have reported, if and only if its record was whole or the journal did not reattribute it before
   * the moment that decides it.
   */
  lemma CutExitRetoldIff(c: Codec, r: Run, i: nat, m: nat, j: nat, e: ObservedAllocation)
    requires Lawful(c) && IsRun(c, r) && i < m <= j < |r.worlds| && r.steps[i].Crash?
             && SeesExit(r.worlds[i], r.steps[i].ev)
    requires e.allocation == r.steps[i].ev.alloc && TellsEvidence(r.worlds[j], e) && Decides(r, i, m, j, e.allocation)
    ensures var live := ExitRecord(r.worlds[i], r.steps[i].ev);
            && !e.running && e.runtime == live.runtime && e.attempt == live.attempt && e.job == live.job
            && (e.outcome == Some(live.outcome) <==>
                  || e.allocation in StateAt(r, i + 1).exits
                  || !Reattributed(StateAt(r, i), StateAt(r, m), e.allocation, r.steps[i].ev.exit))
  {
    hide Inv, Init, Next, ClassifyExit, AttributionOf, OnlyEvidence, Reattributed;
    var x, exit := e.allocation, r.steps[i].ev.exit;
    RunInv(c, r, i);
    RunStep(c, r, i);
    CutExitIsEvidence(c, r.worlds[i], r.steps[i], r.worlds[i + 1]);
    RunLater(c, r, i, j);
    RunLater(c, r, i + 1, j);
    RunInv(c, r, j);
    EvidenceOf(c, r.worlds[j], x);
    if x !in StateAt(r, i + 1).exits {
      RetoldFromEvidence(c, r, i + 1, m, j, exit, e);
      RunLater(c, r, i, m);
      VerdictMovesIff(StateAt(r, i), StateAt(r, m), x, exit);
    }
  }

  lemma ResumedState(c: Codec, w: World, s: Step, w': World)
    requires Lawful(c) && Inv(c, w) && Next(c, w, s, w') && s.Deliver? && s.ev.Resumes?
    ensures w'.agent.state == ResumeNotices(w.agent, s.clock.wall).agent.state
    ensures w'.agent.starting == w.agent.starting && w'.agent.stopping == w.agent.stopping
  {
    hide Inv, ResumeNotices, DiskAfter, RuntimeAfter, WithSpecs;
    ResumeNoticesStops(w.agent, s.clock.wall);
  }

  /**
   * The agent's own schedule: a crash anywhere inside the handling of an exit, the notices resumed at the
   * restart, then a registration. It tells the live runtime and labels always, and the live outcome if and
   * only if the record was whole, or no notice first fell due by the restart for an attributable exit.
   */
  lemma CrashPointDoesNotMatter(c: Codec, r: Run, i: nat, e: ObservedAllocation)
    requires Lawful(c) && IsRun(c, r) && i + 2 < |r.worlds| && r.steps[i].Crash? && SeesExit(r.worlds[i], r.steps[i].ev)
    requires r.steps[i + 1].Deliver? && r.steps[i + 1].ev.Resumes?
    requires e.allocation == r.steps[i].ev.alloc && TellsEvidence(r.worlds[i + 2], e)
    ensures var live, now := ExitRecord(r.worlds[i], r.steps[i].ev), r.steps[i + 1].clock.wall;
            && !e.running && e.runtime == live.runtime && e.attempt == live.attempt && e.job == live.job
            && (e.outcome == Some(live.outcome) <==>
                  || e.allocation in StateAt(r, i + 1).exits
                  || !(LateNotice(StateAt(r, i), e.allocation, now) && Attributable(r.steps[i].ev.exit)))
  {
    hide Inv, Init, Next, ClassifyExit, AttributionOf, OnlyEvidence, Reattributed, LateNotice, Attributable,
         ResumeNotices;
    var x, exit, now := e.allocation, r.steps[i].ev.exit, r.steps[i + 1].clock.wall;
    RunInv(c, r, i);
    RunStep(c, r, i);
    CutExitIsEvidence(c, r.worlds[i], r.steps[i], r.worlds[i + 1]);
    RunInv(c, r, i + 1);
    RunStep(c, r, i + 1);
    ResumedState(c, r.worlds[i + 1], r.steps[i + 1], r.worlds[i + 2]);
    ResumeNoticesFacts(r.worlds[i + 1].agent, now, x);
    CutExitRetoldIff(c, r, i, i + 2, i + 2, e);
    if x !in StateAt(r, i + 1).exits {
      RunLater(c, r, i, i + 2);
      VerdictMovesIff(StateAt(r, i), StateAt(r, i + 2), x, exit);
      ResumingRewritesIff(StateAt(r, i), x, exit, now);
    }
  }

  // ---- a max-runtime kill, cut between the stop and its record ----

  /** The watchdog fires on a live container with neither start nor stop in flight. */
  predicate KillsOverdue(w: World, ev: Event) {
    && ev.WatchdogFires? && ev.alloc in w.rt.running && ev.alloc in w.agent.state.intents
    && ev.alloc !in w.agent.state.exits && ev.alloc !in w.agent.stopping && ev.alloc !in w.agent.starting
  }

  predicate LimitKill(exit: ExitInfo) { exit.cause.OomKilled? || exit.cause.DiskKilled? }

  /**
   * Told live and told by recovery, what a max-runtime stop found agrees exactly when the container had
   * already exited or a limit kill is in evidence; otherwise only the live telling knows of the limit.
   */
  lemma WatchdogAgreesWithRecoveryIff(s: State, a: AllocationId, stopped: StopOutcome)
    requires !stopped.Unknown?
    ensures var live := ClassifyStop(stopped, RuntimeLimitExceeded, AttributionOf(s, a));
            && live.Some? && live.value.1 == stopped.exit.runtime
            && (live.value.0 == ClassifyExit(stopped.exit, AttributionOf(s, a)) <==>
                  stopped.AlreadyExited? || LimitKill(stopped.exit))
  {
  }

  /** The outcome an uninterrupted max-runtime stop of a live container journals. */
  function KillOutcome(w: World, a: AllocationId): Outcome {
    var exit := StopExit(w.rt, a);
    if LimitKill(exit) then ClassifyExit(exit, NO_ATTRIBUTION) else RuntimeLimitExceeded
  }

  lemma OverdueKillRecords(w: World, ev: Event, clock: Clock)
    requires RuntimeOk(w.rt) && KillsOverdue(w, ev)
    ensures var i, exit := w.agent.state.intents[ev.alloc], StopExit(w.rt, ev.alloc);
            Handle(w.agent, w.rt, ev, clock).fx ==
              [Stop(ev.alloc), Append(ObservedExit(Exit(ev.alloc, i.attempt, i.job, KillOutcome(w, ev.alloc),
                                                        exit.runtime)))]
    ensures var rt' := StopContainer(w.rt, ev.alloc).0;
            ev.alloc in rt'.exited && rt'.exited[ev.alloc].state == HasExited(StopExit(w.rt, ev.alloc))
  {
  }

  /**
   * Cut before the stop, the container still runs; between stop and record, only the stop's exit is left as
   * evidence.
   */
  lemma CutKillLeaves(c: Codec, w: World, s: Step, w': World)
    requires Lawful(c) && Inv(c, w) && Next(c, w, s, w') && s.Crash? && KillsOverdue(w, s.ev) && s.done <= 1
    ensures w'.agent == NewAgent(w.agent.state)
    ensures s.done == 0 ==> s.ev.alloc in w'.rt.running
    ensures s.done == 1 ==> OnlyEvidence(w', s.ev.alloc, StopExit(w.rt, s.ev.alloc))
  {
    hide Inv, Handle, Scan, Canonical, EncodeLog, CrashedDisk, StopContainer;
    InvReaps(c, w);
    OverdueKillRecords(w, s.ev, s.clock);
    CrashHereRecovers(c, w, s);
    var fx := Interrupts(w, s).fx;
    if s.done == 0 {
      assert fx[..0] == [];
    } else {
      assert fx[..1] == [fx[0]];
      OneEffect(w.agent.state, w.rt, {}, fx[0]);
    }
  }

  /**
   * A max-runtime kill cut between the stop and its record: recovery never calls it one. Every later
   * registration tells the kill's own exit under the attribution that decides it, which is the outcome the
   * uninterrupted handling would have journaled if and only if the kill is in evidence as a limit kill.
   */
  lemma CutKillRetoldIff(c: Codec, r: Run, i: nat, m: nat, j: nat, e: ObservedAllocation)
    requires Lawful(c) && IsRun(c, r) && i < m <= j < |r.worlds| && r.steps[i].Crash? && r.steps[i].done == 1
    requires KillsOverdue(r.worlds[i], r.steps[i].ev)
    requires e.allocation == r.steps[i].ev.alloc && TellsEvidence(r.worlds[j], e) && Decides(r, i, m, j, e.allocation)
    ensures StateAt(r, i + 1) == StateAt(r, i)
    ensures var exit := StopExit(r.worlds[i].rt, e.allocation);
            && !e.running && e.runtime == exit.runtime
            && e.outcome == Some(ClassifyExit(exit, AttributionOf(StateAt(r, m), e.allocation)))
            && (e.outcome == Some(KillOutcome(r.worlds[i], e.allocation)) <==> LimitKill(exit))
  {
    hide Inv, Init, Next;
    RunInv(c, r, i);
    RunStep(c, r, i);
    CutKillLeaves(c, r.worlds[i], r.steps[i], r.worlds[i + 1]);
    RetoldFromEvidence(c, r, i + 1, m, j, StopExit(r.worlds[i].rt, e.allocation), e);
    WatchdogAgreesWithRecoveryIff(StateAt(r, m), e.allocation, Stopped(StopExit(r.worlds[i].rt, e.allocation)));
  }

  // ---- a stop whose answer a crash swallowed ----

  /** Recovery, deciding under `t`, agrees with what the stop's answer said live under `s`. */
  predicate StopRetoldAlike(s: State, t: State, x: AllocationId, stopped: StopOutcome)
    requires !stopped.Unknown?
  {
    var exit, kill := stopped.exit, if x in s.tombstones then s.tombstones[x] else Abort;
    if stopped.AlreadyExited? then !Reattributed(s, t, x, exit)
    else
      match exit.cause
      case Killed => Claim(t, x) == Some(kill)
      case Natural => exit.code != 0 && x in t.noticeIntents && kill == Preempt(t.noticeIntents[x])
      case _ => true
  }

  lemma StopAnswerMovesIff(a: Agent, t: State, x: AllocationId, stopped: StopOutcome)
    requires Later(a.state, t) && !stopped.Unknown?
    ensures var live := StopVerdict(a, x, Answered(stopped));
            && live.Some? && live.value.1 == stopped.exit.runtime
            && (live.value.0 == ClassifyExit(stopped.exit, AttributionOf(t, x)) <==>
                StopRetoldAlike(a.state, t, x, stopped))
  {
    if stopped.AlreadyExited? { VerdictMovesIff(a.state, t, x, stopped.exit); }
  }

  /**
   * A stop that answered at `i` and whose answer the crash at `k` swallowed: every later registration tells
   * the exit the stop left, with its runtime, and agrees with the answer if and only if the container had
   * ended by itself and was not reattributed since, or a limit kill is in evidence, or the attribution that
   * decides it names the very reason of the stop.
   */
  lemma SwallowedStopRetoldIff(c: Codec, r: Run, i: nat, k: nat, m: nat, j: nat, stopped: StopOutcome,
                               e: ObservedAllocation)
    requires Lawful(c) && IsRun(c, r) && i < k < m <= j < |r.worlds| && r.steps[i].RunStop? && !r.steps[i].fails
    requires StopRun(r.worlds[i], r.steps[i].alloc, false).1 == Answered(stopped) && !stopped.Unknown?
    requires e.allocation == r.steps[i].alloc && e.allocation !in StateAt(r, k).exits
    requires r.steps[k].Crash? && e.allocation !in StateAt(r, k + 1).exits
    requires DecidedAt(r, m, j, e.allocation) && (m == j ==> !InFlight(r.worlds[j].agent, e.allocation))
    requires TellsEvidence(r.worlds[j], e)
    ensures !e.running && e.runtime == stopped.exit.runtime
    ensures e.outcome == Some(ClassifyExit(stopped.exit, AttributionOf(StateAt(r, m), e.allocation)))
    ensures var live := StopVerdict(r.worlds[k].agent, e.allocation, Answered(stopped));
            && live.Some? && e.runtime == live.value.1
            && (e.outcome == Some(live.value.0) <==>
                StopRetoldAlike(StateAt(r, k), StateAt(r, m), e.allocation, stopped))
  {
    hide Inv, Init, Next, StopContainer, ClassifyExit, AttributionOf, StopVerdict, StopRetoldAlike;
    var x := e.allocation;
    RunInv(c, r, i);
    RunStep(c, r, i);
    StoppedIsEvident(c, r.worlds[i], r.steps[i], r.worlds[i + 1], stopped);
    EvidenceUnaltered(c, r, i + 1, k + 1, x);
    RunInv(c, r, k);
    RunStep(c, r, k);
    CrashForgets(c, r.worlds[k], r.steps[k], r.worlds[k + 1]);
    RunInv(c, r, k + 1);
    EvidenceOf(c, r.worlds[k + 1], x);
    RetoldFromEvidence(c, r, k + 1, m, j, stopped.exit, e);
    RunLater(c, r, k, m);
    StopAnswerMovesIff(r.worlds[k].agent, StateAt(r, m), x, stopped);
  }

  lemma CrashForgets(c: Codec, w: World, s: Step, w': World)
    requires Lawful(c) && Next(c, w, s, w') && s.Crash?
    ensures w'.agent == NewAgent(w'.agent.state) && w'.stopsDone == {}
  {
    hide Handle, Scan, Canonical, EncodeLog, CrashedDisk, RuntimeAfter, Moves;
  }
}
