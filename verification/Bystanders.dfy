/** What a handler does to one allocation beyond what it is about: its end, its launch bound, a stop begun for it. */
module Bystanders {
  import opened Types
  import opened JournalState
  import opened Executor
  import opened SessionSpec
  import opened SessionProofs
  import opened SessionFacts

  /** The end of `x` did not move: no exit journaled or held, no start taken on. */
  predicate EndLeft(a: Agent, b: Agent, x: AllocationId) {
    && (x in b.state.exits ==> x in a.state.exits)
    && (x in b.starting ==> x in a.starting)
    && Get(b.deferredExits, x) == Get(a.deferredExits, x)
  }

  predicate SamePlan(a: Agent, b: Agent, x: AllocationId) {
    && b.state.plan == a.state.plan
    && (x in b.launchBounds ==> x in a.launchBounds && b.launchBounds[x] == a.launchBounds[x])
  }

  /** Another plan was set at `now`, and the launch bound of `x` recomputed under it. */
  predicate Replanned(a: Agent, b: Agent, x: AllocationId, now: Timestamp) {
    && b.state.plan != a.state.plan
    && (x in b.launchBounds ==>
          && x in a.launchBounds && x in a.state.intents
          && b.launchBounds[x] == Rebound(a.launchBounds[x], TermsFor(b.state.plan, a.state.intents[x], now)))
  }

  /** The launch bound of `x`, if it is still there, moved only with the plan. */
  predicate BoundLeft(a: Agent, b: Agent, x: AllocationId, now: Timestamp) {
    Get(b.state.intents, x) == Get(a.state.intents, x) && (SamePlan(a, b, x) || Replanned(a, b, x, now))
  }

  /** A stop of `x` was begun: it is in flight, backing off, or abandoned. */
  predicate StopBegun(a: Agent, x: AllocationId) { x in a.stopping || x in a.stopAbandoned || x in a.stopRetryAt }

  /** No stop of `x` was begun without its tombstone. */
  predicate StopLeft(a: Agent, b: Agent, x: AllocationId) {
    && (x in a.state.tombstones ==> x in b.state.tombstones)
    && (StopBegun(b, x) ==> StopBegun(a, x) || x in b.state.tombstones)
  }

  predicate LeftAlone(a: Agent, b: Agent, x: AllocationId, now: Timestamp) {
    EndLeft(a, b, x) && BoundLeft(a, b, x, now) && StopLeft(a, b, x)
  }

  /** A launch bound belongs to a start in flight. */
  predicate Tracked(a: Agent, x: AllocationId) { x in a.launchBounds ==> x in a.starting && x in a.state.intents }

  lemma AgentTracks(a: Agent, x: AllocationId)
    requires AgentOk(a)
    ensures Tracked(a, x)
  {
  }

  lemma NoticesLeaveAlone(a: Agent, b: Agent, x: AllocationId, now: Timestamp)
    requires OnlyNotices(a, b)
    ensures LeftAlone(a, b, x, now) && SamePlan(a, b, x) && (Tracked(a, x) ==> Tracked(b, x))
  {
  }

  lemma WithPlanLeavesAlone(a: Agent, p: Plan, now: Timestamp, x: AllocationId)
    requires Tracked(a, x) && p != a.state.plan
    ensures LeftAlone(a, WithPlan(a, p, now), x, now)
  {
    hide TermsFor, Rebound;
  }

  lemma LeftAloneTwice(a: Agent, b: Agent, c: Agent, x: AllocationId, now: Timestamp)
    requires LeftAlone(a, b, x, now) && LeftAlone(b, c, x, now) && (SamePlan(a, b, x) || SamePlan(b, c, x))
    ensures LeftAlone(a, c, x, now)
  {
    hide TermsFor, Rebound;
  }

  lemma PlanLeavesAlone(a: Agent, p: Plan, allocs: seq<AllocationId>, now: Timestamp, x: AllocationId)
    requires Tracked(a, x) && p != a.state.plan
    ensures LeftAlone(a, NotifyAll(WithPlan(a, p, now), allocs, now).agent, x, now)
  {
    hide NotifyAll, WithPlan, OnlyNotices, LeftAlone;
    var b := WithPlan(a, p, now);
    WithPlanLeavesAlone(a, p, now, x);
    NotifyAllFacts(b, allocs, now, x);
    NoticesLeaveAlone(b, NotifyAll(b, allocs, now).agent, x, now);
    LeftAloneTwice(a, b, NotifyAll(b, allocs, now).agent, x, now);
  }

  lemma BeginStopLeavesAlone(a: Agent, alloc: AllocationId, x: AllocationId, now: Timestamp)
    ensures LeftAlone(a, BeginStop(a, alloc).agent, x, now) && SamePlan(a, BeginStop(a, alloc).agent, x)
  {
    hide TermsFor, Rebound, StopReason;
  }

  lemma {:induction false} BeginStopsLeaveAlone(a: Agent, allocs: seq<AllocationId>, x: AllocationId, now: Timestamp)
    ensures LeftAlone(a, BeginStops(a, allocs).agent, x, now) && SamePlan(a, BeginStops(a, allocs).agent, x)
    decreases |allocs|
  {
    hide BeginStop, LeftAlone;
    if allocs == [] {
      UnchangedLeavesAlone(a, x, now);
    } else {
      var b := BeginStop(a, allocs[0]).agent;
      BeginStopLeavesAlone(a, allocs[0], x, now);
      BeginStopsLeaveAlone(b, allocs[1..], x, now);
      LeftAloneTwice(a, b, BeginStops(b, allocs[1..]).agent, x, now);
    }
  }

  lemma UnchangedLeavesAlone(a: Agent, x: AllocationId, now: Timestamp)
    ensures LeftAlone(a, a, x, now) && SamePlan(a, a, x)
  {
  }

  lemma TimersLeaveAlone(a: Agent, now: Timestamp, x: AllocationId)
    ensures LeftAlone(a, OnTimers(a, now).agent, x, now)
  {
    hide NotifyAll, BeginStops, OnlyNotices, LeftAlone;
    var due := Ascending(DueNotices(a, now));
    var b := NotifyAll(a, due, now).agent;
    NotifyAllFacts(a, due, now, x);
    NoticesLeaveAlone(a, b, x, now);
    BeginStopsLeaveAlone(b, Ascending(DueStops(b, now)), x, now);
    LeftAloneTwice(a, b, OnTimers(a, now).agent, x, now);
  }

  lemma ResumingLeavesAlone(a: Agent, now: Timestamp, x: AllocationId)
    requires Tracked(a, x)
    ensures LeftAlone(a, ResumeNotices(a, now).agent, x, now)
  {
    hide NotifyAll, ResumeAll, Outstanding, WithPlan, OnlyNotices, LeftAlone;
    var live := Outstanding(a.state);
    var o := if a.state.plan == NO_PLAN then ResumeAll(a, live, now) else NotifyAll(a, live, now);
    ResumeAllFacts(a, live, now);
    NotifyAllFacts(a, live, now, x);
    NoticesLeaveAlone(a, o.agent, x, now);
    var p := o.agent.state.plan.(interruption := None);
    if p != o.agent.state.plan {
      WithPlanLeavesAlone(o.agent, p, now, x);
      LeftAloneTwice(a, o.agent, WithPlan(o.agent, p, now), x, now);
    }
  }

  lemma InterruptionLeavesAlone(a: Agent, deadline: Timestamp, now: Timestamp, x: AllocationId)
    requires Tracked(a, x)
    ensures LeftAlone(a, OnInterruption(a, deadline, now).agent, x, now)
  {
    hide NotifyAll, WithPlan, Outstanding, LeftAlone;
    UnchangedLeavesAlone(a, x, now);
    var p := a.state.plan.(interruption := Some(deadline));
    if p != a.state.plan { PlanLeavesAlone(a, p, Outstanding(WithPlan(a, p, now).state), now, x); }
  }

  lemma DrainLeavesAlone(a: Agent, deadlineUs: Option<i64>, windowUs: u64, now: Timestamp, x: AllocationId)
    requires Tracked(a, x)
    ensures LeftAlone(a, OnDrain(a, deadlineUs, windowUs, now).agent, x, now)
  {
    hide NotifyAll, WithPlan, DueNotices, FromMicros, LeftAlone;
    UnchangedLeavesAlone(a, x, now);
    var target := if deadlineUs.None? then None else FromMicros(deadlineUs.value);
    var p := a.state.plan.(operator :=
      if target.None? then None else Some(OperatorDrain(target.value, RuntimeBound(windowUs))));
    if p != a.state.plan { PlanLeavesAlone(a, p, Ascending(DueNotices(WithPlan(a, p, now), now)), now, x); }
  }

  lemma PreemptLeavesAlone(a: Agent, victim: Option<AllocationId>, why: Option<PreemptReason>, noticeUs: u64,
                            now: Timestamp, x: AllocationId)
    ensures LeftAlone(a, OnPreempt(a, victim, why, noticeUs, now).agent, x, now)
  {
    hide SignalAndMark, Notify, TermsFor, NoticeReports, OnlyNotices, LeftAlone;
    NoNotices(a);
    if victim.Some? && why.Some? && victim.value in a.state.intents {
      var alloc := victim.value;
      var terms := TermsFor(a.state.plan, a.state.intents[alloc], now);
      var asked := SatAdd(now, RuntimeBound(noticeUs));
      var stopAt := if terms.Some? then Min(asked, terms.value.stopAt) else asked;
      SignalAndMarkFacts(a, alloc, stopAt, now);
      NotifyFacts(a, alloc, why.value, stopAt, now);
    }
    NoticesLeaveAlone(a, OnPreempt(a, victim, why, noticeUs, now).agent, x, now);
  }

  lemma ArmedLeavesAlone(a: Agent, alloc: AllocationId, i: Intent, clock: Clock, x: AllocationId)
    ensures var armed := Armed(a, alloc, i, clock);
            && LeftAlone(a, armed, x, clock.wall) && SamePlan(a, armed, x)
            && (alloc in a.state.tombstones ==> LeftAlone(a, QueueStop(armed, alloc, i.abortGrace), x, clock.wall))
            && armed.state == a.state
  {
    hide TermsFor, Rebound;
  }

  lemma StartedLeavesAlone(a: Agent, alloc: AllocationId, i: Intent, clock: Clock, x: AllocationId)
    ensures LeftAlone(a, StartedOut(a, alloc, i, clock).agent, x, clock.wall)
  {
    hide NotifyUnderPlan, OnlyNotices, Armed, QueueStop, LeftAlone;
    var armed := Armed(a, alloc, i, clock);
    ArmedLeavesAlone(a, alloc, i, clock, x);
    var b := NotifyUnderPlan(armed, alloc, clock.wall).agent;
    NotifyUnderPlanFacts(armed, alloc, clock.wall);
    NoticesLeaveAlone(armed, b, x, clock.wall);
    LeftAloneTwice(a, armed, b, x, clock.wall);
  }

  lemma StartFailedLeavesOthers(a: Agent, alloc: AllocationId, i: Intent, bound: Option<StartBound>, e: StartError,
                                x: AllocationId, now: Timestamp)
    ensures var b := StartFailedOut(a, alloc, i, bound, e).agent;
            && BoundLeft(a, b, x, now) && StopLeft(a, b, x) && (x != alloc ==> EndLeft(a, b, x))
            && b.state.plan == a.state.plan && b.launchBounds == a.launchBounds
  {
    hide PlanRefusal, StartErrorOutcome, TermsFor, Rebound;
  }

  lemma UnboundLeavesAlone(a: Agent, alloc: AllocationId, x: AllocationId, now: Timestamp)
    ensures var b := a.(launchBounds := a.launchBounds - {alloc}, starting := a.starting - {alloc});
            LeftAlone(a, b, x, now) && SamePlan(a, b, x)
  {
  }

  /** A start that comes back leaves every launch bound but its own, and says nothing of an allocation not starting. */
  lemma StartLeavesAlone(a: Agent, alloc: AllocationId, result: StartResult, clock: Clock, x: AllocationId)
    ensures var b := FinishStart(a, alloc, result, clock).agent;
            && BoundLeft(a, b, x, clock.wall) && StopLeft(a, b, x) && SamePlan(a, b, x) && alloc !in b.launchBounds
            && (x != alloc || x !in a.starting ==> EndLeft(a, b, x))
  {
    hide StartedOut, StartFailedOut, TermsFor, Rebound;
    var a1 := a.(launchBounds := a.launchBounds - {alloc}, starting := a.starting - {alloc});
    UnboundLeavesAlone(a, alloc, x, clock.wall);
    if alloc in a.starting && alloc in a.state.intents {
      StartedLeavesAlone(a1, alloc, a.state.intents[alloc], clock, x);
      StartedKeepsPlan(a1, alloc, a.state.intents[alloc], clock);
      if result.Failed? {
        StartFailedLeavesOthers(a1, alloc, a.state.intents[alloc], Get(a.launchBounds, alloc), result.error, x,
                                clock.wall);
      }
    }
  }

  lemma StartedKeepsPlan(a: Agent, alloc: AllocationId, i: Intent, clock: Clock)
    ensures var b := StartedOut(a, alloc, i, clock).agent;
            b.state.plan == a.state.plan && b.launchBounds == a.launchBounds
  {
    hide NotifyUnderPlan;
    NotifyUnderPlanFacts(Armed(a, alloc, i, clock), alloc, clock.wall);
  }

  lemma OpenedLeavesAlone(a: Agent, i: Intent, latestStart: Option<Timestamp>, now: Timestamp, x: AllocationId)
    requires x != i.allocation
    ensures LeftAlone(a, Opened(a, i, latestStart, now), x, now) && SamePlan(a, Opened(a, i, latestStart, now), x)
  {
    hide TermsFor, Rebound;
  }

  lemma LaunchLeavesAlone(a: Agent, sj: StartJob, latestStart: Option<Timestamp>, clock: Clock, x: AllocationId)
    requires sj.ids.Some? && sj.ids.value.allocation != x
    ensures LeftAlone(a, Launch(a, sj, latestStart, clock).agent, x, clock.wall)
  {
    hide FinishStart, Opened, LeftAlone;
    var i := IntentFor(a, sj);
    var a1 := Opened(a, i, latestStart, clock.wall);
    OpenedLeavesAlone(a, i, latestStart, clock.wall, x);
    if latestStart.Some? && clock.wall > latestStart.value {
      RefusedLaunchLeavesAlone(a1, i.allocation, latestStart.value, clock, x);
      LeftAloneTwice(a, a1, Launch(a, sj, latestStart, clock).agent, x, clock.wall);
    } else {
      QueuedLeavesAlone(a, a1, Launch(a, sj, latestStart, clock).agent, x, clock.wall);
    }
  }

  lemma RefusedLaunchLeavesAlone(a: Agent, alloc: AllocationId, at: Timestamp, clock: Clock, x: AllocationId)
    requires x != alloc
    ensures LeftAlone(a, FinishStart(a, alloc, Failed(LaunchBoundPassed(at)), clock).agent, x, clock.wall)
  {
    hide FinishStart, EndLeft, BoundLeft, StopLeft;
    StartLeavesAlone(a, alloc, Failed(LaunchBoundPassed(at)), clock, x);
  }

  lemma QueuedLeavesAlone(a: Agent, a1: Agent, b: Agent, x: AllocationId, now: Timestamp)
    requires LeftAlone(a, a1, x, now) && b == a1.(pendingStarts := b.pendingStarts)
    ensures LeftAlone(a, b, x, now)
  {
    hide TermsFor, Rebound;
  }

  lemma RefusalLeavesAlone(a: Agent, ids: StartIds, reason: PreemptReason, x: AllocationId, now: Timestamp)
    ensures LeftAlone(a, Refuse(a, ids, reason).agent, x, now)
  {
  }

  lemma StartJobLeavesAlone(a: Agent, sj: StartJob, clock: Clock, x: AllocationId)
    requires sj.ids.Some? && sj.ids.value.allocation == x ==> x in a.state.intents
    ensures LeftAlone(a, OnStartJob(a, sj, clock).agent, x, clock.wall)
  {
    hide Launch, Refuse, DoorRefusal, CurrentStatus, FromMicros, RuntimeBound, LeftAlone;
    UnchangedLeavesAlone(a, x, clock.wall);
    if sj.ids.Some? && sj.ids.value.allocation !in a.state.intents {
      LaunchLeavesAlone(a, sj, OwnLatestStart(sj), clock, x);
      var refusal := DoorRefusal(a, RuntimeBound(sj.abortGraceUs), RuntimeBound(sj.cleanupMarginUs), clock.wall);
      if refusal.Some? { RefusalLeavesAlone(a, sj.ids.value, refusal.value, x, clock.wall); }
    }
  }

  lemma StopJobLeavesAlone(a: Agent, target: Option<AllocationId>, graceUs: i64, x: AllocationId, now: Timestamp)
    ensures LeftAlone(a, OnStopJob(a, target, graceUs).agent, x, now)
  {
    hide TermsFor, Rebound;
  }

  /** The allocation a fresh command would take on as new, if it is a StartJob. */
  predicate TakesOn(a: Agent, body: Body, x: AllocationId) {
    body.StartJobBody? && body.start.ids.Some? && body.start.ids.value.allocation == x && x !in a.state.intents
  }

  lemma FreshLeavesAlone(a: Agent, body: Body, clock: Clock, x: AllocationId)
    requires Tracked(a, x) && !TakesOn(a, body, x)
    ensures LeftAlone(a, OnFresh(a, body, clock).agent, x, clock.wall)
  {
    hide OnStartJob, OnStopJob, OnPreempt, OnDrain, LeftAlone;
    UnchangedLeavesAlone(a, x, clock.wall);
    match body
    case StartJobBody(sj) => StartJobLeavesAlone(a, sj, clock, x);
    case StopJobBody(target, grace) => StopJobLeavesAlone(a, target, grace, x, clock.wall);
    case PreemptJobBody(victim, why, notice) => PreemptLeavesAlone(a, victim, why, notice, clock.wall, x);
    case DrainBody(deadline, window) => DrainLeavesAlone(a, deadline, window, clock.wall, x);
    case _ =>
  }

  lemma AdmitLeavesAlone(a: Agent, h: Header, x: AllocationId, now: Timestamp)
    ensures var b := Admit(a, h).agent;
            LeftAlone(a, b, x, now) && SamePlan(a, b, x) && (Tracked(a, x) ==> Tracked(b, x))
  {
    hide Admit;
    AdmitKeeps(a, h);
  }

  lemma RegisterLeavesAlone(a: Agent, rt: Runtime, clock: Clock, x: AllocationId)
    ensures LeftAlone(a, OnRegisterAccepted(a, rt, clock).agent, x, clock.wall)
  {
    hide SpentIds, Rearmed, UnresolveAll, Seen, LeftAlone;
    HearingLeavesAlone(a, OnRegisterAccepted(a, rt, clock).agent, x, clock.wall);
  }

  lemma HearingLeavesAlone(a: Agent, b: Agent, x: AllocationId, now: Timestamp)
    requires b == a.(registered := true, pendingReaps := b.pendingReaps, armedWatchdogs := b.armedWatchdogs)
    ensures LeftAlone(a, b, x, now)
  {
    hide TermsFor, Rebound;
  }

  lemma CommandLeavesAlone(a: Agent, rt: Runtime, cmd: Command, clock: Clock, x: AllocationId)
    requires Tracked(a, x) && (cmd.body.Some? ==> !TakesOn(a, cmd.body.value, x))
    ensures LeftAlone(a, HandleCommand(a, rt, cmd, clock).agent, x, clock.wall)
  {
    hide Admit, OnFresh, OnRegisterAccepted, LeftAlone;
    UnchangedLeavesAlone(a, x, clock.wall);
    if Accepts(a, cmd) {
      var b, o := Admit(a, cmd.header.value).agent, HandleCommand(a, rt, cmd, clock).agent;
      AdmitLeavesAlone(a, cmd.header.value, x, clock.wall);
      AdmitKeeps(a, cmd.header.value);
      UnchangedLeavesAlone(b, x, clock.wall);
      RegisterLeavesAlone(b, rt, clock, x);
      FreshLeavesAlone(b, cmd.body.value, clock, x);
      LeftAloneTwice(a, b, o, x, clock.wall);
    }
  }

  // ---- the handlers that are about an end ----

  lemma RecordLeavesBounds(a: Agent, alloc: AllocationId, outcome: Outcome, runtime: Duration, x: AllocationId)
    requires alloc in a.state.intents
    ensures SamePlan(a, RecordExit(a, alloc, outcome, runtime).agent, x)
    ensures StopLeft(a, RecordExit(a, alloc, outcome, runtime).agent, x)
    ensures RecordExit(a, alloc, outcome, runtime).agent.state.intents == a.state.intents
    ensures x != alloc ==> EndLeft(a, RecordExit(a, alloc, outcome, runtime).agent, x)
  {
  }

  lemma ExitLeavesBounds(a: Agent, alloc: AllocationId, exit: ExitInfo, x: AllocationId, now: Timestamp)
    ensures BoundLeft(a, OnObservedExit(a, alloc, exit).agent, x, now)
    ensures StopLeft(a, OnObservedExit(a, alloc, exit).agent, x)
    ensures x != alloc ==> EndLeft(a, OnObservedExit(a, alloc, exit).agent, x)
  {
    hide ClassifyExit, AttributionOf, RecordExit, TermsFor, Rebound;
    if alloc in a.state.intents {
      RecordLeavesBounds(a.(stopRetryAt := a.stopRetryAt - {alloc}), alloc,
                         ClassifyExit(exit, AttributionOf(a.state, alloc)), exit.runtime, x);
    }
  }

  lemma WatchdogLeavesBounds(a: Agent, rt: Runtime, alloc: AllocationId, x: AllocationId, now: Timestamp)
    ensures BoundLeft(a, OnMaxRuntime(a, rt, alloc).agent, x, now)
    ensures StopLeft(a, OnMaxRuntime(a, rt, alloc).agent, x)
    ensures x != alloc || x in a.starting ==> EndLeft(a, OnMaxRuntime(a, rt, alloc).agent, x)
  {
    hide ClassifyStop, StopContainer, AttributionOf, RecordExit, TermsFor, Rebound;
    var classified := ClassifyStop(StopContainer(rt, alloc).1, RuntimeLimitExceeded, AttributionOf(a.state, alloc));
    if alloc in a.state.intents && classified.Some? {
      RecordLeavesBounds(a, alloc, classified.value.0, classified.value.1, x);
    }
  }

  /** A stop that comes back was in flight, so it begins none. */
  lemma StopLeavesBounds(a: Agent, alloc: AllocationId, result: StopResult, now: Timestamp, x: AllocationId)
    requires alloc in a.stopping
    ensures BoundLeft(a, FinishStop(a, alloc, result, now).agent, x, now)
    ensures StopLeft(a, FinishStop(a, alloc, result, now).agent, x)
    ensures x != alloc ==> EndLeft(a, FinishStop(a, alloc, result, now).agent, x)
  {
    hide StopVerdict, RecordExit, TermsFor, Rebound;
    var a1 := a.(stopping := a.stopping - {alloc}, deferredExits := a.deferredExits - {alloc});
    var verdict := StopVerdict(a, alloc, result);
    if alloc in a.state.intents && verdict.Some? {
      RecordLeavesBounds(a1, alloc, verdict.value.0, verdict.value.1, x);
    }
  }

  // ---- a start taken on ----

  function OwnLatestStart(sj: StartJob): Option<Timestamp> {
    if sj.latestStartUs.None? then None else FromMicros(sj.latestStartUs.value)
  }

  /** The launch bound a StartJob handled at `now` opens: its own latest start, lowered to the plan's stop. */
  function OpenedBound(sj: StartJob, p: Plan, i: Intent, now: Timestamp): StartBound {
    Rebound(StartBound(OwnLatestStart(sj), OwnLatestStart(sj), None), TermsFor(p, i, now))
  }

  /** `x` is new: its launch bound, if it has one, is as its StartJob opened it, under an unchanged plan. */
  predicate TakenOn(a: Agent, b: Agent, sj: StartJob, x: AllocationId, now: Timestamp) {
    && b.state.plan == a.state.plan && StopLeft(a, b, x)
    && (x in b.launchBounds ==>
          x in b.state.intents && b.launchBounds[x] == OpenedBound(sj, a.state.plan, b.state.intents[x], now))
  }

  lemma LaunchTakesOn(a: Agent, sj: StartJob, clock: Clock, x: AllocationId)
    requires sj.ids.Some? && sj.ids.value.allocation == x
    ensures TakenOn(a, Launch(a, sj, OwnLatestStart(sj), clock).agent, sj, x, clock.wall)
  {
    hide FinishStart, TermsFor, Rebound, OwnLatestStart;
    var i, latestStart := IntentFor(a, sj), OwnLatestStart(sj);
    if latestStart.Some? {
      StartLeavesAlone(Opened(a, i, latestStart, clock.wall), x, Failed(LaunchBoundPassed(latestStart.value)), clock,
                       x);
    }
  }

  lemma RefusalTakesOn(a: Agent, ids: StartIds, reason: PreemptReason, sj: StartJob, x: AllocationId, now: Timestamp)
    requires x !in a.launchBounds
    ensures TakenOn(a, a, sj, x, now) && TakenOn(a, Refuse(a, ids, reason).agent, sj, x, now)
  {
  }

  lemma CommandTakesOn(a: Agent, rt: Runtime, cmd: Command, clock: Clock, x: AllocationId)
    requires Tracked(a, x) && cmd.body.Some? && TakesOn(a, cmd.body.value, x)
    ensures TakenOn(a, HandleCommand(a, rt, cmd, clock).agent, cmd.body.value.start, x, clock.wall)
  {
    hide Admit, OnStartJob, TakenOn;
    var sj := cmd.body.value.start;
    RefusalTakesOn(a, sj.ids.value, Drain, sj, x, clock.wall);
    if Accepts(a, cmd) {
      var b := Admit(a, cmd.header.value).agent;
      AdmitKeeps(a, cmd.header.value);
      RefusalTakesOn(b, sj.ids.value, Drain, sj, x, clock.wall);
      StartJobTakesOn(b, sj, clock, x);
      AdmittedTakesOn(a, b, HandleCommand(a, rt, cmd, clock).agent, sj, x, clock.wall);
    }
  }

  lemma AdmittedTakesOn(a: Agent, b: Agent, c: Agent, sj: StartJob, x: AllocationId, now: Timestamp)
    requires OnlyFencingMoved(a, b) && TakenOn(b, c, sj, x, now)
    ensures TakenOn(a, c, sj, x, now)
  {
    hide OpenedBound;
  }

  lemma StartJobTakesOn(a: Agent, sj: StartJob, clock: Clock, x: AllocationId)
    requires sj.ids.Some? && sj.ids.value.allocation == x && x !in a.state.intents && x !in a.launchBounds
    ensures TakenOn(a, OnStartJob(a, sj, clock).agent, sj, x, clock.wall)
  {
    hide Launch, Refuse, DoorRefusal, CurrentStatus, FromMicros, RuntimeBound, TakenOn;
    RefusalTakesOn(a, sj.ids.value, Drain, sj, x, clock.wall);
    LaunchTakesOn(a, sj, clock, x);
    var refusal := DoorRefusal(a, RuntimeBound(sj.abortGraceUs), RuntimeBound(sj.cleanupMarginUs), clock.wall);
    if refusal.Some? { RefusalTakesOn(a, sj.ids.value, refusal.value, sj, x, clock.wall); }
  }
}
