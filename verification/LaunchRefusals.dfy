/** A launch refused at its bound, over whole runs: whose bound it was, and what is journaled for it. */
module LaunchRefusals {
  import opened Types
  import opened JournalState
  import opened Framing
  import opened Executor
  import opened SessionSpec
  import opened Effects
  import opened SessionProofs
  import opened Bystanders
  import opened System
  import opened SystemProofs
  import opened Runs
  import opened StopRuns
  import opened DrainPlans
  import opened PlanRuns

  // ---- launch bounds from step to step ----

  lemma StepLeavesBound(c: Codec, w: World, s: Step, w': World, x: AllocationId)
    requires Lawful(c) && Inv(c, w) && Next(c, w, s, w') && s.Deliver? && Expected(w.agent, s.ev)
    requires x in w.agent.state.intents
    ensures BoundLeft(w.agent, w'.agent, x, s.clock.wall)
  {
    hide Inv, Handle, DiskAfter, RuntimeAfter, WithSpecs, AgentOk, TermsFor, Rebound;
    InvQueues(c, w);
    HandlerLeavesBound(w.agent, Taken(w, s.ev).rt, s.ev, s.clock, x);
  }

  /** Step `k` sets a plan whose stop for `x` comes before the start's own latest start. */
  predicate PlanLowers(r: Run, k: nat, x: AllocationId)
    requires k < |r.steps| && |r.worlds| == |r.steps| + 1
  {
    && r.steps[k].Deliver? && StateAt(r, k + 1).plan != StateAt(r, k).plan
    && x in StateAt(r, k).intents && x in r.worlds[k].agent.launchBounds
    && Lowers(r.worlds[k].agent.launchBounds[x].latestStart,
              TermsFor(StateAt(r, k + 1).plan, StateAt(r, k).intents[x], r.steps[k].clock.wall))
  }

  /** The reason a plan gives: an interruption's, while it holds one. */
  function ReasonOf(p: Plan): PreemptReason { if p.interruption.Some? then Interruption else Drain }

  lemma TermsReason(p: Plan, i: Intent, now: Timestamp)
    ensures TermsFor(p, i, now).Some? ==> TermsFor(p, i, now).value.reason == ReasonOf(p)
  {
  }

  lemma StepReason(c: Codec, r: Run, k: nat, x: AllocationId)
    requires Lawful(c) && IsRun(c, r) && k < |r.steps| && !r.steps[k].Crash?
    requires x in StateAt(r, k).intents && x in r.worlds[k + 1].agent.launchBounds
    ensures x in r.worlds[k].agent.launchBounds
    ensures var b, b' := r.worlds[k].agent.launchBounds[x], r.worlds[k + 1].agent.launchBounds[x];
            && b'.latestStart == b.latestStart
            && b'.planReason == if PlanLowers(r, k, x) then Some(ReasonOf(StateAt(r, k + 1).plan)) else b.planReason
  {
    hide Inv, Init, Next, TermsFor, Rebound, Earliest;
    RunInv(c, r, k);
    RunStep(c, r, k);
    if r.steps[k].Deliver? {
      ExpectedResult(c, r, k);
      StepLeavesBound(c, r.worlds[k], r.steps[k], r.worlds[k + 1], x);
      var terms := TermsFor(StateAt(r, k + 1).plan, StateAt(r, k).intents[x], r.steps[k].clock.wall);
      if x in r.worlds[k].agent.launchBounds { ReboundIsEarliest(r.worlds[k].agent.launchBounds[x], terms); }
      TermsReason(StateAt(r, k + 1).plan, StateAt(r, k).intents[x], r.steps[k].clock.wall);
    } else {
      StepMovesBound(c, r.worlds[k], r.steps[k], r.worlds[k + 1], x);
    }
  }

  /** `k` is the last step in `[i, j)` to lower the launch bound of `x`. */
  ghost predicate LastLowering(r: Run, i: nat, j: nat, k: nat, x: AllocationId)
    requires i <= j < |r.worlds| == |r.steps| + 1
  {
    i <= k < j && PlanLowers(r, k, x) && forall m :: k < m < j ==> !PlanLowers(r, m, x)
  }

  /** From `before` the reason held against `x` became `after`: that of the last plan in `[i, j)` to lower its bound. */
  ghost predicate ReasonMoves(r: Run, i: nat, j: nat, x: AllocationId, before: Option<PreemptReason>,
                              after: Option<PreemptReason>)
    requires i <= j < |r.worlds| == |r.steps| + 1
  {
    || (after == before && forall k :: i <= k < j ==> !PlanLowers(r, k, x))
    || (exists k: nat :: LastLowering(r, i, j, k, x) && after == Some(ReasonOf(StateAt(r, k + 1).plan)))
  }

  /** Whichever step was the last in `[i, j)` to lower the launch bound of `x`, its plan gave this reason. */
  ghost predicate LoweredOnlyFor(r: Run, i: nat, j: nat, x: AllocationId, reason: PreemptReason)
    requires i <= j < |r.worlds| == |r.steps| + 1
  {
    forall k: nat :: LastLowering(r, i, j, k, x) ==> ReasonOf(StateAt(r, k + 1).plan) == reason
  }

  lemma ReasonMovesOn(r: Run, i: nat, j: nat, x: AllocationId, before: Option<PreemptReason>,
                      mid: Option<PreemptReason>, after: Option<PreemptReason>)
    requires i <= j < |r.steps| && |r.worlds| == |r.steps| + 1 && ReasonMoves(r, i, j, x, before, mid)
    requires after == if PlanLowers(r, j, x) then Some(ReasonOf(StateAt(r, j + 1).plan)) else mid
    ensures ReasonMoves(r, i, j + 1, x, before, after)
  {
    hide PlanLowers, ReasonOf;
    if PlanLowers(r, j, x) {
      assert LastLowering(r, i, j + 1, j, x);
    } else if k: nat :| LastLowering(r, i, j, k, x) && mid == Some(ReasonOf(StateAt(r, k + 1).plan)) {
      assert LastLowering(r, i, j + 1, k, x);
    }
  }

  lemma SameReasonIff(r: Run, i: nat, j: nat, x: AllocationId, before: PreemptReason, after: Option<PreemptReason>)
    requires i <= j < |r.worlds| == |r.steps| + 1 && ReasonMoves(r, i, j, x, Some(before), after)
    ensures after == Some(before) <==> LoweredOnlyFor(r, i, j, x, before)
  {
    hide PlanLowers, ReasonOf;
  }

  /**
   * While a start is in flight its own latest start never changes, and the reason held against it is that of
   * the last plan that lowered its bound.
   */
  lemma {:induction false} BoundIsCarried(c: Codec, r: Run, i: nat, j: nat, x: AllocationId)
    requires Lawful(c) && IsRun(c, r) && i <= j < |r.worlds| && Uninterrupted(r, i, j)
    requires x in StateAt(r, i).intents && x in r.worlds[j].agent.launchBounds
    ensures x in r.worlds[i].agent.launchBounds
    ensures var b, b' := r.worlds[i].agent.launchBounds[x], r.worlds[j].agent.launchBounds[x];
            b'.latestStart == b.latestStart && ReasonMoves(r, i, j, x, b.planReason, b'.planReason)
    decreases j
  {
    hide Next, Init, PlanLowers, ReasonOf;
    if i < j {
      RunLater(c, r, i, j - 1);
      StepReason(c, r, j - 1, x);
      BoundIsCarried(c, r, i, j - 1, x);
      ReasonMovesOn(r, i, j - 1, x, r.worlds[i].agent.launchBounds[x].planReason,
                    r.worlds[j - 1].agent.launchBounds[x].planReason, r.worlds[j].agent.launchBounds[x].planReason);
    }
  }

  // ---- the bound a start was dispatched with ----

  /** The start queued for `x` was dispatched by this StartJob, and is bound by its latest start. */
  predicate Dispatched(b: Agent, sj: StartJob, x: AllocationId) {
    && sj.ids.Some? && sj.ids.value.allocation == x
    && x in b.launchBounds && b.launchBounds[x].latestStart == OwnLatestStart(sj)
  }

  lemma HandlerDispatches(a: Agent, rt: Runtime, ev: Event, clock: Clock, x: AllocationId)
    requires AgentOk(a) && Expected(a, ev) && x !in a.state.intents && x in Handle(a, rt, ev, clock).agent.launchBounds
    ensures ev.CommandArrives? && ev.cmd.body.Some? && ev.cmd.body.value.StartJobBody?
    ensures Dispatched(Handle(a, rt, ev, clock).agent, ev.cmd.body.value.start, x)
  {
    hide Handle, HandleCommand, TermsFor, Rebound, Earliest, OwnLatestStart, Accounted;
    if ev.CommandArrives? && ev.cmd.body.Some? && TakesOn(a, ev.cmd.body.value, x) {
      var sj := ev.cmd.body.value.start;
      HandlesCommand(a, rt, ev, clock);
      CommandTakesOn(a, rt, ev.cmd, clock, x);
      var b := Handle(a, rt, ev, clock).agent;
      ReboundIsEarliest(StartBound(OwnLatestStart(sj), OwnLatestStart(sj), None),
                        TermsFor(a.state.plan, b.state.intents[x], clock.wall));
    } else {
      HandlerLeavesBound(a, rt, ev, clock, x);
      assert false;
    }
  }

  /** Whatever plans come and go, a start in flight is bound by the latest start its own StartJob named. */
  lemma OwnBoundIsTheCommands(c: Codec, r: Run, k: nat, j: nat, a: AllocationId)
    requires Lawful(c) && IsRun(c, r) && k < j < |r.worlds| && r.worlds[k + 1].queued[a] > r.worlds[k].queued[a]
    requires Uninterrupted(r, k + 1, j) && a in r.worlds[j].agent.launchBounds
    ensures r.steps[k].Deliver? && r.steps[k].ev.CommandArrives?
    ensures var cmd := r.steps[k].ev.cmd;
            && cmd.body.Some? && cmd.body.value.StartJobBody?
            && Dispatched(r.worlds[j].agent, cmd.body.value.start, a)
  {
    hide Inv, Init, Next, Scan, OwnLatestStart, PlanLowers;
    RunInv(c, r, k);
    RunStep(c, r, k);
    QueuedStep(c, r.worlds[k], r.steps[k], r.worlds[k + 1], a);
    BoundIsCarried(c, r, k + 1, j, a);
    ExpectedResult(c, r, k);
    DispatchStep(c, r.worlds[k], r.steps[k], r.worlds[k + 1], a);
  }

  lemma DispatchStep(c: Codec, w: World, s: Step, w': World, x: AllocationId)
    requires Lawful(c) && Inv(c, w) && Next(c, w, s, w') && s.Deliver? && Expected(w.agent, s.ev)
    requires x !in w.agent.state.intents && x in w'.agent.launchBounds
    ensures s.ev.CommandArrives? && s.ev.cmd.body.Some? && s.ev.cmd.body.value.StartJobBody?
    ensures Dispatched(w'.agent, s.ev.cmd.body.value.start, x)
  {
    hide Inv, Handle, DiskAfter, RuntimeAfter, WithSpecs, AgentOk, OwnLatestStart;
    InvQueues(c, w);
    HandlerDispatches(w.agent, Taken(w, s.ev).rt, s.ev, s.clock, x);
  }

  // ---- every result is awaited ----

  /**
   * Each result on its way is its start's only one, and the agent still waits for it; a failed one has no
   * container.
   */
  ghost predicate ResultsAwaited(w: World) {
    && (forall d :: d in w.startsDone ==>
          && d.0 in w.agent.starting
          && (d.1.Failed? ==> d.0 !in w.agent.state.exits && StartCount(w.rt, d.0) == 0))
    && (forall d, e :: d in w.startsDone && e in w.startsDone && d.0 == e.0 ==> d == e)
  }

  /** The one start of `x` has run and its result is gone. */
  ghost predicate Spent(w: World, x: AllocationId) {
    w.queued[x] >= 1 && w.inflight[x] == 0 && forall d :: d in w.startsDone ==> d.0 != x
  }

  lemma StartedOnce(c: Codec, w: World, x: AllocationId)
    requires Lawful(c) && Inv(c, w)
    ensures StartCount(w.rt, x) + w.inflight[x] <= w.queued[x] <= 1
    ensures forall d :: d in w.startsDone && d.0 == x ==> w.inflight[x] == 0
    ensures forall i :: 0 <= i < |w.rt.queue| && w.rt.queue[i].allocation == x && x !in w.agent.state.exits ==>
              StartCount(w.rt, x) >= 1
  {
    hide Clean, AgentOk, RuntimeInv, Finished, ReapsJournaled;
  }

  lemma DeliveredKeepsResult(c: Codec, w: World, s: Step, w': World, d: (AllocationId, StartResult))
    requires Lawful(c) && Inv(c, w) && StopsOk(w) && ResultsAwaited(w) && Next(c, w, s, w') && s.Deliver?
    requires d in w'.startsDone
    ensures d.0 in w'.agent.starting && (d.1.Failed? ==> d.0 !in w'.agent.state.exits && StartCount(w'.rt, d.0) == 0)
  {
    hide Inv, Handle, DiskAfter, RuntimeAfter, WithSpecs, AgentOk, Sound, StartCount, MayEnd, EndLeft;
    var x := d.0;
    InvQueues(c, w);
    AwaitedIsLive(w.agent, x);
    HandleSound(c, w, s.ev, s.clock);
    StepCounts(c, w, s, w');
    SameCount(w.rt, w'.rt, x);
    if d.1.Failed? {
      ResultEndsNothing(c, w, s.ev, d);
      HandlerLeavesEnd(w.agent, Taken(w, s.ev).rt, s.ev, s.clock, x);
      EndIsLeft(w.agent, Handle(w.agent, Taken(w, s.ev).rt, s.ev, s.clock).agent, x);
    }
  }

  lemma EndIsLeft(a: Agent, b: Agent, x: AllocationId)
    requires EndLeft(a, b, x) && x !in a.state.exits
    ensures x !in b.state.exits
  {
  }

  lemma AwaitedIsLive(a: Agent, x: AllocationId)
    requires AgentOk(a) && x in a.starting
    ensures x in a.state.intents
  {
  }

  lemma SameCount(rt: Runtime, rt': Runtime, x: AllocationId)
    requires rt'.startCounts == rt.startCounts
    ensures StartCount(rt', x) == StartCount(rt, x)
  {
  }

  /** With a failed result on its way, no event but that result can end its allocation. */
  lemma ResultEndsNothing(c: Codec, w: World, ev: Event, d: (AllocationId, StartResult))
    requires Lawful(c) && Inv(c, w) && StopsOk(w) && ResultsAwaited(w) && Ready(w, ev)
    requires d in Taken(w, ev).startsDone && d.1.Failed?
    ensures d in w.startsDone && !MayEnd(w.agent, ev, d.0) && Expected(w.agent, ev)
  {
    hide Inv;
    StartedOnce(c, w, d.0);
  }

  lemma StepAwaits(c: Codec, w: World, s: Step, w': World)
    requires Lawful(c) && Inv(c, w) && StopsOk(w) && ResultsAwaited(w) && Next(c, w, s, w')
    ensures ResultsAwaited(w')
  {
    hide Inv, Handle, Scan, Canonical, EncodeLog, CrashedDisk, DiskAfter, RuntimeAfter, WithSpecs, StopsOk,
         StartCount, StartContainer, StopContainer, Finish, Reap;
    if s.Deliver? {
      forall d | d in w'.startsDone ensures d in w.startsDone && d.0 in w'.agent.starting
          && (d.1.Failed? ==> d.0 !in w'.agent.state.exits && StartCount(w'.rt, d.0) == 0)
      {
        DeliveredKeepsResult(c, w, s, w', d);
      }
    } else if s.RunStart? {
      RanIsAwaited(c, w, s, w');
    } else if !s.Crash? {
      StepCounts(c, w, s, w');
      forall d | d in w'.startsDone ensures StartCount(w'.rt, d.0) ==
        StartCount(w.rt, d.0) { SameCount(w.rt, w'.rt, d.0); }
    }
  }

  lemma RanIsAwaited(c: Codec, w: World, s: Step, w': World)
    requires Lawful(c) && Inv(c, w) && ResultsAwaited(w) && Next(c, w, s, w') && s.RunStart?
    ensures ResultsAwaited(w')
  {
    hide Inv, Crashes, Performed, StopRun, StartContainer, StartCount;
    InflightIsLive(c, w, s.alloc);
    StartedOnce(c, w, s.alloc);
    forall d | d in w'.startsDone && d.1.Failed? ensures StartCount(w'.rt, d.0) == 0 {
      if !s.gaveUp {
        var spec := w.specs[s.alloc];
        StartingCounts(w.rt, s.alloc, spec.attempt, spec.job, CurrentBound(w.agent, s.alloc), d.0);
      }
    }
  }

  lemma StartingCounts(rt: Runtime, b: AllocationId, attempt: AttemptId, job: JobId, bound: Option<Timestamp>,
                       x: AllocationId)
    ensures var (rt', result) := StartContainer(rt, b, attempt, job, bound);
            x != b || result.Failed? ==> StartCount(rt', x) == StartCount(rt, x)
  {
  }

  lemma {:induction false} RunAwaits(c: Codec, r: Run, i: nat)
    requires Lawful(c) && IsRun(c, r) && i < |r.worlds|
    ensures ResultsAwaited(r.worlds[i])
  {
    hide Inv, Next, EncodeLog, Canonical, NewAgent;
    if i > 0 {
      RunAwaits(c, r, i - 1);
      RunInv(c, r, i - 1);
      RunStops(c, r, i - 1);
      RunStep(c, r, i - 1);
      StepAwaits(c, r.worlds[i - 1], r.steps[i - 1], r.worlds[i]);
    }
  }

  lemma StepSpends(c: Codec, w: World, s: Step, w': World, x: AllocationId)
    requires Lawful(c) && Inv(c, w') && Next(c, w, s, w') && w.queued[x] >= 1
    ensures w'.queued[x] >= 1 && (s.Crash? || Spent(w, x) ==> Spent(w', x))
  {
    hide Inv, Handle, Scan, Canonical, EncodeLog, CrashedDisk, DiskAfter, RuntimeAfter, WithSpecs, StartContainer,
         StopContainer, Finish, Reap;
    StartedOnce(c, w', x);
  }

  /** A result that arrives was sent to the process it reaches: no crash lies between. */
  lemma {:induction false} QueuedThenSpent(c: Codec, r: Run, i: nat, j: nat, x: AllocationId)
    requires Lawful(c) && IsRun(c, r) && i <= j < |r.worlds| && r.worlds[i].queued[x] >= 1
    ensures r.worlds[j].queued[x] >= 1 && (Uninterrupted(r, i, j) || Spent(r.worlds[j], x))
    decreases j
  {
    hide Inv, Next, Init, Spent;
    if i < j {
      QueuedThenSpent(c, r, i, j - 1, x);
      RunInv(c, r, j);
      RunStep(c, r, j - 1);
      StepSpends(c, r.worlds[j - 1], r.steps[j - 1], r.worlds[j], x);
    }
  }

  // ---- the refusal ----

  /** The step at which the start of `a` reached its launch point and was refused at the bound `at` then in force. */
  predicate RefusedAt(w: World, s: Step, a: AllocationId, at: Timestamp) {
    && Enabled(w, s) && s.RunStart? && s.alloc == a && (s.gaveUp || a !in w.rt.failStarts)
    && StartRun(w, a, s.gaveUp).1 == Failed(LaunchBoundPassed(at))
  }

  lemma RefusedByBound(w: World, s: Step, a: AllocationId, at: Timestamp)
    requires RefusedAt(w, s, a, at)
    ensures CurrentBound(w.agent, a) == Some(at) && w.rt.now >= at
  {
  }

  predicate AnswersRefusal(s: Step, a: AllocationId, at: Timestamp) {
    s.Deliver? && s.ev == StartFinished(a, Failed(LaunchBoundPassed(at)))
  }

  lemma RefusalHandled(a: Agent, x: AllocationId, at: Timestamp, clock: Clock)
    requires x in a.starting && x in a.launchBounds && x in a.state.intents && x !in a.state.exits
    ensures var o := FinishStart(a, x, Failed(LaunchBoundPassed(at)), clock);
            var b, i := a.launchBounds[x], a.state.intents[x];
            if b.latestStart == Some(at) then
              && o.fx == [Append(ObservedExit(Exit(x, i.attempt, i.job, Revoked, 0)))]
              && o.reports == [Ending(a, x, i.attempt, i.job, Revoked, 0)]
            else
              b.planReason.Some? ==>
                var reason := b.planReason.value;
                && o.fx == [Append(Tombstone(x, Preempt(reason))),
                            Append(ObservedExit(Exit(x, i.attempt, i.job, Preempted(reason), 0)))]
                && o.reports == [Ending(a, x, i.attempt, i.job, Preempted(reason), 0)]
  {
  }

  /** How a refused launch is told: its exit, what is journaled for it in order, and the report. */
  predicate ToldRefused(w: World, s: Step, w': World, a: AllocationId, at: Timestamp)
    requires Enabled(w, s) && s.Deliver? && a in w.agent.launchBounds
  {
    var b, fx := w.agent.launchBounds[a], Interrupts(w, s).fx;
    && a in w'.agent.state.exits
    && var exit := w'.agent.state.exits[a];
       && (exit.outcome == Revoked <==> b.latestStart == Some(at))
       && Sent(w, s) == [Ending(w.agent, a, exit.attempt, exit.job, exit.outcome, 0)]
       && (b.latestStart == Some(at) ==> fx == [Append(ObservedExit(exit))])
       && (b.latestStart != Some(at) ==>
             && b.planReason.Some? && exit.outcome == Preempted(b.planReason.value)
             && fx == [Append(Tombstone(a, Preempt(b.planReason.value))), Append(ObservedExit(exit))])
  }

  lemma RefusalStep(c: Codec, w: World, s: Step, w': World, a: AllocationId, at: Timestamp)
    requires Lawful(c) && Inv(c, w) && Next(c, w, s, w') && AnswersRefusal(s, a, at)
    requires a in w.agent.starting && a in w.agent.launchBounds && a in w.agent.state.intents
             && a !in w.agent.state.exits
    requires w.agent.launchBounds[a].latestStart == Some(at) || w.agent.launchBounds[a].planReason.Some?
    ensures ToldRefused(w, s, w', a, at)
  {
    hide Inv, Next, FinishStart, StateAfter;
    NextEnabled(c, w, s, w');
    RefusalHandled(w.agent, a, at, s.clock);
    RefusalJournaled(c, w, s, w');
    var fx := Interrupts(w, s).fx;
    if |fx| == 1 {
      OneEffect(w.agent.state, w.rt, {}, fx[0]);
    } else {
      TwoEffects(w.agent.state, fx);
    }
  }

  lemma TwoEffects(s: State, fx: seq<Effect>)
    requires |fx| == 2
    ensures StateAfter(s, fx) == StateAfterOne(StateAfterOne(s, fx[0]), fx[1])
  {
    var mid := StateAfterOne(s, fx[0]);
    OneEffect(s, NO_CONTAINERS, {}, fx[0]);
    OneEffect(mid, NO_CONTAINERS, {}, fx[1]);
    EffectsConcat(s, NO_CONTAINERS, {}, [fx[0]], [fx[1]]);
    assert fx == [fx[0]] + [fx[1]];
  }

  lemma ReasonIsHeld(r: Run, i: nat, j: nat, x: AllocationId, before: PreemptReason, after: Option<PreemptReason>)
    requires i <= j < |r.worlds| == |r.steps| + 1 && ReasonMoves(r, i, j, x, Some(before), after)
    ensures after.Some?
  {
    hide PlanLowers, ReasonOf;
  }

  lemma RefusingReason(c: Codec, r: Run, i: nat, a: AllocationId)
    requires Lawful(c) && IsRun(c, r) && i < |r.worlds| && a in r.worlds[i].agent.launchBounds
    ensures var b := r.worlds[i].agent.launchBounds[a];
            b.current != b.latestStart ==> b.planReason == Some(ReasonOf(StateAt(r, i).plan))
  {
    hide Init, Next, TermsFor;
    var k := RunBounds(c, r, i, a);
    TermsReason(StateAt(r, i).plan, StateAt(r, i).intents[a], r.steps[k].clock.wall);
  }

  /**
   * A start refused at its launch bound, and its answer whenever it is handled: the agent journals and reports
   * it Revoked if and only if the bound that passed is the start's own latest start. Otherwise a plan had
   * lowered the bound, and the allocation is tombstoned before the preemption is journaled. The reason given
   * is that of the last plan to lower the bound by then, so it is the refusing plan's if and only if the last
   * plan to lower it since, if there is one, gives the same.
   */
  lemma RefusedLaunchIsTold(c: Codec, r: Run, i: nat, j: nat, a: AllocationId, at: Timestamp)
    requires Lawful(c) && IsRun(c, r) && i < j < |r.steps|
    requires RefusedAt(r.worlds[i], r.steps[i], a, at) && AnswersRefusal(r.steps[j], a, at)
    ensures CurrentBound(r.worlds[i].agent, a) == Some(at) && r.worlds[i].rt.now >= at
    ensures a in r.worlds[i].agent.launchBounds && a in r.worlds[j].agent.launchBounds
    ensures r.worlds[j].agent.launchBounds[a].latestStart == r.worlds[i].agent.launchBounds[a].latestStart
    ensures Enabled(r.worlds[j], r.steps[j]) && ToldRefused(r.worlds[j], r.steps[j], r.worlds[j + 1], a, at)
    ensures r.worlds[i].agent.launchBounds[a].latestStart != Some(at) ==>
              var refusing, told := ReasonOf(StateAt(r, i).plan), r.worlds[j].agent.launchBounds[a].planReason;
              && ReasonMoves(r, i, j, a, Some(refusing), told)
              && (told == Some(refusing) <==> LoweredOnlyFor(r, i, j, a, refusing))
  {
    hide Inv, Init, Next, StartRun, Accounted, ToldRefused, ReasonMoves, LoweredOnlyFor, ReasonOf, StartCount;
    RefusedByBound(r.worlds[i], r.steps[i], a, at);
    RunInv(c, r, i);
    RunInv(c, r, j);
    RunStep(c, r, j);
    InflightIsLive(c, r.worlds[i], a);
    StartedOnce(c, r.worlds[i], a);
    QueuedThenSpent(c, r, i, j, a);
    NextEnabled(c, r.worlds[j], r.steps[j], r.worlds[j + 1]);
    RunAwaits(c, r, j);
    InvQueues(c, r.worlds[j]);
    AwaitedIsLive(r.worlds[j].agent, a);
    StartingHasBound(r.worlds[j].agent, a);
    assert (a, Failed(LaunchBoundPassed(at))) in r.worlds[j].startsDone;
    BoundIsCarried(c, r, i, j, a);
    RefusingReason(c, r, i, a);
    if r.worlds[i].agent.launchBounds[a].latestStart != Some(at) {
      SameReasonIff(r, i, j, a, ReasonOf(StateAt(r, i).plan), r.worlds[j].agent.launchBounds[a].planReason);
      ReasonIsHeld(r, i, j, a, ReasonOf(StateAt(r, i).plan), r.worlds[j].agent.launchBounds[a].planReason);
    }
    RefusalStep(c, r.worlds[j], r.steps[j], r.worlds[j + 1], a, at);
  }

  /** Until it is handed over or the agent crashes, the answer of a refused launch waits, and can be handed over. */
  lemma {:induction false} RefusalIsAwaited(c: Codec, r: Run, i: nat, j: nat, a: AllocationId, at: Timestamp)
    requires Lawful(c) && IsRun(c, r) && i < j < |r.worlds| && Uninterrupted(r, i, j)
    requires RefusedAt(r.worlds[i], r.steps[i], a, at)
    requires forall k :: i < k < j ==> !AnswersRefusal(r.steps[k], a, at)
    ensures (a, Failed(LaunchBoundPassed(at))) in r.worlds[j].startsDone
    ensures a in r.worlds[j].agent.starting && a !in StateAt(r, j).exits
    ensures forall clock :: Enabled(r.worlds[j], Deliver(StartFinished(a, Failed(LaunchBoundPassed(at))), clock))
    decreases j
  {
    hide Inv, Init, Next, StartCount, RefusedAt, AnswersRefusal;
    RunAwaits(c, r, j);
    RunStep(c, r, j - 1);
    if i < j - 1 { RefusalIsAwaited(c, r, i, j - 1, a, at); }
    AnswerWaits(c, r.worlds[j - 1], r.steps[j - 1], r.worlds[j], a, at);
  }

  lemma AnswerWaits(c: Codec, w: World, s: Step, w': World, a: AllocationId, at: Timestamp)
    requires Lawful(c) && Next(c, w, s, w') && !s.Crash?
    requires RefusedAt(w, s, a, at) ||
             ((a, Failed(LaunchBoundPassed(at))) in w.startsDone && !AnswersRefusal(s, a, at))
    ensures (a, Failed(LaunchBoundPassed(at))) in w'.startsDone
  {
    hide Handle, Crashes, DiskAfter, RuntimeAfter, WithSpecs, StartContainer, StopContainer, Finish, Reap;
  }

  lemma NextEnabled(c: Codec, w: World, s: Step, w': World)
    requires Lawful(c) && Next(c, w, s, w')
    ensures Enabled(w, s)
  {
    hide Enabled, Crashes, Moves;
  }

  lemma RefusalJournaled(c: Codec, w: World, s: Step, w': World)
    requires Lawful(c) && Inv(c, w) && Next(c, w, s, w') && s.Deliver?
    ensures w'.agent.state == StateAfter(w.agent.state, Interrupts(w, s).fx)
  {
    hide Inv, Handle, DiskAfter, RuntimeAfter, WithSpecs, StateAfter, Progress, EffectsOk;
    HandledProgress(c, w, s.ev, s.clock, |Interrupts(w, s).fx|);
  }
}
