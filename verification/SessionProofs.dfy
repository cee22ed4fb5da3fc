/** Every handler keeps the journal's discipline, and its memory is the replay of what it appended. */
module SessionProofs {
  import opened Types
  import opened JournalState
  import opened Executor
  import opened Observed
  import opened SessionSpec
  import opened Effects

  ghost predicate AgentOk(a: Agent) {
    && Accounted(a.state)
    && a.epoch == a.state.watermark.nodeEpoch
    && a.starting <= a.state.intents.Keys
    && a.launchBounds.Keys == a.starting
    && a.stopping <= a.state.intents.Keys
    && a.deferredExits.Keys <= a.stopping
    && (forall x :: x in a.deferredExits ==> a.deferredExits[x].runtime >= 0)
  }

  /** What a handler returns is consistent: its effects are in order and memory is exactly their replay. */
  ghost predicate Sound(a: Agent, rt: Runtime, u: set<AllocationId>, o: Out) {
    && EffectsOk(a.state, rt, u, o.fx)
    && o.agent.state == StateAfter(a.state, o.fx)
    && AgentOk(o.agent)
  }

  /** Nothing about starts, held exits or reaps moved. */
  predicate Still(a: Agent, a': Agent) {
    && a'.starting == a.starting
    && a'.pendingStarts == a.pendingStarts
    && a'.deferredExits == a.deferredExits
    && a'.pendingReaps == a.pendingReaps
  }

  /** As `Still`, except that journaled exits may have been queued for reaping. */
  ghost predicate Steady(a: Agent, a': Agent) {
    && a'.starting == a.starting
    && a'.pendingStarts == a.pendingStarts
    && a'.deferredExits == a.deferredExits
    && (forall x :: x in a'.pendingReaps ==> x in a.pendingReaps || x in a'.state.exits)
  }

  lemma UnchangedSound(a: Agent, rt: Runtime, u: set<AllocationId>)
    requires AgentOk(a)
    ensures Sound(a, rt, u, Unchanged(a))
  {
  }

  /** Two handlers in sequence are one. */
  lemma SoundThen(a: Agent, rt: Runtime, u: set<AllocationId>, mid: Agent, fx: seq<Effect>, o: Out)
    requires EffectsOk(a.state, rt, u, fx) && mid.state == StateAfter(a.state, fx)
    requires Sound(mid, RuntimeAfter(rt, fx), u, o)
    ensures Sound(a, rt, u, Before(fx, o))
  {
    EffectsConcat(a.state, rt, u, fx, o.fx);
  }

  lemma Sequence(a: Agent, rt: Runtime, u: set<AllocationId>, first: Out, second: Out, whole: Out)
    requires Sound(a, rt, u, first) && Still(a, first.agent)
    requires Sound(first.agent, RuntimeAfter(rt, first.fx), u, second) && Still(first.agent, second.agent)
    requires whole.agent == second.agent && whole.fx == first.fx + second.fx
    ensures Sound(a, rt, u, whole) && Still(a, whole.agent)
  {
    EffectsConcat(a.state, rt, u, first.fx, second.fx);
  }

  /** One record appended, with the matching memory update. */
  lemma AppendSound(a: Agent, rt: Runtime, u: set<AllocationId>, r: Record, a': Agent, reports: seq<Report>)
    requires EffectOk(a.state, rt, u, Append(r))
    requires a'.state == Apply(a.state, r) && AgentOk(a')
    ensures Sound(a, rt, u, Out(a', [Append(r)], reports))
  {
    OneEffect(a.state, rt, u, Append(r));
  }

  // ---- fencing ----

  lemma RaisedSound(a: Agent, w: Watermark, rt: Runtime, u: set<AllocationId>)
    requires AgentOk(a) && Dominates(w, a.state.watermark)
    ensures Sound(a, rt, u, Out(Raised(a, w), [Append(Fencing(w))], [])) && Still(a, Raised(a, w))
  {
    assert Apply(a.state, Fencing(w)) == a.state.(watermark := w);
    AllowedKeepsAccounted(a.state, Fencing(w));
    AppendSound(a, rt, u, Fencing(w), Raised(a, w), []);
  }

  lemma AdmitSeqSound(a: Agent, mid: Agent, commandSeq: u64, fx: seq<Effect>, rt: Runtime, u: set<AllocationId>)
    requires Sound(a, rt, u, Out(mid, fx, [])) && Still(a, mid)
    ensures var r := AdmitSeq(mid, commandSeq, fx);
            Sound(a, rt, u, Out(r.agent, r.fx, [])) && Still(a, r.agent) && r.fx == fx
  {
  }

  lemma AdmitSound(a: Agent, h: Header, rt: Runtime, u: set<AllocationId>)
    requires AgentOk(a)
    ensures var r := Admit(a, h);
            Sound(a, rt, u, Out(r.agent, r.fx, [])) && Still(a, r.agent) && RuntimeAfter(rt, r.fx) == rt
  {
    var w := RaisedTo(a.state.watermark, TokenOf(h));
    UnchangedSound(a, rt, u);
    if Stale(a.state.watermark, TokenOf(h)) {
    } else if Raises(a.state.watermark, TokenOf(h)) {
      RaisedSound(a, w, rt, u);
      AdmitSeqSound(a, Raised(a, w), h.commandSeq, [Append(Fencing(w))], rt, u);
      OneEffect(a.state, rt, u, Append(Fencing(w)));
    } else {
      AdmitSeqSound(a, a, h.commandSeq, [], rt, u);
    }
  }

  // ---- notices ----

  lemma SignalAndMarkSound(a: Agent, alloc: AllocationId, stopAt: Timestamp, now: Timestamp, rt: Runtime,
                           u: set<AllocationId>)
    requires AgentOk(a) && alloc in a.state.noticeIntents && alloc !in a.state.marks
    ensures var o := SignalAndMark(a, alloc, stopAt, now); Sound(a, rt, u, o) && Still(a, o.agent)
  {
    var o := SignalAndMark(a, alloc, stopAt, now);
    var signal, append := o.fx[0], o.fx[1];
    AllowedKeepsAccounted(a.state, append.record);
    OneEffect(a.state, rt, u, signal);
    AppendSound(a, RuntimeAfter(rt, [signal]), u, append.record, o.agent, o.reports);
    SoundThen(a, rt, u, a, [signal], Out(o.agent, [append], o.reports));
    assert o.fx == [signal] + [append];
  }

  lemma NotifySound(a: Agent, alloc: AllocationId, reason: PreemptReason, stopAt: Timestamp, now: Timestamp,
                    rt: Runtime, u: set<AllocationId>)
    requires AgentOk(a) && alloc in a.state.intents && alloc !in a.state.noticeIntents
    ensures var o := Notify(a, alloc, reason, stopAt, now); Sound(a, rt, u, o) && Still(a, o.agent)
  {
    var r := NoticeIntent(alloc, reason);
    var a1 := WithNotice(a, alloc, reason);
    AllowedKeepsAccounted(a.state, r);
    OneEffect(a.state, rt, u, Append(r));
    SignalAndMarkSound(a1, alloc, stopAt, now, rt, u);
    SoundThen(a, rt, u, a1, [Append(r)], SignalAndMark(a1, alloc, stopAt, now));
  }

  lemma ShortenSound(a: Agent, alloc: AllocationId, now: Timestamp, rt: Runtime, u: set<AllocationId>)
    requires AgentOk(a) && alloc in a.state.intents && alloc in a.state.marks
    ensures var o := Shorten(a, alloc, a.state.intents[alloc], a.state.marks[alloc], now);
            Sound(a, rt, u, o) && Still(a, o.agent)
  {
    var o := Shorten(a, alloc, a.state.intents[alloc], a.state.marks[alloc], now);
    if o.fx == [] {
      UnchangedSound(a, rt, u);
    } else {
      AllowedKeepsAccounted(a.state, o.fx[0].record);
      AppendSound(a, rt, u, o.fx[0].record, o.agent, o.reports);
    }
  }

  lemma NotifyUnderPlanSound(a: Agent, alloc: AllocationId, now: Timestamp, rt: Runtime, u: set<AllocationId>)
    requires AgentOk(a)
    ensures var o := NotifyUnderPlan(a, alloc, now); Sound(a, rt, u, o) && Still(a, o.agent)
  {
    UnchangedSound(a, rt, u);
    if alloc in a.state.intents && alloc !in a.state.exits && alloc !in a.starting {
      var i := a.state.intents[alloc];
      var terms := TermsFor(a.state.plan, i, now);
      if terms.Some? {
        if alloc !in a.state.noticeIntents {
          NotifySound(a, alloc, terms.value.reason, terms.value.stopAt, now, rt, u);
        } else if alloc !in a.state.marks {
          var reason := a.state.noticeIntents[alloc];
          var stopAt := if reason.Drain? || reason.Interruption? then terms.value.stopAt
                        else Min(SatAdd(now, i.notice), terms.value.stopAt);
          SignalAndMarkSound(a, alloc, stopAt, now, rt, u);
        } else {
          ShortenSound(a, alloc, now, rt, u);
        }
      }
    }
  }

  lemma {:induction false} NotifyAllSound(a: Agent, allocs: seq<AllocationId>, now: Timestamp, rt: Runtime,
                                          u: set<AllocationId>)
    requires AgentOk(a)
    ensures var o := NotifyAll(a, allocs, now); Sound(a, rt, u, o) && Still(a, o.agent)
    decreases |allocs|
  {
    UnchangedSound(a, rt, u);
    if allocs != [] {
      var o := NotifyUnderPlan(a, allocs[0], now);
      NotifyUnderPlanSound(a, allocs[0], now, rt, u);
      var rest := NotifyAll(o.agent, allocs[1..], now);
      NotifyAllSound(o.agent, allocs[1..], now, RuntimeAfter(rt, o.fx), u);
      Sequence(a, rt, u, o, rest, NotifyAll(a, allocs, now));
    }
  }

  lemma WithPlanSound(a: Agent, p: Plan, now: Timestamp, rt: Runtime, u: set<AllocationId>)
    requires AgentOk(a) && PlanOk(p)
    ensures Sound(a, rt, u, Out(WithPlan(a, p, now), [Append(DrainPlan(p))], [])) && Still(a, WithPlan(a, p, now))
    ensures RuntimeAfter(rt, [Append(DrainPlan(p))]) == rt
  {
    var a' := WithPlan(a, p, now);
    assert a'.launchBounds.Keys == a.launchBounds.Keys;
    AllowedKeepsAccounted(a.state, DrainPlan(p));
    AppendSound(a, rt, u, DrainPlan(p), a', []);
    OneEffect(a.state, rt, u, Append(DrainPlan(p)));
  }

  lemma OnInterruptionSound(a: Agent, deadline: Timestamp, now: Timestamp, rt: Runtime, u: set<AllocationId>)
    requires AgentOk(a)
    ensures var o := OnInterruption(a, deadline, now); Sound(a, rt, u, o) && Still(a, o.agent)
  {
    UnchangedSound(a, rt, u);
    var p := a.state.plan.(interruption := Some(deadline));
    var a1 := WithPlan(a, p, now);
    WithPlanSound(a, p, now, rt, u);
    NotifyAllSound(a1, Outstanding(a1.state), now, rt, u);
    SoundThen(a, rt, u, a1, [Append(DrainPlan(p))], NotifyAll(a1, Outstanding(a1.state), now));
  }

  lemma OnDrainSound(a: Agent, deadlineUs: Option<i64>, windowUs: u64, now: Timestamp, rt: Runtime,
                     u: set<AllocationId>)
    requires AgentOk(a)
    ensures var o := OnDrain(a, deadlineUs, windowUs, now); Sound(a, rt, u, o) && Still(a, o.agent)
  {
    hide NotifyAll, AgentOk;
    UnchangedSound(a, rt, u);
    if deadlineUs.None? || FromMicros(deadlineUs.value).Some? {
      var target := if deadlineUs.None? then None else FromMicros(deadlineUs.value);
      var p := a.state.plan.(operator :=
        if target.None? then None else Some(OperatorDrain(target.value, RuntimeBound(windowUs))));
      var a1 := WithPlan(a, p, now);
      WithPlanSound(a, p, now, rt, u);
      NotifyAllSound(a1, Ascending(DueNotices(a1, now)), now, rt, u);
      SoundThen(a, rt, u, a1, [Append(DrainPlan(p))], BeginDueNotices(a1, now));
    }
  }

  lemma OnPreemptSound(a: Agent, victim: Option<AllocationId>, why: Option<PreemptReason>, noticeUs: u64,
                       now: Timestamp, rt: Runtime, u: set<AllocationId>)
    requires AgentOk(a)
    ensures var o := OnPreempt(a, victim, why, noticeUs, now); Sound(a, rt, u, o) && Still(a, o.agent)
  {
    UnchangedSound(a, rt, u);
    if victim.Some? && why.Some? && victim.value in a.state.intents {
      var alloc := victim.value;
      var terms := TermsFor(a.state.plan, a.state.intents[alloc], now);
      var asked := SatAdd(now, RuntimeBound(noticeUs));
      var stopAt := if terms.Some? then Min(asked, terms.value.stopAt) else asked;
      if alloc !in a.state.noticeIntents {
        NotifySound(a, alloc, why.value, stopAt, now, rt, u);
      } else if alloc !in a.state.marks {
        SignalAndMarkSound(a, alloc, stopAt, now, rt, u);
      }
    }
  }

  lemma {:induction false} ResumeAllSound(a: Agent, allocs: seq<AllocationId>, now: Timestamp, rt: Runtime,
                                          u: set<AllocationId>)
    requires AgentOk(a)
    ensures var o := ResumeAll(a, allocs, now); Sound(a, rt, u, o) && Still(a, o.agent)
    decreases |allocs|
  {
    UnchangedSound(a, rt, u);
    if allocs != [] {
      var o := ResumeOne(a, allocs[0], now);
      if allocs[0] in a.state.intents && allocs[0] in a.state.noticeIntents && allocs[0] !in a.state.marks {
        SignalAndMarkSound(a, allocs[0], SatAdd(now, a.state.intents[allocs[0]].notice), now, rt, u);
      }
      var rest := ResumeAll(o.agent, allocs[1..], now);
      ResumeAllSound(o.agent, allocs[1..], now, RuntimeAfter(rt, o.fx), u);
      Sequence(a, rt, u, o, rest, ResumeAll(a, allocs, now));
    }
  }

  lemma ResumeNoticesSound(a: Agent, now: Timestamp, rt: Runtime, u: set<AllocationId>)
    requires AgentOk(a)
    ensures var o := ResumeNotices(a, now); Sound(a, rt, u, o) && Still(a, o.agent)
  {
    var live := Outstanding(a.state);
    var o := if a.state.plan == NO_PLAN then ResumeAll(a, live, now) else NotifyAll(a, live, now);
    if a.state.plan == NO_PLAN { ResumeAllSound(a, live, now, rt, u); } else { NotifyAllSound(a, live, now, rt, u); }
    var retired := RetireInterruption(o.agent, now);
    UnchangedSound(o.agent, RuntimeAfter(rt, o.fx), u);
    if retired.fx != [] {
      WithPlanSound(o.agent, o.agent.state.plan.(interruption := None), now, RuntimeAfter(rt, o.fx), u);
    }
    Sequence(a, rt, u, o, retired, ResumeNotices(a, now));
  }

  // ---- stops ----

  lemma {:induction false} BeginStopsSound(a: Agent, allocs: seq<AllocationId>, rt: Runtime, u: set<AllocationId>)
    requires AgentOk(a)
    ensures var o := BeginStops(a, allocs); Sound(a, rt, u, o) && Still(a, o.agent)
    decreases |allocs|
  {
    UnchangedSound(a, rt, u);
    if allocs != [] {
      var o := BeginStop(a, allocs[0]);
      BeginStopSound(a, allocs[0], rt, u);
      BeginStopsSound(o.agent, allocs[1..], RuntimeAfter(rt, o.fx), u);
      Sequence(a, rt, u, o, BeginStops(o.agent, allocs[1..]), BeginStops(a, allocs));
    }
  }

  lemma QueueStopOk(a: Agent, alloc: AllocationId, grace: Duration)
    requires AgentOk(a) && alloc in a.state.intents
    ensures AgentOk(QueueStop(a, alloc, grace)) && Still(a, QueueStop(a, alloc, grace))
  {
  }

  lemma BeginStopSound(a: Agent, alloc: AllocationId, rt: Runtime, u: set<AllocationId>)
    requires AgentOk(a)
    ensures var o := BeginStop(a, alloc); Sound(a, rt, u, o) && Still(a, o.agent)
  {
    UnchangedSound(a, rt, u);
    var o := BeginStop(a, alloc);
    if o.fx != [] {
      var t := o.fx[0].record.tombstone;
      TombstoneSound(a, alloc, t, rt, u);
      QueueStopOk(WithTombstone(a, alloc, t), alloc, a.state.intents[alloc].abortGrace);
    }
  }

  lemma OnTimersSound(a: Agent, now: Timestamp, rt: Runtime, u: set<AllocationId>)
    requires AgentOk(a)
    ensures var o := OnTimers(a, now); Sound(a, rt, u, o) && Still(a, o.agent)
  {
    var n := BeginDueNotices(a, now);
    NotifyAllSound(a, Ascending(DueNotices(a, now)), now, rt, u);
    BeginStopsSound(n.agent, Ascending(DueStops(n.agent, now)), RuntimeAfter(rt, n.fx), u);
    Sequence(a, rt, u, n, BeginDueStops(n.agent, now), OnTimers(a, now));
  }

  lemma OnStopJobSound(a: Agent, target: Option<AllocationId>, graceUs: i64, rt: Runtime, u: set<AllocationId>)
    requires AgentOk(a)
    ensures var o := OnStopJob(a, target, graceUs); Sound(a, rt, u, o) && Still(a, o.agent)
  {
    UnchangedSound(a, rt, u);
    if target.Some? {
      var o := OnStopJob(a, target, graceUs);
      var a1 := WithTombstone(a, target.value, Abort);
      TombstoneSound(a, target.value, Abort, rt, u);
      if o.agent != a1 { QueueStopOk(a1, target.value, Max(graceUs, 0)); }
    }
  }

  // ---- exits ----

  lemma RecordExitSound(a: Agent, alloc: AllocationId, outcome: Outcome, runtime: Duration, rt: Runtime,
                        u: set<AllocationId>)
    requires AgentOk(a) && alloc in a.state.intents && alloc !in a.state.exits
    requires runtime >= 0 && outcome != AgentError && alloc !in rt.running && alloc !in u
    ensures var o := RecordExit(a, alloc, outcome, runtime); Sound(a, rt, u, o) && Steady(a, o.agent)
  {
    var o := RecordExit(a, alloc, outcome, runtime);
    AllowedKeepsAccounted(a.state, o.fx[0].record);
    AppendSound(a, rt, u, o.fx[0].record, o.agent, o.reports);
  }

  /** Classification never invents the agent's own doubt. */
  lemma ClassificationIsNeverDoubt(s: State, alloc: AllocationId, exit: ExitInfo, stopped: StopOutcome, kill: Outcome)
    requires kill != AgentError
    ensures ClassifyExit(exit, AttributionOf(s, alloc)) != AgentError
    ensures ClassifyStop(stopped, kill, AttributionOf(s, alloc)).Some? ==>
              ClassifyStop(stopped, kill, AttributionOf(s, alloc)).value.0 != AgentError
  {
  }

  lemma OnMaxRuntimeSound(a: Agent, rt: Runtime, alloc: AllocationId, u: set<AllocationId>)
    requires AgentOk(a) && RuntimeOk(rt) && EvidenceOk(rt) && u <= a.starting
    ensures var o := OnMaxRuntime(a, rt, alloc); Sound(a, rt, u, o) && Steady(a, o.agent)
  {
    UnchangedSound(a, rt, u);
    if alloc in a.state.intents && alloc !in a.state.exits && alloc !in a.stopping && alloc !in a.starting {
      var (rt1, stopped) := StopContainer(rt, alloc);
      var classified := ClassifyStop(stopped, RuntimeLimitExceeded, AttributionOf(a.state, alloc));
      OneEffect(a.state, rt, u, Stop(alloc));
      if classified.Some? {
        ClassificationIsNeverDoubt(a.state, alloc, stopped.exit, stopped, RuntimeLimitExceeded);
        RecordExitSound(a, alloc, classified.value.0, classified.value.1, rt1, u);
        SoundThen(a, rt, u, a, [Stop(alloc)], RecordExit(a, alloc, classified.value.0, classified.value.1));
      } else {
        UnchangedSound(a, rt1, u);
        SoundThen(a, rt, u, a, [Stop(alloc)], Unchanged(a));
        assert [Stop(alloc)] + [] == [Stop(alloc)];
      }
    }
  }

  lemma OnObservedExitSound(a: Agent, alloc: AllocationId, exit: ExitInfo, rt: Runtime, u: set<AllocationId>)
    requires AgentOk(a) && exit.runtime >= 0 && alloc !in rt.running && alloc !in u
    ensures var o := OnObservedExit(a, alloc, exit);
            && Sound(a, rt, u, o)
            && o.agent.starting == a.starting && o.agent.pendingStarts == a.pendingStarts
            && (forall x :: x in o.agent.pendingReaps ==> x in a.pendingReaps || x in o.agent.state.exits)
            && (forall x :: x in o.agent.deferredExits ==> x == alloc || x in a.deferredExits)
  {
    UnchangedSound(a, rt, u);
    if alloc !in a.state.exits && alloc in a.state.intents && alloc !in a.stopping {
      var a1 := a.(stopRetryAt := a.stopRetryAt - {alloc});
      ClassificationIsNeverDoubt(a.state, alloc, exit, Unknown, Aborted);
      RecordExitSound(a1, alloc, ClassifyExit(exit, AttributionOf(a.state, alloc)), exit.runtime, rt, u);
    }
  }

  lemma FinishStopSound(a: Agent, alloc: AllocationId, result: StopResult, now: Timestamp, rt: Runtime,
                        u: set<AllocationId>)
    requires AgentOk(a)
    requires result.Answered? && !result.outcome.Unknown? ==>
               result.outcome.exit.runtime >= 0 && alloc !in rt.running && alloc !in u
    requires alloc in a.deferredExits ==> alloc !in rt.running && alloc !in u
    ensures var o := FinishStop(a, alloc, result, now);
            && Sound(a, rt, u, o)
            && o.agent.starting == a.starting && o.agent.pendingStarts == a.pendingStarts
            && (forall x :: x in o.agent.pendingReaps ==> x in a.pendingReaps || x in o.agent.state.exits)
            && (forall x :: x in o.agent.deferredExits ==> x in a.deferredExits)
  {
    var a1 := a.(stopping := a.stopping - {alloc}, deferredExits := a.deferredExits - {alloc});
    assert AgentOk(a1);
    UnchangedSound(a1, rt, u);
    if alloc !in a.state.exits && alloc in a.state.intents {
      var verdict := StopVerdict(a, alloc, result);
      if verdict.Some? {
        VerdictIsEvidence(a, alloc, result);
        RecordExitSound(a1, alloc, verdict.value.0, verdict.value.1, rt, u);
      }
    }
  }

  lemma VerdictIsEvidence(a: Agent, alloc: AllocationId, result: StopResult)
    requires AgentOk(a)
    requires result.Answered? && !result.outcome.Unknown? ==> result.outcome.exit.runtime >= 0
    ensures var verdict := StopVerdict(a, alloc, result);
            verdict.Some? ==>
              && verdict.value.0 != AgentError && verdict.value.1 >= 0
              && ((result.Answered? && !result.outcome.Unknown?) || alloc in a.deferredExits)
  {
  }

  // ---- starts ----

  lemma ExitAppendSound(a: Agent, alloc: AllocationId, outcome: Outcome, reports: seq<Report>, rt: Runtime,
                        u: set<AllocationId>)
    requires AgentOk(a) && alloc in a.state.intents && alloc !in a.state.exits && alloc !in rt.running && alloc !in u
    requires outcome != AgentError
    ensures var i := a.state.intents[alloc];
            var exit := Exit(alloc, i.attempt, i.job, outcome, 0);
            Sound(a, rt, u, Out(WithExit(a, exit), [Append(ObservedExit(exit))], reports))
                && Still(a, WithExit(a, exit))
  {
    var i := a.state.intents[alloc];
    var exit := Exit(alloc, i.attempt, i.job, outcome, 0);
    AllowedKeepsAccounted(a.state, ObservedExit(exit));
    AppendSound(a, rt, u, ObservedExit(exit), WithExit(a, exit), reports);
  }

  lemma TombstoneSound(a: Agent, alloc: AllocationId, t: TombstoneReason, rt: Runtime, u: set<AllocationId>)
    requires AgentOk(a) && (alloc !in a.state.tombstones || t == Abort || alloc in a.state.intents)
    ensures var o := Out(WithTombstone(a, alloc, t), [Append(Tombstone(alloc, t))], []);
            Sound(a, rt, u, o) && Still(a, o.agent) && RuntimeAfter(rt, o.fx) == rt
  {
    AllowedKeepsAccounted(a.state, Tombstone(alloc, t));
    AppendSound(a, rt, u, Tombstone(alloc, t), WithTombstone(a, alloc, t), []);
    OneEffect(a.state, rt, u, Append(Tombstone(alloc, t)));
  }

  lemma StartFailedSound(a: Agent, alloc: AllocationId, bound: Option<StartBound>, e: StartError, rt: Runtime,
                         u: set<AllocationId>)
    requires AgentOk(a) && alloc in a.state.intents && alloc !in a.state.exits && alloc !in rt.running && alloc !in u
    ensures var o := StartFailedOut(a, alloc, a.state.intents[alloc], bound, e); Sound(a, rt, u, o) && Still(a, o.agent)
  {
    var o := StartFailedOut(a, alloc, a.state.intents[alloc], bound, e);
    var refusal := if bound.Some? then PlanRefusal(bound.value, e) else None;
    if refusal.None? {
      ExitAppendSound(a, alloc, StartErrorOutcome(e), o.reports, rt, u);
      assert [] + o.fx == o.fx;
    } else {
      var t := Preempt(refusal.value);
      var a1 := WithTombstone(a, alloc, t);
      TombstoneSound(a, alloc, t, rt, u);
      ExitAppendSound(a1, alloc, Preempted(refusal.value), o.reports, rt, u);
      Sequence(a, rt, u, Out(a1, [Append(Tombstone(alloc, t))], []), Out(o.agent, o.fx[1..], o.reports), o);
    }
  }

  lemma StartedUnderPlanSound(a: Agent, alloc: AllocationId, clock: Clock, rt: Runtime, u: set<AllocationId>,
                              running: Report)
    requires AgentOk(a)
    ensures var o := NotifyUnderPlan(a, alloc, clock.wall);
            Sound(a, rt, u, o.(reports := [running] + o.reports)) && Still(a, o.agent)
  {
    NotifyUnderPlanSound(a, alloc, clock.wall, rt, u);
  }

  lemma ArmedOk(a: Agent, alloc: AllocationId, i: Intent, clock: Clock)
    requires AgentOk(a)
    ensures AgentOk(Armed(a, alloc, i, clock)) && Still(a, Armed(a, alloc, i, clock))
    ensures Armed(a, alloc, i, clock).state == a.state
  {
    hide Accounted;
  }

  lemma StartedSound(a: Agent, alloc: AllocationId, clock: Clock, rt: Runtime, u: set<AllocationId>)
    requires AgentOk(a) && alloc in a.state.intents
    ensures var o := StartedOut(a, alloc, a.state.intents[alloc], clock); Sound(a, rt, u, o) && Still(a, o.agent)
  {
    var i := a.state.intents[alloc];
    var a1 := Armed(a, alloc, i, clock);
    var running := Running(a, alloc, i.attempt, i.job);
    ArmedOk(a, alloc, i, clock);
    UnchangedSound(a1, rt, u);
    if alloc in a1.state.tombstones {
      QueueStopOk(a1, alloc, i.abortGrace);
      UnchangedSound(QueueStop(a1, alloc, i.abortGrace), rt, u);
    } else {
      StartedUnderPlanSound(a1, alloc, clock, rt, u, running);
    }
  }

  lemma FinishStartSound(a: Agent, alloc: AllocationId, result: StartResult, clock: Clock, rt: Runtime,
                         u: set<AllocationId>)
    requires AgentOk(a)
    requires result.Failed? ==> alloc !in rt.running && alloc !in u
    ensures var o := FinishStart(a, alloc, result, clock);
            && Sound(a, rt, u, o)
            && Still(a.(starting := a.starting - {alloc}), o.agent)
  {
    var a1 := a.(launchBounds := a.launchBounds - {alloc}, starting := a.starting - {alloc});
    assert AgentOk(a1);
    UnchangedSound(a1, rt, u);
    if alloc in a.starting && alloc in a.state.intents && alloc !in a.state.exits {
      match result
      case Started => StartedSound(a1, alloc, clock, rt, u);
      case Failed(e) => StartFailedSound(a1, alloc, Get(a.launchBounds, alloc), e, rt, u);
    }
  }

  /** A start was queued exactly when its intent is new, unrefused and durable, and nothing else can start it. */
  ghost predicate QueuesAtMostOne(a: Agent, o: Out) {
    o.agent.pendingStarts == a.pendingStarts ||
    exists spec: StartSpec :: NewStart(a, o, spec)
  }

  ghost predicate NewStart(a: Agent, o: Out, spec: StartSpec) {
    && o.agent.pendingStarts == a.pendingStarts + [spec]
    && spec.allocation !in a.state.intents && spec.allocation !in a.state.tombstones
    && spec.allocation in o.agent.state.intents && spec.allocation !in o.agent.state.exits
    && spec.allocation in o.agent.starting
    && o.agent.state.intents[spec.allocation].attempt == spec.attempt
    && o.agent.state.intents[spec.allocation].job == spec.job
    && !a.draining && a.state.plan.interruption.None?
  }

  lemma OpenedSound(a: Agent, sj: StartJob, latestStart: Option<Timestamp>, now: Timestamp, rt: Runtime,
                    u: set<AllocationId>)
    requires AgentOk(a) && sj.ids.Some?
    requires sj.ids.value.allocation !in a.state.intents && sj.ids.value.allocation !in a.state.tombstones
    ensures var i := IntentFor(a, sj);
            var a1 := Opened(a, i, latestStart, now);
            && Sound(a, rt, u, Out(a1, [Append(StartIntent(i))], []))
            && RuntimeAfter(rt, [Append(StartIntent(i))]) == rt
  {
    var i := IntentFor(a, sj);
    AllowedKeepsAccounted(a.state, StartIntent(i));
    AppendSound(a, rt, u, StartIntent(i), Opened(a, i, latestStart, now), []);
    OneEffect(a.state, rt, u, Append(StartIntent(i)));
  }

  lemma LaunchSound(a: Agent, sj: StartJob, latestStart: Option<Timestamp>, clock: Clock, rt: Runtime,
                    u: set<AllocationId>)
    requires AgentOk(a) && sj.ids.Some?
    requires sj.ids.value.allocation !in a.state.intents && sj.ids.value.allocation !in a.state.tombstones
    requires sj.ids.value.allocation !in rt.running && sj.ids.value.allocation !in u
    requires (latestStart.Some? && clock.wall > latestStart.value) || (!a.draining && a.state.plan.interruption.None?)
    ensures var o := Launch(a, sj, latestStart, clock);
            && Sound(a, rt, u, o) && QueuesAtMostOne(a, o)
            && a.starting <= o.agent.starting && o.agent.deferredExits == a.deferredExits
            && o.agent.pendingReaps == a.pendingReaps
  {
    hide FinishStart;
    var i := IntentFor(a, sj);
    var a1 := Opened(a, i, latestStart, clock.wall);
    var o := Launch(a, sj, latestStart, clock);
    OpenedSound(a, sj, latestStart, clock.wall, rt, u);
    if latestStart.Some? && clock.wall > latestStart.value {
      var refused := Failed(LaunchBoundPassed(latestStart.value));
      FinishStartSound(a1, i.allocation, refused, clock, rt, u);
      SoundThen(a, rt, u, a1, [Append(StartIntent(i))], FinishStart(a1, i.allocation, refused, clock));
      assert a1.starting - {i.allocation} == a.starting;
    } else {
      var spec := StartSpec(i.allocation, i.attempt, i.job, i.maxRuntime);
      assert NewStart(a, o, spec);
    }
  }

  lemma OnStartJobSound(a: Agent, sj: StartJob, clock: Clock, rt: Runtime, u: set<AllocationId>)
    requires AgentOk(a)
    requires sj.ids.Some? && sj.ids.value.allocation !in a.state.intents ==>
               sj.ids.value.allocation !in rt.running && sj.ids.value.allocation !in u
    ensures var o := OnStartJob(a, sj, clock);
            && Sound(a, rt, u, o) && QueuesAtMostOne(a, o)
            && a.starting <= o.agent.starting && o.agent.deferredExits == a.deferredExits
            && o.agent.pendingReaps == a.pendingReaps
  {
    UnchangedSound(a, rt, u);
    var o := OnStartJob(a, sj, clock);
    if o.fx == [] {
      assert o.agent == a;
    } else {
      var ids := sj.ids.value;
      var latestStart := if sj.latestStartUs.None? then None else FromMicros(sj.latestStartUs.value);
      var passed := latestStart.Some? && clock.wall > latestStart.value;
      var refusal := DoorRefusal(a, RuntimeBound(sj.abortGraceUs), RuntimeBound(sj.cleanupMarginUs), clock.wall);
      if !passed && refusal.Some? {
        TombstoneSound(a, ids.allocation, Preempt(refusal.value), rt, u);
      } else {
        LaunchSound(a, sj, latestStart, clock, rt, u);
      }
    }
  }

  // ---- registration and the janitor ----

  lemma OnRegisterAcceptedSound(a: Agent, rt: Runtime, clock: Clock, u: set<AllocationId>)
    requires AgentOk(a)
    ensures var o := OnRegisterAccepted(a, rt, clock); Sound(a, rt, u, o) && Steady(a, o.agent)
  {
    OneEffect(a.state, rt, u, Observe);
  }

  lemma {:induction false} SweepOk(s: State, cs: seq<Container>, now: Timestamp, bound: Duration, rt: Runtime,
                                   u: set<AllocationId>)
    ensures EffectsOk(s, rt, u, SweepFx(s, cs, now, bound)) && StateAfter(s, SweepFx(s, cs, now, bound)) == s
    decreases |cs|
  {
    if cs != [] {
      var first := if Sweepable(s, cs[0], now, bound) then [Remove(cs[0].allocation)] else [];
      if first != [] { OneEffect(s, rt, u, first[0]); }
      SweepOk(s, cs[1..], now, bound, RuntimeAfter(rt, first), u);
      EffectsConcat(s, rt, u, first, SweepFx(s, cs[1..], now, bound));
    }
  }

  lemma JanitorSweepSound(a: Agent, rt: Runtime, now: Timestamp, bound: Duration, u: set<AllocationId>)
    requires AgentOk(a)
    ensures var o := JanitorSweep(a, rt, now, bound); Sound(a, rt, u, o) && Still(a, o.agent)
  {
    OneEffect(a.state, rt, u, Observe);
    SweepOk(a.state, Seen(rt), now, bound, RuntimeAfter(rt, [Observe]), u);
    EffectsConcat(a.state, rt, u, [Observe], SweepFx(a.state, Seen(rt), now, bound));
  }

  // ---- dispatch ----

  /** Everything a command may change about starts: at most one new, none forgotten. */
  ghost predicate CommandKeeps(a: Agent, o: Out) {
    && QueuesAtMostOne(a, o)
    && a.starting <= o.agent.starting
    && o.agent.deferredExits == a.deferredExits
    && (forall x :: x in o.agent.pendingReaps ==> x in a.pendingReaps || x in o.agent.state.exits)
  }

  lemma OnFreshSound(a: Agent, body: Body, clock: Clock, rt: Runtime, u: set<AllocationId>)
    requires AgentOk(a)
    requires forall x :: x !in a.state.intents ==> x !in rt.running && x !in u
    ensures var o := OnFresh(a, body, clock); Sound(a, rt, u, o) && CommandKeeps(a, o)
  {
    UnchangedSound(a, rt, u);
    match body
    case StartJobBody(sj) => OnStartJobSound(a, sj, clock, rt, u);
    case StopJobBody(target, grace) => OnStopJobSound(a, target, grace, rt, u);
    case PreemptJobBody(victim, why, notice) => OnPreemptSound(a, victim, why, notice, clock.wall, rt, u);
    case DrainBody(deadline, window) => OnDrainSound(a, deadline, window, clock.wall, rt, u);
    case _ =>
  }

  lemma OnAdmittedSound(a: Agent, admission: Admission, rt: Runtime, body: Body, clock: Clock, u: set<AllocationId>)
    requires AgentOk(a)
    requires forall x :: x !in a.state.intents ==> x !in rt.running && x !in u
    ensures var o := OnAdmitted(a, admission, rt, body, clock); Sound(a, rt, u, o) && CommandKeeps(a, o)
  {
    if body.RegisterAccepted? {
      OnRegisterAcceptedSound(a, rt, clock, u);
    } else if admission.Duplicate? {
      UnchangedSound(a, rt, u);
    } else {
      OnFreshSound(a, body, clock, rt, u);
    }
  }

  lemma HandleCommandSound(a: Agent, rt: Runtime, cmd: Command, clock: Clock, u: set<AllocationId>)
    requires AgentOk(a)
    requires forall x :: x !in a.state.intents ==> x !in rt.running && x !in u
    ensures var o := HandleCommand(a, rt, cmd, clock); Sound(a, rt, u, o) && CommandKeeps(a, o)
  {
    UnchangedSound(a, rt, u);
    if Accepts(a, cmd) {
      var r := Admit(a, cmd.header.value);
      var o := OnAdmitted(r.agent, r.admission, rt, cmd.body.value, clock);
      AdmitSound(a, cmd.header.value, rt, u);
      AdmitKeeps(a, cmd.header.value);
      OnAdmittedSound(r.agent, r.admission, rt, cmd.body.value, clock, u);
      SoundThen(a, rt, u, r.agent, r.fx, o);
      NewStartSurvivesAdmission(a, cmd.header.value, o);
    }
  }

  /** Admission touches nothing but the watermark, the epoch and the sequence number. */
  predicate OnlyFencingMoved(a: Agent, a': Agent) {
    a' == a.(state := a.state.(watermark := a'.state.watermark), epoch := a'.epoch, lastSeq := a'.lastSeq)
  }

  lemma RaisedKeeps(a: Agent, w: Watermark)
    ensures OnlyFencingMoved(a, Raised(a, w))
  {
  }

  lemma AdmitSeqKeeps(a: Agent, mid: Agent, commandSeq: u64, fx: seq<Effect>)
    requires OnlyFencingMoved(a, mid)
    ensures OnlyFencingMoved(a, AdmitSeq(mid, commandSeq, fx).agent)
  {
  }

  lemma AdmitKeeps(a: Agent, h: Header)
    ensures OnlyFencingMoved(a, Admit(a, h).agent)
  {
    var w := RaisedTo(a.state.watermark, TokenOf(h));
    RaisedKeeps(a, w);
    AdmitSeqKeeps(a, Raised(a, w), h.commandSeq, [Append(Fencing(w))]);
    AdmitSeqKeeps(a, a, h.commandSeq, []);
  }

  lemma NewStartSurvivesAdmission(a: Agent, h: Header, o: Out)
    requires QueuesAtMostOne(Admit(a, h).agent, o)
    ensures QueuesAtMostOne(a, Before(Admit(a, h).fx, o))
  {
    AdmitKeeps(a, h);
    var r := Admit(a, h);
    if o.agent.pendingStarts != a.pendingStarts {
      var spec :| NewStart(r.agent, o, spec);
      assert NewStart(a, Before(r.fx, o), spec);
    }
  }
}
