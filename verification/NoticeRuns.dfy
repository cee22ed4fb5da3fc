/** Notices over whole runs: durable before the signal, given once, and never postponed. */
module NoticeRuns {
  import opened Types
  import opened JournalState
  import opened Framing
  import opened Executor
  import opened SessionSpec
  import opened Effects
  import opened SessionProofs
  import opened SessionFacts
  import opened Bystanders
  import opened System
  import opened SystemProofs
  import opened Runs
  import opened StopRuns
  import opened PlanRuns

  /** Every signal ever delivered went to an allocation whose notice intent is journaled. */
  ghost predicate SignalsNoticed(rt: Runtime, s: State) {
    forall i :: 0 <= i < |rt.signals| ==> rt.signals[i].0 in s.noticeIntents
  }

  lemma EffectSignals(s: State, rt: Runtime, u: set<AllocationId>, e: Effect)
    requires EffectOk(s, rt, u, e) && SignalsNoticed(rt, s)
    ensures SignalsNoticed(RuntimeAfterOne(rt, e), StateAfterOne(s, e))
  {
    if e.Append? { AllowedIsLater(s, e.record); }
  }

  lemma {:induction false} EffectsSignal(s: State, rt: Runtime, u: set<AllocationId>, fx: seq<Effect>, k: nat)
    requires EffectsOk(s, rt, u, fx) && k <= |fx| && SignalsNoticed(rt, s)
    ensures SignalsNoticed(RuntimeAfter(rt, fx[..k]), StateAfter(s, fx[..k]))
    decreases k
  {
    hide EffectOk, StateAfterOne, RuntimeAfterOne, SignalsNoticed;
    if k == 0 {
      assert fx[..k] == [];
    } else {
      assert fx[..k][0] == fx[0] && fx[..k][1..] == fx[1..][..k - 1];
      EffectSignals(s, rt, u, fx[0]);
      EffectsSignal(StateAfterOne(s, fx[0]), RuntimeAfterOne(rt, fx[0]), u, fx[1..], k - 1);
    }
  }

  lemma HandledSignals(c: Codec, w: World, ev: Event, clock: Clock, k: nat)
    requires Lawful(c) && Inv(c, w) && Ready(w, ev) && SignalsNoticed(w.rt, w.agent.state)
    requires k <= |Handle(w.agent, Taken(w, ev).rt, ev, clock).fx|
    ensures var fx := Handle(w.agent, Taken(w, ev).rt, ev, clock).fx;
            SignalsNoticed(RuntimeAfter(Taken(w, ev).rt, fx[..k]), StateAfter(w.agent.state, fx[..k]))
  {
    hide Handle, Inv, StateAfter, RuntimeAfter, EffectsOk, Progress;
    HandledProgress(c, w, ev, clock, k);
    EffectsSignal(w.agent.state, Taken(w, ev).rt, Unstarted(w), Handle(w.agent, Taken(w, ev).rt, ev, clock).fx, k);
  }

  lemma StepSignals(c: Codec, w: World, s: Step, w': World)
    requires Lawful(c) && Inv(c, w) && Next(c, w, s, w') && SignalsNoticed(w.rt, w.agent.state)
    ensures SignalsNoticed(w'.rt, w'.agent.state)
  {
    hide Inv, Handle, Scan, Canonical, EncodeLog, DiskAfter, CrashedDisk, StateAfter, RuntimeAfter, Progress,
         EffectsOk;
    if s.Deliver? {
      HandledProgress(c, w, s.ev, s.clock, |Interrupts(w, s).fx|);
      HandledSignals(c, w, s.ev, s.clock, |Interrupts(w, s).fx|);
    } else if s.Crash? {
      CrashHereRecovers(c, w, s);
      HandledSignals(c, w, s.ev, s.clock, s.done);
    }
  }

  /** Over every run, and at every crash point, a notice signal is only ever sent behind its durable intent. */
  lemma {:induction false} SignalledOnlyBehindIntent(c: Codec, r: Run, i: nat)
    requires Lawful(c) && IsRun(c, r) && i < |r.worlds|
    ensures SignalsNoticed(r.worlds[i].rt, StateAt(r, i))
  {
    hide Inv, Next;
    if i > 0 {
      SignalledOnlyBehindIntent(c, r, i - 1);
      RunInv(c, r, i - 1);
      RunStep(c, r, i - 1);
      StepSignals(c, r.worlds[i - 1], r.steps[i - 1], r.worlds[i]);
    }
  }

  /** A notice is given once under one reason, and its stop, once marked, only ever moves earlier. */
  lemma StopIsNeverPostponed(c: Codec, r: Run, i: nat, j: nat, a: AllocationId)
    requires Lawful(c) && IsRun(c, r) && i <= j < |r.worlds|
    ensures a in StateAt(r, i).noticeIntents ==>
              a in StateAt(r, j).noticeIntents && StateAt(r, j).noticeIntents[a] == StateAt(r, i).noticeIntents[a]
    ensures a in StateAt(r, i).marks ==>
              && a in StateAt(r, j).marks
              && StateAt(r, j).marks[a].stopAt <= StateAt(r, i).marks[a].stopAt
              && StateAt(r, j).marks[a].notifiedAt == StateAt(r, i).marks[a].notifiedAt
  {
    hide IsRun;
    RunLater(c, r, i, j);
  }

  // ---- one pass of the timers ----

  /** Notifying one allocation touches no other's mark. */
  predicate MarksOnly(a: Agent, b: Agent, alloc: AllocationId) {
    b.state.marks - {alloc} == a.state.marks - {alloc}
  }

  lemma SignalMarksOnly(a: Agent, alloc: AllocationId, stopAt: Timestamp, now: Timestamp)
    ensures MarksOnly(a, SignalAndMark(a, alloc, stopAt, now).agent, alloc)
  {
    hide Shortfall, NoticeReports;
  }

  lemma ShortenMarksOnly(a: Agent, alloc: AllocationId, i: Intent, m: Mark, now: Timestamp)
    ensures MarksOnly(a, Shorten(a, alloc, i, m, now).agent, alloc)
  {
    hide Shortfall, NoticeReports, StopTime;
  }

  lemma NotifyMarksOnly(a: Agent, alloc: AllocationId, now: Timestamp)
    ensures MarksOnly(a, NotifyUnderPlan(a, alloc, now).agent, alloc)
  {
    hide TermsFor, SignalAndMark, Shorten;
    if alloc in a.state.intents {
      var i := a.state.intents[alloc];
      var terms := TermsFor(a.state.plan, i, now);
      if terms.Some? {
        SignalMarksOnly(WithNotice(a, alloc, terms.value.reason), alloc, terms.value.stopAt, now);
        SignalMarksOnly(a, alloc, terms.value.stopAt, now);
        SignalMarksOnly(a, alloc, Min(SatAdd(now, i.notice), terms.value.stopAt), now);
        if alloc in a.state.marks { ShortenMarksOnly(a, alloc, i, a.state.marks[alloc], now); }
      }
    }
  }

  lemma NotifyKeepsOtherMarks(a: Agent, alloc: AllocationId, now: Timestamp, x: AllocationId)
    requires x != alloc
    ensures Get(NotifyUnderPlan(a, alloc, now).agent.state.marks, x) == Get(a.state.marks, x)
  {
    hide NotifyUnderPlan;
    NotifyMarksOnly(a, alloc, now);
    var b := NotifyUnderPlan(a, alloc, now).agent;
    assert Get(b.state.marks - {alloc}, x) == Get(a.state.marks - {alloc}, x);
  }

  lemma {:induction false} NotifyAllKeepsOtherMarks(a: Agent, allocs: seq<AllocationId>, now: Timestamp,
                                                    x: AllocationId)
    requires x !in allocs
    ensures Get(NotifyAll(a, allocs, now).agent.state.marks, x) == Get(a.state.marks, x)
    decreases |allocs|
  {
    hide NotifyUnderPlan;
    if allocs != [] {
      NotifyKeepsOtherMarks(a, allocs[0], now, x);
      NotifyAllKeepsOtherMarks(NotifyUnderPlan(a, allocs[0], now).agent, allocs[1..], now, x);
    }
  }

  /** An allocation this pass gives its first notice. */
  predicate FirstNoticed(a: Agent, x: AllocationId, now: Timestamp) {
    && x in a.state.intents && x !in a.state.exits && x !in a.starting
    && x !in a.state.tombstones && x !in a.state.noticeIntents
    && TermsFor(a.state.plan, a.state.intents[x], now).Some?
    && TermsFor(a.state.plan, a.state.intents[x], now).value.noticeAt <= now
  }

  function PlanStop(a: Agent, x: AllocationId, now: Timestamp): Timestamp
    requires FirstNoticed(a, x, now)
  {
    TermsFor(a.state.plan, a.state.intents[x], now).value.stopAt
  }

  lemma NotifyMarks(a: Agent, x: AllocationId, now: Timestamp)
    requires FirstNoticed(a, x, now)
    ensures var b := NotifyUnderPlan(a, x, now).agent;
            x in b.state.marks && b.state.marks[x].stopAt == PlanStop(a, x, now)
  {
    hide TermsFor, Shortfall;
  }

  lemma {:induction false} NotifyAllMarks(a: Agent, allocs: seq<AllocationId>, now: Timestamp, x: AllocationId)
    requires FirstNoticed(a, x, now) && x in allocs && StrictlyAscending(allocs)
    ensures var b := NotifyAll(a, allocs, now).agent;
            x in b.state.marks && b.state.marks[x].stopAt == PlanStop(a, x, now)
    decreases |allocs|
  {
    hide NotifyUnderPlan, TermsFor;
    var b := NotifyUnderPlan(a, allocs[0], now).agent;
    if allocs[0] == x {
      NotifyMarks(a, x, now);
      assert x !in allocs[1..];
      NotifyAllKeepsOtherMarks(b, allocs[1..], now, x);
    } else {
      NotifyUnderPlanFacts(a, allocs[0], now);
      NotifyAllMarks(b, allocs[1..], now, x);
    }
  }

  lemma NoticeTimesAgree(p: Plan, i: Intent, now: Timestamp)
    ensures NoticeAt(p, i) == (if TermsFor(p, i, now).None? then None else Some(TermsFor(p, i, now).value.noticeAt))
  {
  }

  lemma FirstNoticedDueIff(a: Agent, x: AllocationId, now: Timestamp)
    requires FirstNoticed(a, x, now) && !StopBegun(a, x)
    ensures var b := BeginDueNotices(a, now).agent;
            x in b.state.noticeIntents && (x in DueStops(b, now) <==> PlanStop(a, x, now) <= now)
  {
    hide NotifyAll, TermsFor, NoticeAt;
    var due := Ascending(DueNotices(a, now));
    NoticeTimesAgree(a.state.plan, a.state.intents[x], now);
    assert x in due;
    NotifyAllMarks(a, due, now, x);
    NotifyAllFacts(a, due, now, x);
  }

  // ---- no stop without its tombstone ----

  lemma HandlerTombstones(a: Agent, rt: Runtime, ev: Event, clock: Clock, x: AllocationId)
    requires AgentOk(a) && Expected(a, ev)
    ensures StopLeft(a, Handle(a, rt, ev, clock).agent, x)
  {
    hide Handle, HandleCommand, AgentOk, BoundLeft, StopLeft;
    if ev.CommandArrives? && ev.cmd.body.Some? && TakesOn(a, ev.cmd.body.value, x) {
      AgentTracks(a, x);
      HandlesCommand(a, rt, ev, clock);
      CommandTakesOn(a, rt, ev.cmd, clock, x);
    } else {
      HandlerLeavesBound(a, rt, ev, clock, x);
    }
  }

  lemma StepTombstones(c: Codec, w: World, s: Step, w': World, x: AllocationId)
    requires Lawful(c) && Inv(c, w) && Next(c, w, s, w') && (s.Deliver? ==> Expected(w.agent, s.ev))
    requires StopBegun(w.agent, x) ==> x in w.agent.state.tombstones
    ensures StopBegun(w'.agent, x) ==> x in w'.agent.state.tombstones
  {
    hide Inv, Handle, Scan, Canonical, EncodeLog, DiskAfter, CrashedDisk, RuntimeAfter, WithSpecs, AgentOk, StartRun,
         StopRun;
    InvQueues(c, w);
    if s.Deliver? { HandlerTombstones(w.agent, Taken(w, s.ev).rt, s.ev, s.clock, x); }
  }

  /** In every reachable world a stop in flight, backing off or abandoned has its tombstone in the journal. */
  lemma {:induction false} StopsAreTombstoned(c: Codec, r: Run, i: nat, x: AllocationId)
    requires Lawful(c) && IsRun(c, r) && i < |r.worlds| && StopBegun(r.worlds[i].agent, x)
    ensures x in StateAt(r, i).tombstones
  {
    hide Inv, Next, EncodeLog, Canonical;
    if i > 0 {
      RunInv(c, r, i - 1);
      RunStep(c, r, i - 1);
      if r.steps[i - 1].Deliver? { ExpectedResult(c, r, i - 1); }
      if StopBegun(r.worlds[i - 1].agent, x) { StopsAreTombstoned(c, r, i - 1, x); }
      StepTombstones(c, r.worlds[i - 1], r.steps[i - 1], r.worlds[i], x);
    }
  }

  lemma BeginStopTombstones(a: Agent, alloc: AllocationId, x: AllocationId)
    requires alloc in a.state.intents
    ensures var b := BeginStop(a, alloc).agent;
            && b.state.noticeIntents == a.state.noticeIntents && b.state.intents == a.state.intents
            && (x in b.state.tombstones <==> x in a.state.tombstones || x == alloc)
  {
    hide StopReason, QueueStop;
    var t := Preempt(StopReason(a.state, alloc));
    QueueKeepsState(a, alloc, a.state.intents[alloc].abortGrace);
    QueueKeepsState(WithTombstone(a, alloc, t), alloc, a.state.intents[alloc].abortGrace);
  }

  lemma QueueKeepsState(a: Agent, alloc: AllocationId, grace: Duration)
    ensures QueueStop(a, alloc, grace).state == a.state
  {
  }

  lemma {:induction false} BeginStopsTombstone(a: Agent, allocs: seq<AllocationId>, x: AllocationId)
    requires forall y :: y in allocs ==> y in a.state.intents
    ensures var b := BeginStops(a, allocs).agent;
            && b.state.noticeIntents == a.state.noticeIntents
            && (x in b.state.tombstones <==> x in a.state.tombstones || x in allocs)
    decreases |allocs|
  {
    hide BeginStop;
    if allocs != [] {
      BeginStopTombstones(a, allocs[0], x);
      BeginStopsTombstone(BeginStop(a, allocs[0]).agent, allocs[1..], x);
      assert allocs == [allocs[0]] + allocs[1..];
    }
  }

  /** What one pass of the timers does to an attempt it gives its first notice. */
  lemma TimersOnFirstNotice(a: Agent, x: AllocationId, now: Timestamp)
    requires FirstNoticed(a, x, now) && !StopBegun(a, x) && a.pendingStops == []
    ensures var b := OnTimers(a, now).agent;
            && x in b.state.noticeIntents
            && (x in StopIds(b.pendingStops) <==> PlanStop(a, x, now) <= now)
            && (x in b.state.tombstones <==> PlanStop(a, x, now) <= now)
  {
    hide NotifyAll, DueNotices, BeginStops, StopDue, TermsFor, FirstNoticed, PlanStop;
    FirstNoticedDueIff(a, x, now);
    var n := BeginDueNotices(a, now).agent;
    NotifyAllFacts(a, Ascending(DueNotices(a, now)), now, x);
    var due := Ascending(DueStops(n, now));
    BeginStopsQueues(n, due);
    BeginStopsTombstone(n, due, x);
    FirstNoticedIsFresh(a, x, now);
  }

  lemma FirstNoticedIsFresh(a: Agent, x: AllocationId, now: Timestamp)
    requires FirstNoticed(a, x, now)
    ensures x !in a.state.tombstones && x !in a.state.noticeIntents
  {
  }

  /**
   * Due notices go out before due stops are taken, to leave a gap between an attempt's notice and its stop.
   * At any pass of the timers in any run, an attempt given its first notice is tombstoned and its stop queued
   * in that same pass if and only if its stop under the plan is already due.
   */
  lemma NotifiedNowStoppedNowIff(c: Codec, r: Run, i: nat, x: AllocationId)
    requires Lawful(c) && IsRun(c, r) && i < |r.steps| && r.steps[i].Deliver? && r.steps[i].ev.TimersDue?
    requires FirstNoticed(r.worlds[i].agent, x, r.steps[i].clock.wall)
    ensures x !in StateAt(r, i).noticeIntents && x in StateAt(r, i + 1).noticeIntents && x !in r.worlds[i].stops
    ensures var due := PlanStop(r.worlds[i].agent, x, r.steps[i].clock.wall) <= r.steps[i].clock.wall;
            (x in r.worlds[i + 1].stops <==> due) && (x in StateAt(r, i + 1).tombstones <==> due)
  {
    hide Inv, Next, Init, FirstNoticed, PlanStop;
    var w, now := r.worlds[i], r.steps[i].clock.wall;
    RunInv(c, r, i);
    RunStops(c, r, i);
    RunStep(c, r, i);
    FirstNoticedIsFresh(w.agent, x, now);
    if StopBegun(w.agent, x) { StopsAreTombstoned(c, r, i, x); }
    TimersStep(c, w, r.steps[i], r.worlds[i + 1], x);
  }

  lemma TimersStep(c: Codec, w: World, s: Step, w': World, x: AllocationId)
    requires Lawful(c) && Inv(c, w) && Next(c, w, s, w') && s.Deliver? && s.ev.TimersDue?
    requires FirstNoticed(w.agent, x, s.clock.wall) && !StopBegun(w.agent, x) && x !in w.stops
    ensures x in w'.agent.state.noticeIntents
    ensures var due := PlanStop(w.agent, x, s.clock.wall) <= s.clock.wall;
            (x in w'.stops <==> due) && (x in w'.agent.state.tombstones <==> due)
  {
    hide Inv, OnTimers, DiskAfter, RuntimeAfter, WithSpecs, FirstNoticed, PlanStop;
    InvQueues(c, w);
    TimersOnFirstNotice(w.agent, x, s.clock.wall);
    var q := OnTimers(w.agent, s.clock.wall).agent.pendingStops;
    StopIdsAre(q, x);
  }

  lemma StopIdsAre(stops: seq<StopRequest>, x: AllocationId)
    ensures x in StopIds(stops) <==> x in (set s | s in stops :: s.allocation)
  {
    if x in StopIds(stops) {
      var i :| 0 <= i < |stops| && StopIds(stops)[i] == x;
      assert stops[i] in stops;
    }
    if s :| s in stops && s.allocation == x {
      var i :| 0 <= i < |stops| && stops[i] == s;
      assert StopIds(stops)[i] == x;
    }
  }
}
