/** Every notice the agent reports is exactly the durable mark that bounds the attempt. */
module NoticeReporting {
  import opened Types
  import opened JournalState
  import opened Framing
  import opened Executor
  import opened SessionSpec
  import opened Effects
  import opened SessionFacts
  import opened System
  import opened Runs
  import opened DrainPlans
  import opened NoticeRuns

  /** A report of the allocation's own mark: its ids, its notice's reason, what remains of it, what it lacks. */
  predicate TellsMark(b: Agent, r: Report, now: Timestamp) {
    && r.AttemptNotice? && r.epoch == b.epoch
    && r.allocation in b.state.intents && r.allocation in b.state.noticeIntents && r.allocation in b.state.marks
    && var i, m := b.state.intents[r.allocation], b.state.marks[r.allocation];
       && r.attempt == i.attempt && r.job == i.job && r.reason == b.state.noticeIntents[r.allocation]
       && r.remaining == Max(m.stopAt - now, 0) && r.shortfall == Max(m.shortfall, 0)
  }

  ghost predicate AllTell(b: Agent, reports: seq<Report>, now: Timestamp) {
    forall r :: r in reports && r.AttemptNotice? ==> TellsMark(b, r, now)
  }

  /** What a report reads about `x` is the same in both. */
  predicate SameMark(a: Agent, b: Agent, x: AllocationId) {
    && b.epoch == a.epoch && Get(b.state.intents, x) == Get(a.state.intents, x)
    && Get(b.state.noticeIntents, x) == Get(a.state.noticeIntents, x) && Get(b.state.marks, x) == Get(a.state.marks, x)
  }

  lemma TellingSurvives(a: Agent, b: Agent, r: Report, now: Timestamp)
    requires TellsMark(a, r, now) && SameMark(a, b, r.allocation)
    ensures TellsMark(b, r, now)
  {
  }

  lemma SignalTells(a: Agent, alloc: AllocationId, stopAt: Timestamp, now: Timestamp)
    ensures var o := SignalAndMark(a, alloc, stopAt, now);
            forall r :: r in o.reports ==> r.AttemptNotice? && r.allocation == alloc && TellsMark(o.agent, r, now)
  {
    hide Shortfall;
  }

  lemma ShortenTells(a: Agent, alloc: AllocationId, i: Intent, m: Mark, now: Timestamp)
    ensures var o := Shorten(a, alloc, i, m, now);
            forall r :: r in o.reports ==> r.AttemptNotice? && r.allocation == alloc && TellsMark(o.agent, r, now)
  {
    hide Shortfall, StopTime;
  }

  lemma NotifyTells(a: Agent, alloc: AllocationId, now: Timestamp)
    ensures var o := NotifyUnderPlan(a, alloc, now);
            forall r :: r in o.reports ==> r.AttemptNotice? && r.allocation == alloc && TellsMark(o.agent, r, now)
  {
    hide TermsFor, SignalAndMark, Shorten, TellsMark;
    if alloc in a.state.intents {
      var i := a.state.intents[alloc];
      var terms := TermsFor(a.state.plan, i, now);
      if terms.Some? {
        SignalTells(WithNotice(a, alloc, terms.value.reason), alloc, terms.value.stopAt, now);
        SignalTells(a, alloc, terms.value.stopAt, now);
        SignalTells(a, alloc, Min(SatAdd(now, i.notice), terms.value.stopAt), now);
        if alloc in a.state.marks { ShortenTells(a, alloc, i, a.state.marks[alloc], now); }
      }
    }
  }

  lemma NotifyAllKeepsMark(a: Agent, allocs: seq<AllocationId>, now: Timestamp, x: AllocationId)
    requires x !in allocs
    ensures SameMark(a, NotifyAll(a, allocs, now).agent, x)
  {
    hide NotifyAll;
    NotifyAllFacts(a, allocs, now, x);
    NotifyAllKeepsOtherMarks(a, allocs, now, x);
  }

  lemma {:induction false} NotifyAllTells(a: Agent, allocs: seq<AllocationId>, now: Timestamp)
    requires StrictlyAscending(allocs)
    ensures AllTell(NotifyAll(a, allocs, now).agent, NotifyAll(a, allocs, now).reports, now)
    decreases |allocs|
  {
    hide NotifyUnderPlan, TellsMark, SameMark;
    if allocs != [] {
      var o := NotifyUnderPlan(a, allocs[0], now);
      var rest := NotifyAll(o.agent, allocs[1..], now);
      NotifyTells(a, allocs[0], now);
      NotifyAllTells(o.agent, allocs[1..], now);
      assert allocs[0] !in allocs[1..];
      NotifyAllKeepsMark(o.agent, allocs[1..], now, allocs[0]);
      forall r | r in o.reports ensures TellsMark(rest.agent, r, now) {
        TellingSurvives(o.agent, rest.agent, r, now);
      }
    }
  }

  lemma ResumeTells(a: Agent, alloc: AllocationId, now: Timestamp)
    ensures var o := ResumeOne(a, alloc, now);
            && (forall r :: r in o.reports ==> r.AttemptNotice? && r.allocation == alloc && TellsMark(o.agent, r, now))
            && (forall x :: x != alloc ==> SameMark(a, o.agent, x))
  {
    hide SignalAndMark, TellsMark;
    if alloc in a.state.intents {
      var stopAt := SatAdd(now, a.state.intents[alloc].notice);
      SignalTells(a, alloc, stopAt, now);
      SignalMarksOnly(a, alloc, stopAt, now);
      SignalAndMarkFacts(a, alloc, stopAt, now);
      var b := SignalAndMark(a, alloc, stopAt, now).agent;
      forall x | x != alloc ensures Get(b.state.marks, x) == Get(a.state.marks, x) {
        assert Get(b.state.marks - {alloc}, x) == Get(a.state.marks - {alloc}, x);
      }
    }
  }

  lemma {:induction false} ResumeAllKeepsMark(a: Agent, allocs: seq<AllocationId>, now: Timestamp, x: AllocationId)
    requires x !in allocs
    ensures SameMark(a, ResumeAll(a, allocs, now).agent, x)
    decreases |allocs|
  {
    hide ResumeOne;
    if allocs != [] {
      ResumeTells(a, allocs[0], now);
      assert SameMark(a, ResumeOne(a, allocs[0], now).agent, x);
      ResumeAllKeepsMark(ResumeOne(a, allocs[0], now).agent, allocs[1..], now, x);
    }
  }

  lemma {:induction false} ResumeAllTells(a: Agent, allocs: seq<AllocationId>, now: Timestamp)
    requires StrictlyAscending(allocs)
    ensures AllTell(ResumeAll(a, allocs, now).agent, ResumeAll(a, allocs, now).reports, now)
    decreases |allocs|
  {
    hide ResumeOne, TellsMark, SameMark;
    if allocs != [] {
      var o := ResumeOne(a, allocs[0], now);
      var rest := ResumeAll(o.agent, allocs[1..], now);
      ResumeTells(a, allocs[0], now);
      ResumeAllTells(o.agent, allocs[1..], now);
      assert allocs[0] !in allocs[1..];
      ResumeAllKeepsMark(o.agent, allocs[1..], now, allocs[0]);
      forall r | r in o.reports ensures TellsMark(rest.agent, r, now) {
        TellingSurvives(o.agent, rest.agent, r, now);
      }
    }
  }

  // ---- every handler ----

  lemma {:induction false} BeginStopsKeepsMarks(a: Agent, allocs: seq<AllocationId>, x: AllocationId)
    ensures SameMark(a, BeginStops(a, allocs).agent, x)
    decreases |allocs|
  {
    if allocs != [] { BeginStopsKeepsMarks(BeginStop(a, allocs[0]).agent, allocs[1..], x); }
  }

  lemma OnTimersTells(a: Agent, now: Timestamp)
    ensures AllTell(OnTimers(a, now).agent, OnTimers(a, now).reports, now)
  {
    hide NotifyAll, BeginStops, TellsMark, SameMark, DueNotices, DueStops;
    var due := Ascending(DueNotices(a, now));
    NotifyAllTells(a, due, now);
    var n := NotifyAll(a, due, now);
    var end := OnTimers(a, now).agent;
    forall r | r in n.reports && r.AttemptNotice? ensures TellsMark(end, r, now) {
      BeginStopsKeepsMarks(n.agent, Ascending(DueStops(n.agent, now)), r.allocation);
      TellingSurvives(n.agent, end, r, now);
    }
  }

  lemma ResumeNoticesTells(a: Agent, now: Timestamp)
    ensures AllTell(ResumeNotices(a, now).agent, ResumeNotices(a, now).reports, now)
  {
    hide NotifyAll, ResumeAll, TellsMark, RefreshedBounds, Outstanding;
    var live := Outstanding(a.state);
    var o := if a.state.plan == NO_PLAN then ResumeAll(a, live, now) else NotifyAll(a, live, now);
    OutstandingAscends(a.state);
    if a.state.plan == NO_PLAN { ResumeAllTells(a, live, now); } else { NotifyAllTells(a, live, now); }
    var end := ResumeNotices(a, now).agent;
    forall r | r in o.reports && r.AttemptNotice? ensures TellsMark(end, r, now) {
      assert SameMark(o.agent, end, r.allocation);
      TellingSurvives(o.agent, end, r, now);
    }
  }

  lemma OutstandingAscends(s: State)
    ensures StrictlyAscending(Outstanding(s))
  {
  }

  lemma OnInterruptionTells(a: Agent, deadline: Timestamp, now: Timestamp)
    ensures AllTell(OnInterruption(a, deadline, now).agent, OnInterruption(a, deadline, now).reports, now)
  {
    hide NotifyAll, TellsMark, WithPlan, Outstanding;
    var a1 := WithPlan(a, a.state.plan.(interruption := Some(deadline)), now);
    OutstandingAscends(a1.state);
    NotifyAllTells(a1, Outstanding(a1.state), now);
  }

  lemma OnDrainTells(a: Agent, deadlineUs: Option<i64>, windowUs: u64, now: Timestamp)
    ensures AllTell(OnDrain(a, deadlineUs, windowUs, now).agent, OnDrain(a, deadlineUs, windowUs, now).reports, now)
  {
    hide NotifyAll, TellsMark, WithPlan, DueNotices, FromMicros;
    var target := if deadlineUs.None? then None else FromMicros(deadlineUs.value);
    var p := a.state.plan.(operator :=
      if target.None? then None else Some(OperatorDrain(target.value, RuntimeBound(windowUs))));
    var a1 := WithPlan(a, p, now);
    NotifyAllTells(a1, Ascending(DueNotices(a1, now)), now);
  }

  lemma OnPreemptTells(a: Agent, victim: Option<AllocationId>, why: Option<PreemptReason>, noticeUs: u64,
                       now: Timestamp)
    ensures AllTell(OnPreempt(a, victim, why, noticeUs, now).agent, OnPreempt(a, victim, why, noticeUs, now).reports,
                    now)
  {
    hide SignalAndMark, TermsFor;
    if victim.Some? && why.Some? && victim.value in a.state.intents {
      var alloc := victim.value;
      var terms := TermsFor(a.state.plan, a.state.intents[alloc], now);
      var asked := SatAdd(now, RuntimeBound(noticeUs));
      var stopAt := if terms.Some? then Min(asked, terms.value.stopAt) else asked;
      SignalTells(a, alloc, stopAt, now);
      SignalTells(WithNotice(a, alloc, why.value), alloc, stopAt, now);
    }
  }

  lemma StartedTells(a: Agent, alloc: AllocationId, i: Intent, clock: Clock)
    ensures AllTell(StartedOut(a, alloc, i, clock).agent, StartedOut(a, alloc, i, clock).reports, clock.wall)
  {
    hide NotifyUnderPlan, TellsMark;
    NotifyTells(Armed(a, alloc, i, clock), alloc, clock.wall);
  }

  lemma FinishStartTells(a: Agent, alloc: AllocationId, result: StartResult, clock: Clock)
    ensures AllTell(FinishStart(a, alloc, result, clock).agent, FinishStart(a, alloc, result, clock).reports,
                    clock.wall)
  {
    hide StartedOut, TellsMark, PlanRefusal, StartErrorOutcome;
    if alloc in a.state.intents && result.Started? {
      StartedTells(a.(launchBounds := a.launchBounds - {alloc}, starting := a.starting - {alloc}), alloc,
                   a.state.intents[alloc], clock);
    }
  }

  lemma OnStartJobTells(a: Agent, sj: StartJob, clock: Clock)
    ensures AllTell(OnStartJob(a, sj, clock).agent, OnStartJob(a, sj, clock).reports, clock.wall)
  {
    hide FinishStart, TellsMark, Opened, DoorRefusal, FromMicros;
    if sj.ids.Some? {
      var i := IntentFor(a, sj);
      var latestStart := if sj.latestStartUs.None? then None else FromMicros(sj.latestStartUs.value);
      if latestStart.Some? {
        FinishStartTells(Opened(a, i, latestStart, clock.wall), i.allocation,
                         Failed(LaunchBoundPassed(latestStart.value)), clock);
      }
    }
  }

  lemma OnFreshTells(a: Agent, body: Body, clock: Clock)
    ensures AllTell(OnFresh(a, body, clock).agent, OnFresh(a, body, clock).reports, clock.wall)
  {
    hide OnStartJob, OnPreempt, OnDrain, TellsMark;
    match body
    case StartJobBody(sj) => OnStartJobTells(a, sj, clock);
    case PreemptJobBody(victim, why, notice) => OnPreemptTells(a, victim, why, notice, clock.wall);
    case DrainBody(deadline, window) => OnDrainTells(a, deadline, window, clock.wall);
    case _ =>
  }

  lemma HandleCommandTells(a: Agent, rt: Runtime, cmd: Command, clock: Clock)
    ensures AllTell(HandleCommand(a, rt, cmd, clock).agent, HandleCommand(a, rt, cmd, clock).reports, clock.wall)
  {
    hide Admit, OnFresh, TellsMark, UnresolveAll, Seen, SpentIds, Rearmed;
    if Accepts(a, cmd) { OnFreshTells(Admit(a, cmd.header.value).agent, cmd.body.value, clock); }
  }

  lemma EndingsTell(a: Agent, rt: Runtime, ev: Event, clock: Clock)
    requires ev.StopFinished? || ev.ExitSeen? || ev.WatchdogFires? || ev.JanitorTicks? || ev.Reconnects?
             || ev.DrainingSet?
    ensures forall r :: r in Handle(a, rt, ev, clock).reports ==> !r.AttemptNotice?
  {
    hide StopVerdict, ClassifyStop, ClassifyExit, StopContainer, AttributionOf, SweepFx;
  }

  lemma HandleTells(a: Agent, rt: Runtime, ev: Event, clock: Clock)
    ensures AllTell(Handle(a, rt, ev, clock).agent, Handle(a, rt, ev, clock).reports, clock.wall)
  {
    hide HandleCommand, FinishStart, FinishStop, OnObservedExit, OnMaxRuntime, OnTimers, OnInterruption,
         ResumeNotices, TellsMark;
    match ev
    case CommandArrives(cmd) => HandleCommandTells(a, rt, cmd, clock);
    case StartFinished(alloc, result) => FinishStartTells(a, alloc, result, clock);
    case TimersDue => OnTimersTells(a, clock.wall);
    case Interrupted(deadline) => OnInterruptionTells(a, deadline, clock.wall);
    case Resumes => ResumeNoticesTells(a, clock.wall);
    case _ => EndingsTell(a, rt, ev, clock);
  }

  /** Every notice sent in any run is exactly the mark then journaled for its allocation. */
  lemma EveryNoticeTellsItsMark(c: Codec, r: Run, i: nat, report: Report)
    requires Lawful(c) && IsRun(c, r) && i < |r.steps| && Enabled(r.worlds[i], r.steps[i])
    requires report in Sent(r.worlds[i], r.steps[i]) && report.AttemptNotice?
    ensures TellsMark(r.worlds[i + 1].agent, report, r.steps[i].clock.wall)
  {
    hide Init, Handle, Crashes, DiskAfter, RuntimeAfter, WithSpecs;
    var w, s := r.worlds[i], r.steps[i];
    RunStep(c, r, i);
    HandleTells(w.agent, Taken(w, s.ev).rt, s.ev, s.clock);
    TellingSurvives(Interrupts(w, s).agent, r.worlds[i + 1].agent, report, s.clock.wall);
  }

  /**
   * At every point of every run, what a marked attempt's window gives and the shortfall reported for it make up
   * the notice its StartJob promised, and a shortfall is reported only when they make it up exactly.
   */
  lemma WindowAndShortfallMakeUpTheNotice(c: Codec, r: Run, i: nat, a: AllocationId)
    requires Lawful(c) && IsRun(c, r) && i < |r.worlds| && a in StateAt(r, i).marks
    ensures a in StateAt(r, i).intents
    ensures var m, promised := StateAt(r, i).marks[a], StateAt(r, i).intents[a].notice;
            var window := Max(m.stopAt - m.notifiedAt, 0);
            m.shortfall >= 0 && window + m.shortfall >= promised
                && (m.shortfall > 0 ==> window + m.shortfall == promised)
  {
    hide IsRun, Inv, Shortfall;
    RunInv(c, r, i);
    InvQueues(c, r.worlds[i]);
    var m := StateAt(r, i).marks[a];
    ShortfallIsWhatIsMissing(StateAt(r, i).intents[a].notice, m.notifiedAt, m.stopAt);
  }
}
