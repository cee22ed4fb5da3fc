/** What each handler leaves alone, whom it notifies, and what it may say. */
module SessionFacts {
  import opened Types
  import opened JournalState
  import opened Executor
  import opened Observed
  import opened SessionSpec
  import opened SessionProofs

  /** Fencing, registration and the drain announcement are untouched. */
  predicate KeepsFence(a: Agent, b: Agent) {
    && b.epoch == a.epoch && b.state.watermark == a.state.watermark
    && b.lastSeq == a.lastSeq && b.registered == a.registered && b.draining == a.draining
  }

  /** Nothing moved, in memory or in the journal, but notice intents and marks. */
  predicate OnlyNotices(a: Agent, b: Agent) {
    b == a.(state := a.state.(noticeIntents := b.state.noticeIntents, marks := b.state.marks))
  }

  /** A status of an allocation whose exit is journaled is Terminal with exactly that exit. */
  predicate TellsTruth(b: Agent, r: Report) {
    && r.epoch == b.epoch
    && (r.AttemptStatus? && r.allocation in b.state.exits ==>
          var e := b.state.exits[r.allocation];
          r.attempt == e.attempt && r.job == e.job && r.observed == Terminal(e.outcome) && r.runtime == e.runtime)
  }

  ghost predicate Honest(b: Agent, reports: seq<Report>) {
    forall r :: r in reports ==> TellsTruth(b, r)
  }

  ghost predicate JustNotices(b: Agent, reports: seq<Report>) {
    forall r :: r in reports ==> r.AttemptNotice? && r.epoch == b.epoch
  }

  lemma NoNotices(a: Agent)
    ensures OnlyNotices(a, a)
  {
  }

  lemma MoreNotices(a: Agent, b: Agent, c: Agent)
    requires OnlyNotices(a, b) && OnlyNotices(b, c)
    ensures OnlyNotices(a, c)
  {
  }

  lemma NoticesKeepFence(a: Agent, b: Agent)
    requires OnlyNotices(a, b)
    ensures KeepsFence(a, b) && b.starting == a.starting
    ensures b.state == a.state.(noticeIntents := b.state.noticeIntents, marks := b.state.marks)
  {
  }

  // ---- notices ----

  /** The notice intent an allocation holds once it has been brought under the plan at `now`. */
  function NoticeAfter(a: Agent, alloc: AllocationId, now: Timestamp): Option<PreemptReason> {
    if alloc in a.state.noticeIntents then Some(a.state.noticeIntents[alloc])
    else if alloc !in a.state.intents || alloc in a.state.exits then None
    else if alloc in a.starting || alloc in a.state.tombstones then None
    else
      var terms := TermsFor(a.state.plan, a.state.intents[alloc], now);
      if terms.Some? && terms.value.noticeAt <= now then Some(terms.value.reason) else None
  }

  lemma SignalAndMarkFacts(a: Agent, alloc: AllocationId, stopAt: Timestamp, now: Timestamp)
    ensures var o := SignalAndMark(a, alloc, stopAt, now);
            && OnlyNotices(a, o.agent) && JustNotices(a, o.reports)
            && o.agent.state.noticeIntents == a.state.noticeIntents
  {
  }

  lemma NotifyFacts(a: Agent, alloc: AllocationId, reason: PreemptReason, stopAt: Timestamp, now: Timestamp)
    ensures var o := Notify(a, alloc, reason, stopAt, now);
            && OnlyNotices(a, o.agent) && JustNotices(a, o.reports)
            && o.agent.state.noticeIntents == a.state.noticeIntents[alloc := reason]
  {
    SignalAndMarkFacts(WithNotice(a, alloc, reason), alloc, stopAt, now);
  }

  lemma ShortenFacts(a: Agent, alloc: AllocationId, i: Intent, m: Mark, now: Timestamp)
    ensures var o := Shorten(a, alloc, i, m, now);
            && OnlyNotices(a, o.agent) && JustNotices(a, o.reports)
            && o.agent.state.noticeIntents == a.state.noticeIntents
  {
  }

  lemma NotifyUnderPlanFacts(a: Agent, alloc: AllocationId, now: Timestamp)
    ensures var o := NotifyUnderPlan(a, alloc, now);
            && OnlyNotices(a, o.agent) && JustNotices(a, o.reports)
            && o.agent.state.noticeIntents ==
                 if NoticeAfter(a, alloc, now).Some?
                     then a.state.noticeIntents[alloc := NoticeAfter(a, alloc, now).value]
                 else a.state.noticeIntents
  {
    hide Notify, SignalAndMark, Shorten, TermsFor, OnlyNotices;
    NoNotices(a);
    if alloc in a.state.intents && alloc !in a.state.exits && alloc !in a.starting {
      var i := a.state.intents[alloc];
      var terms := TermsFor(a.state.plan, i, now);
      if terms.Some? {
        if alloc !in a.state.noticeIntents {
          NotifyFacts(a, alloc, terms.value.reason, terms.value.stopAt, now);
        } else if alloc !in a.state.marks {
          var reason := a.state.noticeIntents[alloc];
          var stopAt := if reason.Drain? || reason.Interruption? then terms.value.stopAt
                        else Min(SatAdd(now, i.notice), terms.value.stopAt);
          SignalAndMarkFacts(a, alloc, stopAt, now);
        } else {
          ShortenFacts(a, alloc, i, a.state.marks[alloc], now);
        }
      }
    }
  }

  lemma NoPlanNotifiesNobody(a: Agent, x: AllocationId, now: Timestamp)
    requires a.state.plan == NO_PLAN
    ensures NoticeAfter(a, x, now) == Get(a.state.noticeIntents, x)
  {
  }

  /** Bringing one allocation under the plan settles its own notice and leaves every other's to come. */
  lemma NoticeAfterAgain(a: Agent, b: Agent, alloc: AllocationId, now: Timestamp, x: AllocationId)
    requires b.starting == a.starting
             && b.state == a.state.(noticeIntents := b.state.noticeIntents, marks := b.state.marks)
    requires b.state.noticeIntents ==
               if NoticeAfter(a, alloc, now).Some? then a.state.noticeIntents[alloc := NoticeAfter(a, alloc, now).value]
               else a.state.noticeIntents
    ensures NoticeAfter(b, x, now) == NoticeAfter(a, x, now)
    ensures Get(b.state.noticeIntents, x) ==
              if x == alloc then NoticeAfter(a, x, now) else Get(a.state.noticeIntents, x)
  {
    hide TermsFor;
  }

  /** A pass over live allocations gives notice to exactly those listed and due, each under the plan's reason. */
  lemma {:induction false} NotifyAllFacts(a: Agent, allocs: seq<AllocationId>, now: Timestamp, x: AllocationId)
    ensures var o := NotifyAll(a, allocs, now);
            && OnlyNotices(a, o.agent) && JustNotices(a, o.reports)
            && Get(o.agent.state.noticeIntents, x) ==
                 if x in allocs then NoticeAfter(a, x, now) else Get(a.state.noticeIntents, x)
    decreases |allocs|
  {
    hide NotifyUnderPlan, OnlyNotices, NoticeAfter;
    NoNotices(a);
    if allocs != [] {
      var o := NotifyUnderPlan(a, allocs[0], now);
      NotifyUnderPlanFacts(a, allocs[0], now);
      NotifyAllFacts(o.agent, allocs[1..], now, x);
      MoreNotices(a, o.agent, NotifyAll(o.agent, allocs[1..], now).agent);
      NoticesKeepFence(a, o.agent);
      NoticeAfterAgain(a, o.agent, allocs[0], now, x);
      assert allocs == [allocs[0]] + allocs[1..];
    }
  }

  lemma {:induction false} ResumeAllFacts(a: Agent, allocs: seq<AllocationId>, now: Timestamp)
    ensures var o := ResumeAll(a, allocs, now);
            && OnlyNotices(a, o.agent) && JustNotices(a, o.reports)
            && o.agent.state.noticeIntents == a.state.noticeIntents
    decreases |allocs|
  {
    hide SignalAndMark, OnlyNotices;
    NoNotices(a);
    if allocs != [] {
      var o := ResumeOne(a, allocs[0], now);
      if o != Unchanged(a) { SignalAndMarkFacts(a, allocs[0], SatAdd(now, a.state.intents[allocs[0]].notice), now); }
      ResumeAllFacts(o.agent, allocs[1..], now);
      MoreNotices(a, o.agent, ResumeAll(o.agent, allocs[1..], now).agent);
      NoticesKeepFence(a, o.agent);
    }
  }

  /** Resuming after a restart notifies exactly the outstanding allocations the recovered plan makes due. */
  lemma ResumeNoticesFacts(a: Agent, now: Timestamp, x: AllocationId)
    ensures var o := ResumeNotices(a, now);
            && KeepsFence(a, o.agent) && JustNotices(a, o.reports)
            && o.agent.state.exits == a.state.exits && o.agent.state.tombstones == a.state.tombstones
            && Get(o.agent.state.noticeIntents, x) ==
                 if x in OutstandingSet(a.state) then NoticeAfter(a, x, now) else Get(a.state.noticeIntents, x)
  {
    hide NotifyAll, ResumeAll, OnlyNotices, NoticeAfter, RefreshedBounds;
    var live := Outstanding(a.state);
    assert x in live <==> x in OutstandingSet(a.state);
    if a.state.plan == NO_PLAN {
      ResumeAllFacts(a, live, now);
      NoticesKeepFence(a, ResumeAll(a, live, now).agent);
      NoPlanNotifiesNobody(a, x, now);
    } else {
      NotifyAllFacts(a, live, now, x);
      NoticesKeepFence(a, NotifyAll(a, live, now).agent);
    }
  }

  lemma NoticesAreHonest(b: Agent, reports: seq<Report>)
    requires JustNotices(b, reports)
    ensures Honest(b, reports)
  {
  }

  // ---- the handlers outside the command stream ----

  lemma {:induction false} BeginStopsFacts(a: Agent, allocs: seq<AllocationId>)
    ensures var o := BeginStops(a, allocs); KeepsFence(a, o.agent) && o.reports == []
    decreases |allocs|
  {
    if allocs != [] { BeginStopsFacts(BeginStop(a, allocs[0]).agent, allocs[1..]); }
  }

  lemma OnTimersFacts(a: Agent, now: Timestamp)
    ensures var o := OnTimers(a, now); KeepsFence(a, o.agent) && JustNotices(a, o.reports)
  {
    var n := BeginDueNotices(a, now);
    NotifyAllFacts(a, Ascending(DueNotices(a, now)), now, 0);
    BeginStopsFacts(n.agent, Ascending(DueStops(n.agent, now)));
  }

  lemma OnInterruptionFacts(a: Agent, deadline: Timestamp, now: Timestamp)
    ensures var o := OnInterruption(a, deadline, now); KeepsFence(a, o.agent) && JustNotices(a, o.reports)
  {
    var a1 := WithPlan(a, a.state.plan.(interruption := Some(deadline)), now);
    NotifyAllFacts(a1, Outstanding(a1.state), now, 0);
  }

  lemma OnDrainFacts(a: Agent, deadlineUs: Option<i64>, windowUs: u64, now: Timestamp)
    ensures var o := OnDrain(a, deadlineUs, windowUs, now); KeepsFence(a, o.agent) && JustNotices(a, o.reports)
  {
    hide NotifyAll, TermsFor;
    var target := if deadlineUs.None? then None else FromMicros(deadlineUs.value);
    var p := a.state.plan.(operator :=
      if target.None? then None else Some(OperatorDrain(target.value, RuntimeBound(windowUs))));
    var a1 := WithPlan(a, p, now);
    NotifyAllFacts(a1, Ascending(DueNotices(a1, now)), now, 0);
  }

  lemma OnPreemptFacts(a: Agent, victim: Option<AllocationId>, why: Option<PreemptReason>, noticeUs: u64,
                       now: Timestamp)
    ensures var o := OnPreempt(a, victim, why, noticeUs, now); KeepsFence(a, o.agent) && JustNotices(a, o.reports)
  {
    hide Notify, SignalAndMark, TermsFor;
    NoNotices(a);
    if victim.Some? && why.Some? && victim.value in a.state.intents {
      var alloc := victim.value;
      var terms := TermsFor(a.state.plan, a.state.intents[alloc], now);
      var asked := SatAdd(now, RuntimeBound(noticeUs));
      var stopAt := if terms.Some? then Min(asked, terms.value.stopAt) else asked;
      SignalAndMarkFacts(a, alloc, stopAt, now);
      NotifyFacts(a, alloc, why.value, stopAt, now);
    }
  }

  lemma RecordExitFacts(a: Agent, alloc: AllocationId, outcome: Outcome, runtime: Duration)
    requires alloc in a.state.intents
    ensures var o := RecordExit(a, alloc, outcome, runtime);
            && KeepsFence(a, o.agent) && Honest(o.agent, o.reports)
            && (forall r :: r in o.reports ==> r.AttemptStatus? && r.observed.Terminal?)
  {
  }

  lemma OnMaxRuntimeFacts(a: Agent, rt: Runtime, alloc: AllocationId)
    ensures var o := OnMaxRuntime(a, rt, alloc);
            && KeepsFence(a, o.agent) && Honest(o.agent, o.reports)
            && (forall r :: r in o.reports ==> r.AttemptStatus? && r.observed.Terminal?)
  {
    if alloc in a.state.intents {
      var classified := ClassifyStop(StopContainer(rt, alloc).1, RuntimeLimitExceeded, AttributionOf(a.state, alloc));
      if classified.Some? { RecordExitFacts(a, alloc, classified.value.0, classified.value.1); }
    }
  }

  lemma OnObservedExitFacts(a: Agent, alloc: AllocationId, exit: ExitInfo)
    ensures var o := OnObservedExit(a, alloc, exit);
            && KeepsFence(a, o.agent) && Honest(o.agent, o.reports)
            && (forall r :: r in o.reports ==> r.AttemptStatus? && r.observed.Terminal?)
  {
    if alloc in a.state.intents {
      RecordExitFacts(a.(stopRetryAt := a.stopRetryAt - {alloc}), alloc,
                      ClassifyExit(exit, AttributionOf(a.state, alloc)), exit.runtime);
    }
  }

  lemma FinishStopFacts(a: Agent, alloc: AllocationId, result: StopResult, now: Timestamp)
    ensures var o := FinishStop(a, alloc, result, now);
            && KeepsFence(a, o.agent) && Honest(o.agent, o.reports)
            && (forall r :: r in o.reports ==> r.AttemptStatus? && r.observed.Terminal?)
  {
    var verdict := StopVerdict(a, alloc, result);
    if alloc in a.state.intents && verdict.Some? {
      var a1 := a.(stopping := a.stopping - {alloc}, deferredExits := a.deferredExits - {alloc});
      RecordExitFacts(a1, alloc, verdict.value.0, verdict.value.1);
    }
  }

  // ---- starts ----

  lemma StartFailedFacts(a: Agent, alloc: AllocationId, i: Intent, bound: Option<StartBound>, e: StartError)
    ensures var o := StartFailedOut(a, alloc, i, bound, e);
            && KeepsFence(a, o.agent) && Honest(o.agent, o.reports)
            && (forall r :: r in o.reports ==> r.AttemptStatus? && r.observed.Terminal?)
  {
  }

  lemma ArmedFacts(a: Agent, alloc: AllocationId, i: Intent, clock: Clock)
    ensures var a1 := Armed(a, alloc, i, clock); KeepsFence(a, a1) && a1.state == a.state && a1.starting == a.starting
  {
  }

  lemma RunningIsHonest(b: Agent, running: Report, rest: seq<Report>)
    requires running.AttemptStatus? && running.epoch == b.epoch && running.allocation !in b.state.exits
    requires JustNotices(b, rest)
    ensures Honest(b, [running] + rest)
    ensures forall r :: r in [running] + rest && r.AttemptStatus? ==> r == running
  {
  }

  /** A start reports Running only while the exit is not journaled; the notice that may follow is no status. */
  lemma StartedFacts(a: Agent, alloc: AllocationId, i: Intent, clock: Clock)
    requires alloc !in a.state.exits
    ensures var o := StartedOut(a, alloc, i, clock);
            && KeepsFence(a, o.agent) && Honest(o.agent, o.reports) && o.agent.state.exits == a.state.exits
            && (forall r :: r in o.reports && r.AttemptStatus? ==> r == Running(a, alloc, i.attempt, i.job))
  {
    var a1 := Armed(a, alloc, i, clock);
    var running := Running(a, alloc, i.attempt, i.job);
    ArmedFacts(a, alloc, i, clock);
    if alloc !in a1.state.tombstones && a1.state.plan != NO_PLAN {
      NotifyUnderPlanFacts(a1, alloc, clock.wall);
      var o := NotifyUnderPlan(a1, alloc, clock.wall);
      RunningIsHonest(o.agent, running, o.reports);
    }
  }

  lemma FinishStartFacts(a: Agent, alloc: AllocationId, result: StartResult, clock: Clock)
    ensures var o := FinishStart(a, alloc, result, clock);
            && KeepsFence(a, o.agent) && Honest(o.agent, o.reports)
            && (forall r :: r in o.reports && r.AttemptStatus? && r.observed.NowRunning? ==>
                  result.Started? && r.allocation == alloc && alloc in a.starting && alloc in a.state.intents)
  {
    if alloc in a.starting && alloc in a.state.intents && alloc !in a.state.exits {
      var a1 := a.(launchBounds := a.launchBounds - {alloc}, starting := a.starting - {alloc});
      var i := a.state.intents[alloc];
      match result
      case Started => StartedFacts(a1, alloc, i, clock);
      case Failed(e) => StartFailedFacts(a1, alloc, i, Get(a.launchBounds, alloc), e);
    }
  }

  /** What a status of an allocation claims: only a journaled start, unended and unrefused, is called running. */
  lemma CurrentStatusFacts(a: Agent, alloc: AllocationId, attempt: AttemptId, job: JobId)
    ensures var r := CurrentStatus(a, alloc, attempt, job);
            && r.AttemptStatus? && TellsTruth(a, r)
            && (r.observed.NowRunning? <==> alloc !in a.state.exits && alloc !in a.state.tombstones)
  {
  }

  lemma LaunchFacts(a: Agent, sj: StartJob, latestStart: Option<Timestamp>, clock: Clock)
    requires sj.ids.Some?
    ensures var o := Launch(a, sj, latestStart, clock);
            && KeepsFence(a, o.agent) && Honest(o.agent, o.reports)
            && (forall r :: r in o.reports ==> !(r.AttemptStatus? && r.observed.NowRunning?))
  {
    var i := IntentFor(a, sj);
    if latestStart.Some? && clock.wall > latestStart.value {
      FinishStartFacts(Opened(a, i, latestStart, clock.wall), i.allocation,
                       Failed(LaunchBoundPassed(latestStart.value)), clock);
    }
  }

  /** A report about a started allocation, if it is called running at all. */
  predicate BackedRunning(a: Agent, r: Report) {
    r.AttemptStatus? && r.observed.NowRunning? ==>
      && r.allocation in a.state.intents && r.allocation !in a.state.exits
      && r.allocation !in a.state.tombstones && r.allocation !in a.starting
  }

  lemma RefuseFacts(a: Agent, ids: StartIds, reason: PreemptReason)
    requires ids.allocation !in a.state.exits
    ensures var o := Refuse(a, ids, reason);
            && KeepsFence(a, o.agent) && Honest(o.agent, o.reports)
            && (forall r :: r in o.reports ==> BackedRunning(a, r))
  {
  }

  lemma KnownStartFacts(a: Agent, sj: StartJob, clock: Clock)
    requires sj.ids.Some?
    requires sj.ids.value.allocation in a.state.tombstones || sj.ids.value.allocation in a.state.intents
    ensures var o := OnStartJob(a, sj, clock);
            && o.agent == a && o.fx == [] && Honest(a, o.reports)
            && (forall r :: r in o.reports ==> BackedRunning(a, r))
  {
    var ids := sj.ids.value;
    CurrentStatusFacts(a, ids.allocation, ids.attempt, ids.job);
  }

  lemma OnStartJobFacts(a: Agent, sj: StartJob, clock: Clock)
    requires Accounted(a.state)
    ensures var o := OnStartJob(a, sj, clock);
            && KeepsFence(a, o.agent) && Honest(o.agent, o.reports)
            && (forall r :: r in o.reports ==> BackedRunning(a, r))
  {
    if sj.ids.Some? {
      var ids := sj.ids.value;
      if ids.allocation in a.state.tombstones || ids.allocation in a.state.intents {
        KnownStartFacts(a, sj, clock);
      } else {
        NewStartFacts(a, sj, clock);
      }
    }
  }

  lemma NewStartFacts(a: Agent, sj: StartJob, clock: Clock)
    requires Accounted(a.state) && sj.ids.Some?
    requires sj.ids.value.allocation !in a.state.tombstones && sj.ids.value.allocation !in a.state.intents
    ensures var o := OnStartJob(a, sj, clock);
            && KeepsFence(a, o.agent) && Honest(o.agent, o.reports)
            && (forall r :: r in o.reports ==> BackedRunning(a, r))
  {
    var latestStart := if sj.latestStartUs.None? then None else FromMicros(sj.latestStartUs.value);
    var passed := latestStart.Some? && clock.wall > latestStart.value;
    var refusal := DoorRefusal(a, RuntimeBound(sj.abortGraceUs), RuntimeBound(sj.cleanupMarginUs), clock.wall);
    if !passed && refusal.Some? {
      RefuseFacts(a, sj.ids.value, refusal.value);
    } else {
      LaunchFacts(a, sj, latestStart, clock);
    }
  }

  // ---- the command stream ----

  lemma OnStopJobFacts(a: Agent, target: Option<AllocationId>, graceUs: i64)
    ensures var o := OnStopJob(a, target, graceUs);
            && KeepsFence(a, o.agent) && Honest(o.agent, o.reports)
            && (forall r :: r in o.reports ==> BackedRunning(a, r))
  {
  }

  lemma OnFreshFacts(a: Agent, body: Body, clock: Clock)
    requires Accounted(a.state)
    ensures var o := OnFresh(a, body, clock);
            && KeepsFence(a, o.agent) && Honest(o.agent, o.reports)
            && (forall r :: r in o.reports ==> BackedRunning(a, r))
  {
    match body
    case StartJobBody(sj) => OnStartJobFacts(a, sj, clock);
    case StopJobBody(target, grace) => OnStopJobFacts(a, target, grace);
    case PreemptJobBody(victim, why, notice) => OnPreemptFacts(a, victim, why, notice, clock.wall);
    case DrainBody(deadline, window) => OnDrainFacts(a, deadline, window, clock.wall);
    case _ =>
  }

  /**
   * A duplicate changes nothing at all, and calls an allocation running exactly when it is neither in
   * flight, ended nor refused: a start that was dropped as malformed qualifies, intent or not.
   */
  lemma OnDuplicateFacts(a: Agent, body: Body)
    ensures var o := OnDuplicate(a, body);
            && o.agent == a && o.fx == [] && Honest(a, o.reports)
            && ((exists r :: r in o.reports && r.AttemptStatus? && r.observed.NowRunning?) <==>
                  && body.StartJobBody? && body.start.ids.Some?
                  && var alloc := body.start.ids.value.allocation;
                     alloc !in a.starting && alloc !in a.state.exits && alloc !in a.state.tombstones)
  {
    if body.StartJobBody? && body.start.ids.Some? {
      var ids := body.start.ids.value;
      var r := CurrentStatus(a, ids.allocation, ids.attempt, ids.job);
      CurrentStatusFacts(a, ids.allocation, ids.attempt, ids.job);
      if ids.allocation !in a.starting { assert r in OnDuplicate(a, body).reports; }
    }
  }

  /** The sequence number remembered after a command of `token` with number `n`. */
  function SeqAfter(a: Agent, token: Watermark, n: u64): u64 {
    if token == a.state.watermark && a.lastSeq.Some? && n <= a.lastSeq.value then a.lastSeq.value else n
  }

  lemma AdmitHeld(a: Agent, h: Header)
    requires TokenOf(h) == a.state.watermark
    ensures Admit(a, h) == AdmitSeq(a, h.commandSeq, [])
  {
    hide AdmitSeq;
  }

  lemma AdmitHigher(a: Agent, h: Header)
    requires !Stale(a.state.watermark, TokenOf(h)) && TokenOf(h) != a.state.watermark
    ensures Admit(a, h) == AdmitSeq(Raised(a, TokenOf(h)), h.commandSeq, [Append(Fencing(TokenOf(h)))])
  {
    hide AdmitSeq, Raised;
    assert RaisedTo(a.state.watermark, TokenOf(h)) == TokenOf(h);
  }

  /** Admission leaves exactly the accepted token as watermark and epoch, durable if it was raised. */
  lemma AdmitFacts(a: Agent, h: Header)
    requires a.epoch == a.state.watermark.nodeEpoch && !Stale(a.state.watermark, TokenOf(h))
    ensures var r := Admit(a, h);
            && r.agent.state.watermark == TokenOf(h) && r.agent.epoch == TokenOf(h).nodeEpoch
            && r.agent.lastSeq == Some(SeqAfter(a, TokenOf(h), h.commandSeq))
            && r.agent.registered == a.registered
            && (r.admission.Duplicate? <==>
                  TokenOf(h) == a.state.watermark && a.lastSeq.Some? && h.commandSeq <= a.lastSeq.value)
            && (r.admission.Fresh? <==> !r.admission.Duplicate?)
            && r.fx == (if TokenOf(h) == a.state.watermark then [] else [Append(Fencing(TokenOf(h)))])
  {
    hide Admit;
    if TokenOf(h) == a.state.watermark { AdmitHeld(a, h); } else { AdmitHigher(a, h); }
  }

  lemma OnAdmittedFacts(a: Agent, admission: Admission, rt: Runtime, body: Body, clock: Clock)
    requires Accounted(a.state)
    ensures var o := OnAdmitted(a, admission, rt, body, clock);
            && KeepsFence(a, o.agent.(registered := a.registered)) && Honest(o.agent, o.reports)
            && o.agent.registered == (a.registered || body.RegisterAccepted?)
  {
    if body.RegisterAccepted? {
    } else if admission.Duplicate? {
      OnDuplicateFacts(a, body);
    } else {
      OnFreshFacts(a, body, clock);
    }
  }

  /** The whole effect of a command on fencing: none unless accepted, and then exactly its token's. */
  lemma HandleCommandFacts(a: Agent, rt: Runtime, cmd: Command, clock: Clock)
    requires AgentOk(a)
    ensures var o := HandleCommand(a, rt, cmd, clock);
            && Honest(o.agent, o.reports)
            && (!Accepts(a, cmd) ==> o == Unchanged(a))
            && (Accepts(a, cmd) ==>
                  var h := cmd.header.value;
                  && o.agent.state.watermark == TokenOf(h) && o.agent.epoch == TokenOf(h).nodeEpoch
                  && o.agent.lastSeq == Some(SeqAfter(a, TokenOf(h), h.commandSeq))
                  && o.agent.registered)
  {
    if Accepts(a, cmd) {
      var r := Admit(a, cmd.header.value);
      AdmitFacts(a, cmd.header.value);
      AdmitSound(a, cmd.header.value, rt, {});
      OnAdmittedFacts(r.agent, r.admission, rt, cmd.body.value, clock);
    }
  }
}
