/**
 * The session's decisions as functions: each handler maps the agent's memory (and what it reads of
 * the runtime) to the memory after it, the effects it performs in order, and the reports it returns.
 */
module SessionSpec {
  import opened Types
  import opened JournalState
  import opened Executor
  import opened Observed

  // ---- what the coordinator sends ----

  datatype Header = Header(token: Option<Watermark>, commandSeq: u64)

  datatype StartIds = StartIds(allocation: AllocationId, attempt: AttemptId, job: JobId)

  /** A StartJob after its ids, environment and resumption identity have been parsed. */
  datatype StartJob = StartJob(
    ids: Option<StartIds>, envOk: bool, identityOk: bool, latestStartUs: Option<i64>,
    maxRuntimeUs: Option<u64>, noticeSignal: NoticeSignal,
    noticeUs: u64, abortGraceUs: u64, cleanupMarginUs: u64)

  datatype Body =
    | RegisterAccepted
    | StartJobBody(start: StartJob)
    | StopJobBody(target: Option<AllocationId>, graceUs: i64)
    | PreemptJobBody(victim: Option<AllocationId>, why: Option<PreemptReason>, noticeUs: u64)
    | DrainBody(deadlineUs: Option<i64>, noticeWindowUs: u64)
    | PrepareCacheBody
    | EvictImageBody

  datatype Command = Command(header: Option<Header>, body: Option<Body>)

  // ---- what the agent sends ----

  datatype ReportedState = NowRunning | Terminal(outcome: Outcome)

  datatype Report =
    | AttemptStatus(epoch: u64, allocation: AllocationId, attempt: AttemptId, job: JobId,
                    observed: ReportedState, runtime: Duration)
    | AttemptNotice(epoch: u64, allocation: AllocationId, attempt: AttemptId, job: JobId,
                    reason: PreemptReason, remaining: Duration, shortfall: Duration)
    | ObservedSetReport(epoch: u64, entries: seq<ObservedAllocation>)
    | HeartbeatReport(epoch: u64, running: seq<AllocationId>, draining: bool,
                      interruption: Option<Timestamp>, drainTarget: Option<Timestamp>)

  // ---- the agent's memory ----

  /** A pending launch: the bound to enforce, the one its StartJob carried, and the reason last used to lower it. */
  datatype StartBound = StartBound(current: Option<Timestamp>, latestStart: Option<Timestamp>,
                                   planReason: Option<PreemptReason>)

  datatype StartSpec = StartSpec(allocation: AllocationId, attempt: AttemptId, job: JobId, maxRuntime: Option<Duration>)

  datatype StopRequest = StopRequest(allocation: AllocationId, grace: Duration)

  datatype ArmedWatchdog = ArmedWatchdog(allocation: AllocationId, firesAfter: Duration, measuredAt: int)

  datatype Agent = Agent(
    state: State,
    epoch: u64,
    lastSeq: Option<u64>,
    registered: bool,
    draining: bool,
    starting: set<AllocationId>,
    launchBounds: map<AllocationId, StartBound>,
    stopping: set<AllocationId>,
    deferredExits: map<AllocationId, ExitInfo>,
    stopAbandoned: set<AllocationId>,
    stopRetryAt: map<AllocationId, Timestamp>,
    pendingStarts: seq<StartSpec>,
    pendingStops: seq<StopRequest>,
    pendingReaps: seq<AllocationId>,
    armedWatchdogs: seq<ArmedWatchdog>)

  /** A process just started over the journal `s`: every volatile table empty. */
  function NewAgent(s: State): Agent {
    Agent(s, s.watermark.nodeEpoch, None, false, false, {}, map[], {}, map[], {}, map[], [], [], [], [])
  }

  /** A wall-clock reading and a monotonic one, taken at the edge. */
  datatype Clock = Clock(wall: Timestamp, mono: int)

  datatype Effect =
    | Append(record: Record)
    | Signal(allocation: AllocationId, signal: NoticeSignal)
    | Stop(allocation: AllocationId)
    | Remove(allocation: AllocationId)
    | Observe

  datatype Out = Out(agent: Agent, fx: seq<Effect>, reports: seq<Report>)

  function Unchanged(a: Agent): Out { Out(a, [], []) }

  function Before(fx: seq<Effect>, o: Out): Out { o.(fx := fx + o.fx) }

  // ---- memory updates, each made once its record is durable ----

  function WithIntent(a: Agent, i: Intent): Agent {
    a.(state := a.state.(intents := a.state.intents[i.allocation := i]))
  }

  function WithTombstone(a: Agent, alloc: AllocationId, t: TombstoneReason): Agent {
    a.(state := a.state.(tombstones := a.state.tombstones[alloc := t]))
  }

  function WithExit(a: Agent, e: Exit): Agent {
    a.(state := a.state.(exits := a.state.exits[e.allocation := e]))
  }

  function WithNotice(a: Agent, alloc: AllocationId, reason: PreemptReason): Agent {
    a.(state := a.state.(noticeIntents := a.state.noticeIntents[alloc := reason]))
  }

  function WithMark(a: Agent, alloc: AllocationId, m: Mark): Agent {
    a.(state := a.state.(marks := a.state.marks[alloc := m]))
  }

  // ---- reports ----

  function Running(a: Agent, alloc: AllocationId, attempt: AttemptId, job: JobId): Report {
    AttemptStatus(a.epoch, alloc, attempt, job, NowRunning, 0)
  }

  function Ending(a: Agent, alloc: AllocationId, attempt: AttemptId, job: JobId, outcome: Outcome,
                  runtime: Duration): Report {
    AttemptStatus(a.epoch, alloc, attempt, job, Terminal(outcome), runtime)
  }

  /** The status of an allocation as known now: its exit, else its tombstone's answer, else believed running. */
  function CurrentStatus(a: Agent, alloc: AllocationId, attempt: AttemptId, job: JobId): Report {
    if alloc in a.state.exits then
      var e := a.state.exits[alloc];
      Ending(a, alloc, e.attempt, e.job, e.outcome, e.runtime)
    else if alloc in a.state.tombstones then
      Ending(a, alloc, attempt, job, TombstoneOutcome(a.state.tombstones[alloc]), 0)
    else Running(a, alloc, attempt, job)
  }

  // ---- fencing ----

  datatype Admission = Reject | Duplicate | Fresh

  function TokenOf(h: Header): Watermark { if h.token.Some? then h.token.value else Watermark(0, 0) }

  predicate Stale(w: Watermark, token: Watermark) {
    token.leaderTerm < w.leaderTerm || token.nodeEpoch < w.nodeEpoch
  }

  predicate Raises(w: Watermark, token: Watermark) {
    token.leaderTerm > w.leaderTerm || token.nodeEpoch > w.nodeEpoch
  }

  function RaisedTo(w: Watermark, token: Watermark): Watermark {
    Watermark(Max(token.leaderTerm, w.leaderTerm), Max(token.nodeEpoch, w.nodeEpoch))
  }

  datatype Admitted = Admitted(admission: Admission, agent: Agent, fx: seq<Effect>)

  /** The memory once a raised watermark is durable: a new epoch and a fresh sequence space. */
  function Raised(a: Agent, raised: Watermark): Agent {
    a.(state := a.state.(watermark := raised), epoch := raised.nodeEpoch, lastSeq := None)
  }

  function AdmitSeq(a: Agent, commandSeq: u64, fx: seq<Effect>): Admitted {
    if a.lastSeq.Some? && commandSeq <= a.lastSeq.value then Admitted(Duplicate, a, fx)
    else Admitted(Fresh, a.(lastSeq := Some(commandSeq)), fx)
  }

  /** Fencing: refuse a stale token, write down a higher one, then look at the sequence number. */
  function Admit(a: Agent, h: Header): Admitted {
    var token := TokenOf(h);
    var w := a.state.watermark;
    var raised := RaisedTo(w, token);
    if Stale(w, token) then Admitted(Reject, a, [])
    else if Raises(w, token) then AdmitSeq(Raised(a, raised), h.commandSeq, [Append(Fencing(raised))])
    else AdmitSeq(a, h.commandSeq, [])
  }

  // ---- the drain plan ----

  datatype PlanTerms = PlanTerms(noticeAt: Timestamp, stopAt: Timestamp, reason: PreemptReason)

  function StopTime(deadline: Timestamp, i: Intent): Timestamp {
    SatSub(SatSub(deadline, i.cleanupMargin), i.abortGrace)
  }

  /** Notice time, stop time and reason for one attempt. Beside an interruption, a drain can only stop it sooner. */
  function TermsFor(p: Plan, i: Intent, now: Timestamp): Option<PlanTerms> {
    if p.interruption.Some? then
      var interrupted := StopTime(p.interruption.value, i);
      if p.operator.None? then Some(PlanTerms(MIN_MICROS, interrupted, Interruption))
      else
        var drained := StopTime(p.operator.value.deadline, i);
        var noticeAt := SatSub(drained, p.operator.value.noticeWindow);
        Some(PlanTerms(MIN_MICROS, if now < noticeAt then interrupted else Min(interrupted, drained), Interruption))
    else if p.operator.Some? then
      var drained := StopTime(p.operator.value.deadline, i);
      Some(PlanTerms(SatSub(drained, p.operator.value.noticeWindow), drained, Drain))
    else None
  }

  /** The notice time alone, which does not depend on the clock. */
  function NoticeAt(p: Plan, i: Intent): Option<Timestamp> {
    if p.interruption.Some? then Some(MIN_MICROS)
    else if p.operator.Some? then Some(SatSub(StopTime(p.operator.value.deadline, i), p.operator.value.noticeWindow))
    else None
  }

  /** The drain's notice time for a start that has no intent yet, from the two spans it carries. */
  function OperatorNoticeAt(p: Plan, abortGrace: Duration, cleanupMargin: Duration): Option<Timestamp> {
    if p.operator.None? then None
    else Some(SatSub(SatSub(SatSub(p.operator.value.deadline, cleanupMargin), abortGrace),
                     p.operator.value.noticeWindow))
  }

  // ---- launch bounds ----

  /** Lower the bound to the plan's stop, noting its reason, or put the start's own back. */
  function Rebound(b: StartBound, terms: Option<PlanTerms>): StartBound {
    if terms.Some? && !(b.latestStart.Some? && terms.value.stopAt >= b.latestStart.value)
    then b.(current := Some(terms.value.stopAt), planReason := Some(terms.value.reason))
    else b.(current := b.latestStart)
  }

  function RefreshedBounds(a: Agent, now: Timestamp): map<AllocationId, StartBound> {
    map alloc | alloc in a.launchBounds ::
      if alloc in a.starting && alloc in a.state.intents
      then Rebound(a.launchBounds[alloc], TermsFor(a.state.plan, a.state.intents[alloc], now))
      else a.launchBounds[alloc]
  }

  /** The reason a refusal is blamed on, unless the bound named is the start's own. */
  function PlanRefusal(b: StartBound, e: StartError): Option<PreemptReason> {
    if e.LaunchBoundPassed? && b.latestStart != Some(e.latestStart)
    then Some(if b.planReason.Some? then b.planReason.value else Drain)
    else None
  }

  function WithPlan(a: Agent, p: Plan, now: Timestamp): Agent {
    var a1 := a.(state := a.state.(plan := p));
    a1.(launchBounds := RefreshedBounds(a1, now))
  }

  // ---- notices ----

  /** What is reported of an attempt with both a notice and a mark. */
  function NoticeReports(a: Agent, alloc: AllocationId, now: Timestamp): seq<Report> {
    if alloc in a.state.intents && alloc in a.state.noticeIntents && alloc in a.state.marks then
      var i := a.state.intents[alloc];
      var m := a.state.marks[alloc];
      [AttemptNotice(a.epoch, alloc, i.attempt, i.job, a.state.noticeIntents[alloc],
                     Max(m.stopAt - now, 0), if m.shortfall < 0 then 0 else m.shortfall)]
    else []
  }

  /** Deliver the signal, then journal the mark that bounds the attempt, then report it. */
  function SignalAndMark(a: Agent, alloc: AllocationId, stopAt: Timestamp, now: Timestamp): Out {
    if alloc !in a.state.intents then Unchanged(a)
    else
      var i := a.state.intents[alloc];
      var m := Mark(stopAt, Shortfall(i.notice, now, stopAt), now);
      var a1 := WithMark(a, alloc, m);
      Out(a1, [Signal(alloc, i.noticeSignal), Append(NoticeMark(alloc, m))], NoticeReports(a1, alloc, now))
  }

  /** First notice: record its reason, then signal and mark. */
  function Notify(a: Agent, alloc: AllocationId, reason: PreemptReason, stopAt: Timestamp, now: Timestamp): Out {
    Before([Append(NoticeIntent(alloc, reason))], SignalAndMark(WithNotice(a, alloc, reason), alloc, stopAt, now))
  }

  /** A marked attempt is re-marked only for an interruption that stops it sooner. */
  function Shorten(a: Agent, alloc: AllocationId, i: Intent, m: Mark, now: Timestamp): Out {
    if a.state.plan.interruption.None? then Unchanged(a)
    else
      var interrupted := StopTime(a.state.plan.interruption.value, i);
      if interrupted >= m.stopAt then Unchanged(a)
      else
        var m' := Mark(interrupted, Shortfall(i.notice, m.notifiedAt, interrupted), m.notifiedAt);
        var a1 := WithMark(a, alloc, m');
        Out(a1, [Append(NoticeMark(alloc, m'))], NoticeReports(a1, alloc, now))
  }

  /** One allocation against the plan: notify it, finish a notice begun, or shorten its window. */
  function NotifyUnderPlan(a: Agent, alloc: AllocationId, now: Timestamp): Out {
    if alloc !in a.state.intents || alloc in a.state.exits || alloc in a.starting then Unchanged(a)
    else
      var i := a.state.intents[alloc];
      var terms := TermsFor(a.state.plan, i, now);
      if terms.None? then Unchanged(a)
      else if alloc !in a.state.noticeIntents then
        if terms.value.noticeAt > now || alloc in a.state.tombstones then Unchanged(a)
        else Notify(a, alloc, terms.value.reason, terms.value.stopAt, now)
      else if alloc !in a.state.marks then
        var reason := a.state.noticeIntents[alloc];
        var stopAt := if reason.Drain? || reason.Interruption? then terms.value.stopAt
                      else Min(SatAdd(now, i.notice), terms.value.stopAt);
        SignalAndMark(a, alloc, stopAt, now)
      else Shorten(a, alloc, i, a.state.marks[alloc], now)
  }

  function NotifyAll(a: Agent, allocs: seq<AllocationId>, now: Timestamp): Out
    decreases |allocs|
  {
    if allocs == [] then Unchanged(a)
    else
      var o := NotifyUnderPlan(a, allocs[0], now);
      var rest := NotifyAll(o.agent, allocs[1..], now);
      Out(rest.agent, o.fx + rest.fx, o.reports + rest.reports)
  }

  /** Intents still without an exit. */
  function OutstandingSet(s: State): set<AllocationId> { s.intents.Keys - s.exits.Keys }

  function Outstanding(s: State): seq<AllocationId> { Ascending(OutstandingSet(s)) }

  /** Live, started, unnotified allocations the plan has a notice time for by `now`. */
  function DueNotices(a: Agent, now: Timestamp): set<AllocationId> {
    set alloc | alloc in a.state.intents
      && alloc !in a.state.exits && alloc !in a.starting
      && alloc !in a.state.tombstones && alloc !in a.state.noticeIntents
      && NoticeAt(a.state.plan, a.state.intents[alloc]).Some?
      && NoticeAt(a.state.plan, a.state.intents[alloc]).value <= now
  }

  function BeginDueNotices(a: Agent, now: Timestamp): Out { NotifyAll(a, Ascending(DueNotices(a, now)), now) }

  /** An interruption started or shortened; a later or stale deadline is ignored. */
  function OnInterruption(a: Agent, deadline: Timestamp, now: Timestamp): Out {
    var current := a.state.plan.interruption;
    if current.Some? && deadline >= current.value then Unchanged(a)
    else if current.None? && deadline <= now then Unchanged(a)
    else
      var p := a.state.plan.(interruption := Some(deadline));
      var a1 := WithPlan(a, p, now);
      Before([Append(DrainPlan(p))], NotifyAll(a1, Outstanding(a1.state), now))
  }

  function DrainTarget(s: State): Option<Timestamp> {
    if s.plan.operator.Some? then Some(s.plan.operator.value.deadline) else None
  }

  /** The Drain command: nothing to do if it repeats the target or names no valid time. */
  function OnDrain(a: Agent, deadlineUs: Option<i64>, noticeWindowUs: u64, now: Timestamp): Out {
    if deadlineUs.Some? && FromMicros(deadlineUs.value).None? then Unchanged(a)
    else
      var target := if deadlineUs.None? then None else FromMicros(deadlineUs.value);
      if DrainTarget(a.state) == target then Unchanged(a)
      else
        var p := a.state.plan.(operator :=
          if target.None? then None else Some(OperatorDrain(target.value, RuntimeBound(noticeWindowUs))));
        Before([Append(DrainPlan(p))], BeginDueNotices(WithPlan(a, p, now), now))
  }

  /**
   * The PreemptJob command: a first notice at the time asked or the plan's, whichever is sooner; later ones
   * only repeat it.
   */
  function OnPreempt(a: Agent, victim: Option<AllocationId>, why: Option<PreemptReason>, noticeUs: u64,
                     now: Timestamp): Out {
    if victim.None? || why.None? then Unchanged(a)
    else
      var alloc := victim.value;
      if alloc !in a.state.intents || alloc in a.state.exits || alloc in a.state.tombstones || alloc in a.starting
      then Unchanged(a)
      else
        var terms := TermsFor(a.state.plan, a.state.intents[alloc], now);
        var asked := SatAdd(now, RuntimeBound(noticeUs));
        var stopAt := if terms.Some? then Min(asked, terms.value.stopAt) else asked;
        if alloc !in a.state.noticeIntents then Notify(a, alloc, why.value, stopAt, now)
        else if alloc in a.state.marks then Out(a, [], NoticeReports(a, alloc, now))
        else SignalAndMark(a, alloc, stopAt, now)
  }

  /** Without a plan, only a notice that never got its mark is taken up again. */
  function ResumeOne(a: Agent, alloc: AllocationId, now: Timestamp): Out {
    if alloc in a.state.intents && alloc in a.state.noticeIntents && alloc !in a.state.marks
    then SignalAndMark(a, alloc, SatAdd(now, a.state.intents[alloc].notice), now)
    else Unchanged(a)
  }

  function ResumeAll(a: Agent, allocs: seq<AllocationId>, now: Timestamp): Out
    decreases |allocs|
  {
    if allocs == [] then Unchanged(a)
    else
      var o := ResumeOne(a, allocs[0], now);
      var rest := ResumeAll(o.agent, allocs[1..], now);
      Out(rest.agent, o.fx + rest.fx, o.reports + rest.reports)
  }

  /** Drop an interruption that is over, and re-bound what is starting. */
  function RetireInterruption(a: Agent, now: Timestamp): Out {
    if a.state.plan.interruption.Some? && a.state.plan.interruption.value <= now then
      var p := a.state.plan.(interruption := None);
      Out(WithPlan(a, p, now), [Append(DrainPlan(p))], [])
    else Unchanged(a)
  }

  /**
   * What a new process does first: bring everything outstanding under the plan as of now, then drop a stale
   * interruption.
   */
  function ResumeNotices(a: Agent, now: Timestamp): Out {
    var live := Outstanding(a.state);
    var o := if a.state.plan == NO_PLAN then ResumeAll(a, live, now) else NotifyAll(a, live, now);
    var retired := RetireInterruption(o.agent, now);
    Out(retired.agent, o.fx + retired.fx, o.reports)
  }

  // ---- starts ----

  function QueueStop(a: Agent, alloc: AllocationId, grace: Duration): Agent {
    a.(stopRetryAt := a.stopRetryAt - {alloc}, stopping := a.stopping + {alloc},
       pendingStops := a.pendingStops + [StopRequest(alloc, grace)])
  }

  /** The reason a new StartJob is turned away: an interruption before anything else, then either kind of drain. */
  function DoorRefusal(a: Agent, abortGrace: Duration, cleanupMargin: Duration, now: Timestamp): Option<PreemptReason> {
    var noticeAt := OperatorNoticeAt(a.state.plan, abortGrace, cleanupMargin);
    if a.state.plan.interruption.Some? then Some(Interruption)
    else if a.draining then Some(Drain)
    else if noticeAt.Some? && now >= noticeAt.value then Some(Drain)
    else None
  }

  function IntentFor(a: Agent, sj: StartJob): Intent
    requires sj.ids.Some?
  {
    Intent(sj.ids.value.allocation, sj.ids.value.attempt, sj.ids.value.job, a.epoch,
           if sj.maxRuntimeUs.None? then None else Some(RuntimeBound(sj.maxRuntimeUs.value)),
           sj.noticeSignal, RuntimeBound(sj.noticeUs), RuntimeBound(sj.abortGraceUs), RuntimeBound(sj.cleanupMarginUs))
  }

  /** The memory once an intent is durable: the start is in flight under its launch bound. */
  function Opened(a: Agent, i: Intent, latestStart: Option<Timestamp>, now: Timestamp): Agent {
    var a1 := WithIntent(a, i);
    var b := Rebound(StartBound(latestStart, latestStart, None), TermsFor(a1.state.plan, i, now));
    a1.(launchBounds := a1.launchBounds[i.allocation := b], starting := a1.starting + {i.allocation})
  }

  /** Journal the intent, then hand the start to the loop, or refuse it here if its bound has passed. */
  function Launch(a: Agent, sj: StartJob, latestStart: Option<Timestamp>, clock: Clock): Out
    requires sj.ids.Some?
  {
    var i := IntentFor(a, sj);
    var a1 := Opened(a, i, latestStart, clock.wall);
    var fx := [Append(StartIntent(i))];
    if latestStart.Some? && clock.wall > latestStart.value
    then Before(fx, FinishStart(a1, i.allocation, Failed(LaunchBoundPassed(latestStart.value)), clock))
    else Out(a1.(pendingStarts := a1.pendingStarts + [StartSpec(i.allocation, i.attempt, i.job, i.maxRuntime)]), fx, [])
  }

  function Refuse(a: Agent, ids: StartIds, reason: PreemptReason): Out {
    Out(WithTombstone(a, ids.allocation, Preempt(reason)), [Append(Tombstone(ids.allocation, Preempt(reason)))],
        [Ending(a, ids.allocation, ids.attempt, ids.job, Preempted(reason), 0)])
  }

  function OnStartJob(a: Agent, sj: StartJob, clock: Clock): Out {
    if sj.ids.None? then Unchanged(a)
    else
      var ids := sj.ids.value;
      var alloc := ids.allocation;
      if alloc in a.state.tombstones then
        if alloc in a.state.exits then
          var e := a.state.exits[alloc];
          Out(a, [], [Ending(a, alloc, e.attempt, e.job, e.outcome, e.runtime)])
        else Out(a, [], [Ending(a, alloc, ids.attempt, ids.job, TombstoneOutcome(a.state.tombstones[alloc]), 0)])
      else if alloc in a.state.intents then
        if alloc in a.starting then Unchanged(a)
        else Out(a, [], [CurrentStatus(a, alloc, ids.attempt, ids.job)])
      else if !sj.envOk || !sj.identityOk then Unchanged(a)
      else if sj.latestStartUs.Some? && FromMicros(sj.latestStartUs.value).None? then Unchanged(a)
      else
        var latestStart := if sj.latestStartUs.None? then None else FromMicros(sj.latestStartUs.value);
        var passed := latestStart.Some? && clock.wall > latestStart.value;
        var refusal := DoorRefusal(a, RuntimeBound(sj.abortGraceUs), RuntimeBound(sj.cleanupMarginUs), clock.wall);
        if !passed && refusal.Some? then Refuse(a, ids, refusal.value)
        else Launch(a, sj, latestStart, clock)
  }

  /** A start failed: the plan's refusal is tombstoned first, then the exit is journaled and reported. */
  function StartFailedOut(a: Agent, alloc: AllocationId, i: Intent, bound: Option<StartBound>, e: StartError): Out {
    var refusal := if bound.Some? then PlanRefusal(bound.value, e) else None;
    var outcome := if refusal.Some? then Preempted(refusal.value) else StartErrorOutcome(e);
    var pre := if refusal.Some? then [Append(Tombstone(alloc, Preempt(refusal.value)))] else [];
    var a1 := if refusal.Some? then WithTombstone(a, alloc, Preempt(refusal.value)) else a;
    var exit := Exit(alloc, i.attempt, i.job, outcome, 0);
    Out(WithExit(a1, exit), pre + [Append(ObservedExit(exit))], [Ending(a, alloc, i.attempt, i.job, outcome, 0)])
  }

  function Armed(a: Agent, alloc: AllocationId, i: Intent, clock: Clock): Agent {
    if i.maxRuntime.None? then a
    else a.(armedWatchdogs := a.armedWatchdogs + [ArmedWatchdog(alloc, i.maxRuntime.value, clock.mono)])
  }

  /** A start succeeded: arm the watchdog and report Running, then stop or notify it as the journal says. */
  function StartedOut(a: Agent, alloc: AllocationId, i: Intent, clock: Clock): Out {
    var a1 := Armed(a, alloc, i, clock);
    var running := Running(a, alloc, i.attempt, i.job);
    if alloc in a1.state.tombstones then Out(QueueStop(a1, alloc, i.abortGrace), [], [running])
    else if a1.state.plan != NO_PLAN then
      var o := NotifyUnderPlan(a1, alloc, clock.wall);
      o.(reports := [running] + o.reports)
    else Out(a1, [], [running])
  }

  function FinishStart(a: Agent, alloc: AllocationId, result: StartResult, clock: Clock): Out {
    var bound := Get(a.launchBounds, alloc);
    var a1 := a.(launchBounds := a.launchBounds - {alloc}, starting := a.starting - {alloc});
    if alloc !in a.starting || alloc !in a.state.intents || alloc in a.state.exits then Unchanged(a1)
    else
      match result
      case Started => StartedOut(a1, alloc, a.state.intents[alloc], clock)
      case Failed(e) => StartFailedOut(a1, alloc, a.state.intents[alloc], bound, e)
  }

  // ---- stops and exits ----

  function OnStopJob(a: Agent, target: Option<AllocationId>, graceUs: i64): Out {
    if target.None? then Unchanged(a)
    else
      var alloc := target.value;
      var a1 := WithTombstone(a, alloc, Abort);
      var fx := [Append(Tombstone(alloc, Abort))];
      if alloc in a1.state.exits then
        var e := a1.state.exits[alloc];
        Out(a1, fx, [Ending(a1, alloc, e.attempt, e.job, e.outcome, e.runtime)])
      else if alloc in a1.state.intents && alloc !in a1.starting && alloc !in a1.stopping
      then Out(QueueStop(a1, alloc, Max(graceUs, 0)), fx, [])
      else Out(a1, fx, [])
  }

  /** An exit of a journaled intent: durable, then queued for reaping and reported. */
  function RecordExit(a: Agent, alloc: AllocationId, outcome: Outcome, runtime: Duration): Out
    requires alloc in a.state.intents
  {
    var i := a.state.intents[alloc];
    var exit := Exit(alloc, i.attempt, i.job, outcome, runtime);
    Out(WithExit(a, exit).(pendingReaps := a.pendingReaps + [alloc]),
        [Append(ObservedExit(exit))],
        [Ending(a, alloc, i.attempt, i.job, outcome, runtime)])
  }

  /** The max-runtime watchdog fired: stop inline, and classify what the stop found. */
  function OnMaxRuntime(a: Agent, rt: Runtime, alloc: AllocationId): Out {
    if alloc in a.state.exits || alloc in a.stopping || alloc in a.starting then Unchanged(a)
    else if alloc !in a.state.intents then Unchanged(a)
    else
      var classified := ClassifyStop(StopContainer(rt, alloc).1, RuntimeLimitExceeded, AttributionOf(a.state, alloc));
      if classified.None? then Out(a, [Stop(alloc)], [])
      else Before([Stop(alloc)], RecordExit(a, alloc, classified.value.0, classified.value.1))
  }

  /** The watcher saw an exit: held for a stop in flight, otherwise classified and journaled. */
  function OnObservedExit(a: Agent, alloc: AllocationId, exit: ExitInfo): Out {
    if alloc in a.state.exits || alloc !in a.state.intents then Unchanged(a)
    else if alloc in a.stopping then Unchanged(a.(deferredExits := a.deferredExits[alloc := exit]))
    else RecordExit(a.(stopRetryAt := a.stopRetryAt - {alloc}), alloc,
                    ClassifyExit(exit, AttributionOf(a.state, alloc)), exit.runtime)
  }

  datatype StopResult = Answered(outcome: StopOutcome) | StopFailed

  const STOP_RETRY: Duration := 5_000_000

  /** What a finished stop says the attempt ended as: the stop's own answer, else an exit held for it. */
  function StopVerdict(a: Agent, alloc: AllocationId, result: StopResult): Option<(Outcome, Duration)> {
    var attribution := AttributionOf(a.state, alloc);
    if result.Answered? && !result.outcome.Unknown? then
      var kill := if alloc in a.state.tombstones then TombstoneOutcome(a.state.tombstones[alloc]) else Aborted;
      ClassifyStop(result.outcome, kill, attribution)
    else if alloc in a.deferredExits then
      var exit := a.deferredExits[alloc];
      Some((ClassifyExit(exit, attribution), exit.runtime))
    else None
  }

  /** Record the verdict; with none, a failed stop is retried later and one that found nothing is abandoned. */
  function ConcludeStop(a: Agent, alloc: AllocationId, verdict: Option<(Outcome, Duration)>, failed: bool,
                        now: Timestamp): Out
    requires alloc in a.state.intents
  {
    if verdict.Some? then RecordExit(a, alloc, verdict.value.0, verdict.value.1)
    else if failed then Unchanged(a.(stopRetryAt := a.stopRetryAt[alloc := SatAdd(now, STOP_RETRY)]))
    else Unchanged(a.(stopAbandoned := a.stopAbandoned + {alloc}))
  }

  function FinishStop(a: Agent, alloc: AllocationId, result: StopResult, now: Timestamp): Out {
    var a1 := a.(stopping := a.stopping - {alloc}, deferredExits := a.deferredExits - {alloc});
    if alloc in a.state.exits || alloc !in a.state.intents then Unchanged(a1)
    else ConcludeStop(a1, alloc, StopVerdict(a, alloc, result), result.StopFailed?, now)
  }

  /** When a live allocation's stop is due: at once if tombstoned, else at its mark, after any retry backoff. */
  function StopDue(a: Agent, alloc: AllocationId): Option<Timestamp> {
    var due := if alloc in a.state.tombstones then Some(MIN_MICROS)
               else if alloc in a.state.marks then Some(a.state.marks[alloc].stopAt) else None;
    if due.Some? && alloc in a.stopRetryAt then Some(Max(due.value, a.stopRetryAt[alloc])) else due
  }

  function DueStops(a: Agent, now: Timestamp): set<AllocationId> {
    set alloc | alloc in a.state.intents
      && alloc !in a.state.exits && alloc !in a.stopping && alloc !in a.starting && alloc !in a.stopAbandoned
      && StopDue(a, alloc).Some? && StopDue(a, alloc).value <= now
  }

  /** The reason a due stop is tombstoned under: its notice's, else the plan's. */
  function StopReason(s: State, alloc: AllocationId): PreemptReason {
    if alloc in s.noticeIntents then s.noticeIntents[alloc]
    else if s.plan.operator.Some? && s.plan.interruption.None? then Drain else Interruption
  }

  function BeginStop(a: Agent, alloc: AllocationId): Out {
    if alloc !in a.state.intents then Unchanged(a)
    else
      var grace := a.state.intents[alloc].abortGrace;
      if alloc in a.state.tombstones then Unchanged(QueueStop(a, alloc, grace))
      else
        var t := Preempt(StopReason(a.state, alloc));
        Out(QueueStop(WithTombstone(a, alloc, t), alloc, grace), [Append(Tombstone(alloc, t))], [])
  }

  function BeginStops(a: Agent, allocs: seq<AllocationId>): Out
    decreases |allocs|
  {
    if allocs == [] then Unchanged(a)
    else
      var o := BeginStop(a, allocs[0]);
      Before(o.fx, BeginStops(o.agent, allocs[1..]))
  }

  function BeginDueStops(a: Agent, now: Timestamp): Out { BeginStops(a, Ascending(DueStops(a, now))) }

  /** Due notices, then whatever is due to stop by then, the newly notified included. */
  function OnTimers(a: Agent, now: Timestamp): Out {
    var notices := BeginDueNotices(a, now);
    Before(notices.fx, BeginDueStops(notices.agent, now)).(reports := notices.reports)
  }

  // ---- registration, heartbeat, janitor ----

  /** What an observation returns, a failure reading as nothing. */
  function Seen(rt: Runtime): seq<Container> { if rt.failObserve then [] else Executor.Observed(rt) }

  /** An entry whose start or stop has not come back carries no outcome. */
  function Unresolve(a: Agent, o: ObservedAllocation): ObservedAllocation {
    if (o.allocation in a.starting || o.allocation in a.stopping) && !o.running && o.allocation !in a.state.exits
    then o.(outcome := None) else o
  }

  function UnresolveAll(a: Agent, os: seq<ObservedAllocation>): (out: seq<ObservedAllocation>)
    ensures |out| == |os| && forall i :: 0 <= i < |os| ==> out[i] == Unresolve(a, os[i])
    decreases |os|
  {
    if os == [] then [] else [Unresolve(a, os[0])] + UnresolveAll(a, os[1..])
  }

  predicate Spent(s: State, c: Container) { c.state.HasExited? && c.allocation in s.exits }

  /** Exited containers whose exit is journaled: spent evidence. */
  function SpentIds(s: State, cs: seq<Container>): (r: seq<AllocationId>)
    ensures forall a :: a in r ==> a in s.exits
    decreases |cs|
  {
    if cs == [] then []
    else (if Spent(s, cs[0]) then [cs[0].allocation] else []) + SpentIds(s, cs[1..])
  }

  predicate Bounded(s: State, c: Container) {
    && c.state.IsRunning? && c.allocation !in s.exits
    && c.allocation in s.intents && s.intents[c.allocation].maxRuntime.Some?
  }

  /** The remaining budget of a container seen running under a bounded intent. */
  function Rearm(s: State, c: Container, at: int): ArmedWatchdog
    requires Bounded(s, c)
  {
    ArmedWatchdog(c.allocation, Max(ClampI64(s.intents[c.allocation].maxRuntime.value - c.state.runtime), 0), at)
  }

  function Rearmed(s: State, cs: seq<Container>, at: int): seq<ArmedWatchdog>
    decreases |cs|
  {
    if cs == [] then []
    else (if Bounded(s, cs[0]) then [Rearm(s, cs[0], at)] else []) + Rearmed(s, cs[1..], at)
  }

  /** The registration: hear commands from now on, reap the spent, re-arm the bounded, report everything known. */
  function OnRegisterAccepted(a: Agent, rt: Runtime, clock: Clock): Out {
    var cs := Seen(rt);
    Out(a.(registered := true,
           pendingReaps := a.pendingReaps + SpentIds(a.state, cs),
           armedWatchdogs := a.armedWatchdogs + Rearmed(a.state, cs, clock.mono)),
        [Observe],
        [ObservedSetReport(a.epoch, UnresolveAll(a, ObservedSet(a.state, cs)))])
  }

  /** A container the agent still answers for. */
  predicate Claims(s: State, c: Container) {
    c.state.IsRunning? || (c.allocation in s.intents && c.allocation !in s.exits)
  }

  function Claimed(s: State, cs: seq<Container>): seq<AllocationId>
    decreases |cs|
  {
    if cs == [] then [] else (if Claims(s, cs[0]) then [cs[0].allocation] else []) + Claimed(s, cs[1..])
  }

  function Heartbeat(a: Agent, rt: Runtime): Report {
    HeartbeatReport(a.epoch, Claimed(a.state, Seen(rt)),
                    a.draining || a.state.plan.interruption.Some?, a.state.plan.interruption, DrainTarget(a.state))
  }

  predicate Sweepable(s: State, c: Container, now: Timestamp, bound: Duration) {
    Spent(s, c) && now - c.state.exit.finishedAt > bound
  }

  function SweepFx(s: State, cs: seq<Container>, now: Timestamp, bound: Duration): seq<Effect>
    decreases |cs|
  {
    if cs == [] then []
    else (if Sweepable(s, cs[0], now, bound) then [Remove(cs[0].allocation)] else []) + SweepFx(s, cs[1..], now, bound)
  }

  /** Observe, then remove each spent container past its age. */
  function JanitorSweep(a: Agent, rt: Runtime, now: Timestamp, bound: Duration): Out {
    Out(a, [Observe] + SweepFx(a.state, Seen(rt), now, bound), [])
  }

  // ---- dispatch ----

  function OnDuplicate(a: Agent, body: Body): Out {
    if body.StartJobBody? && body.start.ids.Some? && body.start.ids.value.allocation !in a.starting
    then
      var ids := body.start.ids.value;
      Out(a, [], [CurrentStatus(a, ids.allocation, ids.attempt, ids.job)])
    else Unchanged(a)
  }

  function OnFresh(a: Agent, body: Body, clock: Clock): Out {
    match body
    case StartJobBody(sj) => OnStartJob(a, sj, clock)
    case StopJobBody(target, grace) => OnStopJob(a, target, grace)
    case PreemptJobBody(victim, why, notice) => OnPreempt(a, victim, why, notice, clock.wall)
    case DrainBody(deadline, window) => OnDrain(a, deadline, window, clock.wall)
    case PrepareCacheBody => Unchanged(a)
    case EvictImageBody => Unchanged(a)
    case RegisterAccepted => Unchanged(a)
  }

  /** A command past fencing: registration always answers, a duplicate is only acknowledged. */
  function OnAdmitted(a: Agent, admission: Admission, rt: Runtime, body: Body, clock: Clock): Out {
    if body.RegisterAccepted? then OnRegisterAccepted(a, rt, clock)
    else if admission.Duplicate? then OnDuplicate(a, body)
    else OnFresh(a, body, clock)
  }

  /** Only RegisterAccepted is heard before registration is complete. */
  predicate Heard(a: Agent, cmd: Command) {
    cmd.header.Some? && cmd.body.Some? && (cmd.body.value.RegisterAccepted? || a.registered)
  }

  predicate Accepts(a: Agent, cmd: Command) {
    Heard(a, cmd) && !Stale(a.state.watermark, TokenOf(cmd.header.value))
  }

  function HandleCommand(a: Agent, rt: Runtime, cmd: Command, clock: Clock): Out {
    if !Accepts(a, cmd) then Unchanged(a)
    else
      var r := Admit(a, cmd.header.value);
      Before(r.fx, OnAdmitted(r.agent, r.admission, rt, cmd.body.value, clock))
  }

  /** A new stream must register again, and starts a new sequence space. */
  function ResetSession(a: Agent): Agent { a.(registered := false, lastSeq := None) }
}
