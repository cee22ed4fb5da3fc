/** The container runtime as the agent sees it: exit evidence, its classification, and the runtime's steps. */
module Executor {
  import opened Types
  import opened JournalState

  datatype ExitCause = Natural | OomKilled | DiskKilled | Killed

  datatype ExitInfo = ExitInfo(code: i32, cause: ExitCause, runtime: Duration, finishedAt: Timestamp)

  datatype ContainerState = IsRunning(runtime: Duration) | HasExited(exit: ExitInfo)

  datatype Container = Container(allocation: AllocationId, attempt: AttemptId, job: JobId, state: ContainerState)

  datatype ExitEvent = ExitEvent(allocation: AllocationId, exit: ExitInfo)

  datatype StopOutcome = Stopped(exit: ExitInfo) | AlreadyExited(exit: ExitInfo) | Unknown

  datatype StartError =
    | PullError(userError: bool)
    | StartFailure(userError: bool)
    | LaunchBoundPassed(latestStart: Timestamp)

  datatype StartResult = Started | Failed(error: StartError)

  function StartErrorOutcome(e: StartError): Outcome {
    match e
    case PullError(u) => PullFailed(u)
    case StartFailure(u) => StartFailed(u)
    case LaunchBoundPassed(_) => Revoked
  }

  // ---- classification ----

  datatype Attribution = Attribution(kill: Option<Outcome>, notice: Option<PreemptReason>)

  function AttributionOf(s: State, a: AllocationId): Attribution {
    Attribution(if a in s.tombstones then Some(TombstoneOutcome(s.tombstones[a])) else None, Get(s.noticeIntents, a))
  }

  function ClassifyExit(exit: ExitInfo, evidence: Attribution): Outcome {
    match exit.cause
    case OomKilled => MemoryLimitExceeded
    case DiskKilled => DiskLimitExceeded
    case Killed =>
      if evidence.kill.Some? then evidence.kill.value
      else if evidence.notice.Some? then Preempted(evidence.notice.value)
      else Exited(exit.code)
    case Natural =>
      if exit.code != 0 && evidence.notice.Some? then Preempted(evidence.notice.value) else Exited(exit.code)
  }

  const NO_ATTRIBUTION := Attribution(None, None)

  /** How a stop's answer is classified: `killOutcome` for a container it ended itself, unless a limit killed it. */
  function ClassifyStop(stopped: StopOutcome, killOutcome: Outcome, evidence: Attribution): Option<(Outcome, Duration)>
  {
    match stopped
    case Stopped(exit) =>
      var outcome := match exit.cause
        case Natural => killOutcome
        case Killed => killOutcome
        case OomKilled => ClassifyExit(exit, NO_ATTRIBUTION)
        case DiskKilled => ClassifyExit(exit, NO_ATTRIBUTION);
      Some((outcome, exit.runtime))
    case AlreadyExited(exit) => Some((ClassifyExit(exit, evidence), exit.runtime))
    case Unknown => None
  }

  // ---- the fake runtime: everything that outlives the agent, plus this instance's exit queue ----

  datatype Runtime = Runtime(
    running: map<AllocationId, Container>,
    exited: map<AllocationId, Container>,
    failStarts: map<AllocationId, StartError>,
    startCounts: map<AllocationId, nat>,
    startedAt: map<AllocationId, Timestamp>,
    now: Timestamp,
    stopCauses: map<AllocationId, ExitCause>,
    exitOnSignal: map<AllocationId, (NoticeSignal, i32)>,
    failObserve: bool,
    signals: seq<(AllocationId, NoticeSignal)>,
    queue: seq<ExitEvent>)

  function StartCount(rt: Runtime, a: AllocationId): nat {
    if a in rt.startCounts then rt.startCounts[a] else 0
  }

  /** Every container is filed under its own id, once. */
  ghost predicate RuntimeOk(rt: Runtime) {
    && (forall a :: a in rt.running ==> rt.running[a].allocation == a && rt.running[a].state.IsRunning?)
    && (forall a :: a in rt.exited ==> rt.exited[a].allocation == a && rt.exited[a].state.HasExited?)
    && (forall a :: a in rt.exited ==> a !in rt.running)
  }

  predicate BoundPassed(bound: Option<Timestamp>, now: Timestamp) {
    bound.Some? && now > bound.value
  }

  /** The container appears, or an error does: a programmed failure first, then the launch bound as it stands. */
  function StartContainer(rt: Runtime, a: AllocationId, attempt: AttemptId, job: JobId,
                          bound: Option<Timestamp>): (Runtime, StartResult) {
    if a in rt.failStarts then (rt.(failStarts := rt.failStarts - {a}), Failed(rt.failStarts[a]))
    else if BoundPassed(bound, rt.now) then (rt, Failed(LaunchBoundPassed(bound.value)))
    else (rt.(startCounts := rt.startCounts[a := StartCount(rt, a) + 1],
              startedAt := rt.startedAt[a := rt.now],
              running := rt.running[a := Container(a, attempt, job, IsRunning(0))]),
          Started)
  }

  /** A running container ends with `exit`, and stays visible as evidence. */
  function Ended(rt: Runtime, a: AllocationId, exit: ExitInfo): Runtime
    requires a in rt.running
  {
    rt.(running := rt.running - {a}, exited := rt.exited[a := rt.running[a].(state := HasExited(exit))])
  }

  /** A natural exit: as `Ended`, with a notification queued for the watcher. */
  function Finish(rt: Runtime, a: AllocationId, exit: ExitInfo): Runtime {
    if a in rt.running then Ended(rt, a, exit).(queue := rt.queue + [ExitEvent(a, exit)]) else rt
  }

  const SIGKILL_CODE: i32 := 137

  function StopExit(rt: Runtime, a: AllocationId): ExitInfo {
    ExitInfo(SIGKILL_CODE, if a in rt.stopCauses then rt.stopCauses[a] else Natural, 0, rt.now)
  }

  function StopContainer(rt: Runtime, a: AllocationId): (Runtime, StopOutcome) {
    if a in rt.exited && rt.exited[a].state.HasExited? then (rt, AlreadyExited(rt.exited[a].state.exit))
    else if a in rt.running then
      (Ended(rt, a, StopExit(rt, a)).(stopCauses := rt.stopCauses - {a}), Stopped(StopExit(rt, a)))
    else (rt, Unknown)
  }

  function RanFor(rt: Runtime, a: AllocationId): Duration {
    if a in rt.startedAt then Max(rt.now - rt.startedAt[a], 0) else 0
  }

  function SignalContainer(rt: Runtime, a: AllocationId, signal: NoticeSignal): Runtime {
    if a !in rt.running then rt
    else
      var rt1 := rt.(signals := rt.signals + [(a, signal)]);
      if a in rt.exitOnSignal && rt.exitOnSignal[a].0 == signal
      then Finish(rt1, a, ExitInfo(rt.exitOnSignal[a].1, Natural, RanFor(rt, a), rt.now))
      else rt1
  }

  function Reap(rt: Runtime, a: AllocationId): Runtime { rt.(exited := rt.exited - {a}) }

  /** The runtime as the next process finds it: same containers, empty queue. */
  function Fork(rt: Runtime): Runtime { rt.(queue := []) }

  // ---- observation ----

  function RunningView(rt: Runtime, a: AllocationId): Container
    requires a in rt.running
  {
    var c := rt.running[a];
    if c.state.IsRunning? && c.allocation in rt.startedAt then c.(state := IsRunning(RanFor(rt, c.allocation))) else c
  }

  function RunningViews(rt: Runtime, ks: seq<AllocationId>): seq<Container>
    requires forall k :: k in ks ==> k in rt.running
    decreases |ks|
  {
    if ks == [] then [] else [RunningView(rt, ks[0])] + RunningViews(rt, ks[1..])
  }

  function ExitedViews(rt: Runtime, ks: seq<AllocationId>): seq<Container>
    requires forall k :: k in ks ==> k in rt.exited
    decreases |ks|
  {
    if ks == [] then [] else [rt.exited[ks[0]]] + ExitedViews(rt, ks[1..])
  }

  /** Every container the runtime knows: the running ones, then the exited ones, each in id order. */
  function Observed(rt: Runtime): seq<Container> {
    RunningViews(rt, Ascending(rt.running.Keys)) + ExitedViews(rt, Ascending(rt.exited.Keys))
  }

  lemma {:induction false} RunningViewsAre(rt: Runtime, ks: seq<AllocationId>)
    requires forall k :: k in ks ==> k in rt.running
    ensures |RunningViews(rt, ks)| == |ks|
    ensures forall i :: 0 <= i < |ks| ==> RunningViews(rt, ks)[i] == RunningView(rt, ks[i])
    decreases |ks|
  {
    if ks != [] { RunningViewsAre(rt, ks[1..]); }
  }

  lemma {:induction false} ExitedViewsAre(rt: Runtime, ks: seq<AllocationId>)
    requires forall k :: k in ks ==> k in rt.exited
    ensures |ExitedViews(rt, ks)| == |ks|
    ensures forall i :: 0 <= i < |ks| ==> ExitedViews(rt, ks)[i] == rt.exited[ks[i]]
    decreases |ks|
  {
    if ks != [] { ExitedViewsAre(rt, ks[1..]); }
  }

  /** An observation lists exactly the runtime's containers. */
  lemma ObservedMembers(rt: Runtime, c: Container)
    ensures c in Observed(rt) <==>
            || (exists a :: a in rt.running && c == RunningView(rt, a))
            || (exists a :: a in rt.exited && c == rt.exited[a])
  {
    var ks, es := Ascending(rt.running.Keys), Ascending(rt.exited.Keys);
    RunningViewsAre(rt, ks);
    ExitedViewsAre(rt, es);
    var vs, xs := RunningViews(rt, ks), ExitedViews(rt, es);
    if c in vs {
      var i :| 0 <= i < |vs| && vs[i] == c;
      assert ks[i] in ks;
    }
    if c in xs {
      var i :| 0 <= i < |xs| && xs[i] == c;
      assert es[i] in es;
    }
    forall a | a in rt.running && c == RunningView(rt, a) ensures c in vs {
      assert a in ks;
      var i :| 0 <= i < |ks| && ks[i] == a;
      assert vs[i] == c;
    }
    forall a | a in rt.exited && c == rt.exited[a] ensures c in xs {
      assert a in es;
      var i :| 0 <= i < |es| && es[i] == a;
      assert xs[i] == c;
    }
  }
}
