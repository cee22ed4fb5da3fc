/**
 * The node as one system: journal bytes on disk, the agent's memory, the container runtime, and the
 * tasks in flight between them. Every step the live loop, the runtime and a crash can take is here.
 */
module System {
  import opened Types
  import opened JournalState
  import opened Wire
  import opened Framing
  import opened Executor
  import opened SessionSpec
  import opened Effects
  import opened SessionProofs

  /** What the live loop hands to the session. */
  datatype Event =
    | CommandArrives(cmd: Command)
    | StartFinished(alloc: AllocationId, result: StartResult)
    | StopFinished(alloc: AllocationId, stopResult: StopResult)
    | ExitSeen(alloc: AllocationId, exit: ExitInfo)
    | WatchdogFires(alloc: AllocationId)
    | TimersDue
    | Interrupted(deadline: Timestamp)
    | Resumes
    | Reconnects
    | DrainingSet(on: bool)
    | JanitorTicks(bound: Duration)

  function Handle(a: Agent, rt: Runtime, ev: Event, clock: Clock): Out {
    match ev
    case CommandArrives(cmd) => HandleCommand(a, rt, cmd, clock)
    case StartFinished(alloc, result) => FinishStart(a, alloc, result, clock)
    case StopFinished(alloc, result) => FinishStop(a, alloc, result, clock.wall)
    case ExitSeen(alloc, exit) => OnObservedExit(a, alloc, exit)
    case WatchdogFires(alloc) => OnMaxRuntime(a, rt, alloc)
    case TimersDue => OnTimers(a, clock.wall)
    case Interrupted(deadline) => OnInterruption(a, deadline, clock.wall)
    case Resumes => ResumeNotices(a, clock.wall)
    case Reconnects => Unchanged(ResetSession(a))
    case DrainingSet(on) => Unchanged(a.(draining := on))
    case JanitorTicks(bound) => JanitorSweep(a, rt, clock.wall, bound)
  }

  datatype World = World(
    disk: seq<byte>,
    agent: Agent,
    rt: Runtime,
    /** Starts spawned and not yet run, with the spec each carries. */
    inflight: multiset<AllocationId>,
    specs: map<AllocationId, StartSpec>,
    startsDone: set<(AllocationId, StartResult)>,
    stops: set<AllocationId>,
    stopsDone: set<(AllocationId, StopResult)>,
    reaps: set<AllocationId>,
    /** History: every start ever queued, across restarts. */
    queued: multiset<AllocationId>)

  // ---- one handled event ----

  /** Whether the loop has this event to hand over. */
  predicate Ready(w: World, ev: Event) {
    match ev
    case StartFinished(alloc, result) => (alloc, result) in w.startsDone
    case StopFinished(alloc, result) => (alloc, result) in w.stopsDone
    case ExitSeen(alloc, exit) => w.rt.queue != [] && w.rt.queue[0] == ExitEvent(alloc, exit)
    case _ => true
  }

  /** The world with the event taken off its queue. */
  function Taken(w: World, ev: Event): World
    requires Ready(w, ev)
  {
    match ev
    case StartFinished(alloc, result) => w.(startsDone := w.startsDone - {(alloc, result)})
    case StopFinished(alloc, result) => w.(stopsDone := w.stopsDone - {(alloc, result)})
    case ExitSeen(_, _) => w.(rt := w.rt.(queue := w.rt.queue[1..]))
    case _ => w
  }

  function Allocations(specs: seq<StartSpec>): seq<AllocationId> {
    seq(|specs|, i requires 0 <= i < |specs| => specs[i].allocation)
  }

  function WithSpecs(m: map<AllocationId, StartSpec>, specs: seq<StartSpec>): map<AllocationId, StartSpec>
    decreases |specs|
  {
    if specs == [] then m else WithSpecs(m[specs[0].allocation := specs[0]], specs[1..])
  }

  function Drained(a: Agent): Agent {
    a.(pendingStarts := [], pendingStops := [], pendingReaps := [], armedWatchdogs := [])
  }

  ghost function DiskAfter(c: Codec, disk: seq<byte>, fx: seq<Effect>): seq<byte>
    requires Lawful(c)
    decreases |fx|
  {
    if fx == [] then disk
    else DiskAfter(c, if fx[0].Append? then disk + Frame(c, fx[0].record) else disk, fx[1..])
  }

  /** The world once a handler has run to the end and the loop has spawned what it queued. */
  ghost function Performed(c: Codec, w: World, o: Out): World
    requires Lawful(c)
  {
    var starts := Allocations(o.agent.pendingStarts);
    w.(disk := DiskAfter(c, w.disk, o.fx),
       agent := Drained(o.agent),
       rt := RuntimeAfter(w.rt, o.fx),
       inflight := w.inflight + multiset(starts),
       specs := WithSpecs(w.specs, o.agent.pendingStarts),
       stops := w.stops + (set s | s in o.agent.pendingStops :: s.allocation),
       reaps := w.reaps + (set r | r in o.agent.pendingReaps),
       queued := w.queued + multiset(starts))
  }

  // ---- steps ----

  datatype Step =
    | Deliver(ev: Event, clock: Clock)
    | RunStart(alloc: AllocationId, gaveUp: bool)
    | RunStop(alloc: AllocationId, fails: bool)
    | RunReap(alloc: AllocationId)
    | ContainerExits(alloc: AllocationId, exit: ExitInfo)
    | RuntimeProgrammed(rt: Runtime)
    | Crash(ev: Event, clock: Clock, done: nat, cut: nat)

  function CurrentBound(a: Agent, alloc: AllocationId): Option<Timestamp> {
    if alloc in a.launchBounds then a.launchBounds[alloc].current else None
  }

  /** A spawned start reaching its launch point, or giving up its pull at a bound it has reached. */
  function StartRun(w: World, alloc: AllocationId, gaveUp: bool): (Runtime, StartResult)
    requires alloc in w.specs
    requires gaveUp ==> CurrentBound(w.agent, alloc).Some?
  {
    var bound := CurrentBound(w.agent, alloc);
    if gaveUp then (w.rt, Failed(LaunchBoundPassed(bound.value)))
    else StartContainer(w.rt, alloc, w.specs[alloc].attempt, w.specs[alloc].job, bound)
  }

  function StopRun(w: World, alloc: AllocationId, fails: bool): (Runtime, StopResult) {
    if fails then (w.rt, StopFailed)
    else (StopContainer(w.rt, alloc).0, Answered(StopContainer(w.rt, alloc).1))
  }

  predicate Enabled(w: World, s: Step) {
    match s
    case Deliver(ev, _) => Ready(w, ev)
    case RunStart(alloc, gaveUp) =>
      && alloc in w.inflight && alloc in w.specs
      && (gaveUp ==> CurrentBound(w.agent, alloc).Some? && w.rt.now >= CurrentBound(w.agent, alloc).value)
    case RunStop(alloc, _) => alloc in w.stops
    case RunReap(alloc) => alloc in w.reaps
    case ContainerExits(_, exit) => exit.runtime >= 0
    case RuntimeProgrammed(rt) =>
      rt == w.rt.(failStarts := rt.failStarts, now := rt.now, stopCauses := rt.stopCauses,
                  exitOnSignal := rt.exitOnSignal, failObserve := rt.failObserve)
    case Crash(ev, _, _, _) => Ready(w, ev)
  }

  /** The handler a crash interrupts. */
  function Interrupts(w: World, s: Step): Out
    requires Enabled(w, s) && (s.Deliver? || s.Crash?)
  {
    var w0 := Taken(w, s.ev);
    Handle(w0.agent, w0.rt, s.ev, s.clock)
  }

  /** The bytes a crash leaves: `done` effects applied, and the next record cut short. */
  ghost function CrashedDisk(c: Codec, disk: seq<byte>, fx: seq<Effect>, done: nat, cut: nat): seq<byte>
    requires Lawful(c) && done <= |fx|
  {
    var whole := DiskAfter(c, disk, fx[..done]);
    if done < |fx| && fx[done].Append? && cut < |Frame(c, fx[done].record)|
    then whole + Frame(c, fx[done].record)[..cut] else whole
  }

  /** Memory and tasks are gone; the journal is reopened over the bytes, the containers live on. */
  function Restarted(w: World, disk: seq<byte>, rt: Runtime, s: State): World {
    World(disk, NewAgent(s), Fork(rt), multiset{}, map[], {}, {}, {}, {}, w.queued)
  }

  /** A step of the loop, a task or the runtime; `Crashes` is the other kind. */
  ghost predicate Moves(c: Codec, w: World, s: Step, w': World)
    requires Lawful(c) && !s.Crash? && Enabled(w, s)
  {
    match s
    case Deliver(ev, _) => w' == Performed(c, Taken(w, ev), Interrupts(w, s))
    case RunStart(alloc, gaveUp) =>
      var (rt', result) := StartRun(w, alloc, gaveUp);
      w' == w.(rt := rt', inflight := w.inflight - multiset{alloc}, startsDone := w.startsDone + {(alloc, result)})
    case RunStop(alloc, fails) =>
      var (rt', result) := StopRun(w, alloc, fails);
      w' == w.(rt := rt', stops := w.stops - {alloc}, stopsDone := w.stopsDone + {(alloc, result)})
    case RunReap(alloc) => w' == w.(rt := Reap(w.rt, alloc), reaps := w.reaps - {alloc})
    case ContainerExits(alloc, exit) => w' == w.(rt := Finish(w.rt, alloc, exit))
    case RuntimeProgrammed(rt) => w' == w.(rt := rt)
  }

  /** A crash inside a handler, and the restart: the journal is recovered from the bytes and compacted. */
  ghost predicate Crashes(c: Codec, w: World, s: Step, w': World)
    requires Lawful(c) && s.Crash? && Enabled(w, s)
  {
    var o := Interrupts(w, s);
    && s.done <= |o.fx|
    && var recovered := Scan(c, CrashedDisk(c, w.disk, o.fx, s.done, s.cut), EMPTY);
       && recovered.Ok?
       && w' == Restarted(w, EncodeLog(c, Canonical(recovered.state)),
                          RuntimeAfter(Taken(w, s.ev).rt, o.fx[..s.done]), recovered.state)
  }

  ghost predicate Next(c: Codec, w: World, s: Step, w': World) {
    Lawful(c) && Enabled(w, s) && if s.Crash? then Crashes(c, w, s, w') else Moves(c, w, s, w')
  }

  /** What a step sends to the coordinator. A crash inside a handler sends nothing. */
  function Sent(w: World, s: Step): seq<Report>
    requires Enabled(w, s)
  {
    if s.Deliver? then Interrupts(w, s).reports else []
  }

  const NO_CONTAINERS := Runtime(map[], map[], map[], map[], map[], 0, map[], map[], false, [], [])

  /** A node on first boot: an empty journal, compacted, and no containers. */
  ghost predicate Init(c: Codec, w: World)
    requires Lawful(c)
  {
    w == World(EncodeLog(c, Canonical(EMPTY)), NewAgent(EMPTY), NO_CONTAINERS, multiset{}, map[], {}, {}, {}, {},
               multiset{})
  }

  // ---- the invariant ----

  /** The allocation's one start has happened or never will, and its container is not running. */
  predicate Finished(w: World, a: AllocationId) {
    a in w.agent.state.intents && w.inflight[a] == 0 && a !in w.rt.running
  }

  ghost predicate AtMostOneStart(w: World) {
    forall a ::
      && StartCount(w.rt, a) + w.inflight[a] <= w.queued[a] <= 1
      && (w.queued[a] > 0 ==> a in w.agent.state.intents)
  }

  ghost predicate InflightKnown(w: World) {
    forall a :: a in w.inflight ==>
      && a in w.agent.starting && a in w.agent.state.intents && a in w.specs
      && w.specs[a].attempt == w.agent.state.intents[a].attempt
      && w.specs[a].job == w.agent.state.intents[a].job
  }

  /** No lost evidence: what started is running, still visible as exited, or has its exit journaled. */
  ghost predicate EvidenceKept(w: World) {
    && (forall a :: Visible(w.rt, a) ==>
          && StartCount(w.rt, a) >= 1 && a in w.agent.state.intents
          && Labels(w.rt, a) == (w.agent.state.intents[a].attempt, w.agent.state.intents[a].job))
    && (forall a :: StartCount(w.rt, a) >= 1 ==> Visible(w.rt, a) || a in w.agent.state.exits)
    && (forall i :: 0 <= i < |w.rt.queue| ==>
          Visible(w.rt, w.rt.queue[i].allocation) || w.rt.queue[i].allocation in w.agent.state.exits)
  }

  ghost predicate EndingsFinished(w: World) {
    && (forall a :: a in w.agent.state.exits ==> Finished(w, a))
    && (forall a :: a in w.agent.deferredExits ==> Finished(w, a))
    && (forall i :: 0 <= i < |w.rt.queue| ==> Finished(w, w.rt.queue[i].allocation))
    && (forall d :: d in w.startsDone ==>
        w.queued[d.0] == 1 && w.inflight[d.0] == 0 && (d.1.Failed? ==> Finished(w, d.0)))
    && (forall d :: d in w.stopsDone && d.1.Answered? && !d.1.outcome.Unknown? ==>
          Finished(w, d.0) && d.1.outcome.exit.runtime >= 0)
  }

  predicate QueuesEmpty(a: Agent) {
    a.pendingStarts == [] && a.pendingStops == [] && a.pendingReaps == [] && a.armedWatchdogs == []
  }

  /** Memory is exactly what the bytes on disk replay to. */
  ghost predicate JournalInv(c: Codec, w: World)
    requires Lawful(c)
  {
    Clean(c, w.disk, w.agent.state) && AgentOk(w.agent) && QueuesEmpty(w.agent)
  }

  ghost predicate RuntimeInv(w: World) { RuntimeOk(w.rt) && EvidenceOk(w.rt) }

  ghost predicate ReapsJournaled(w: World) { forall a :: a in w.reaps ==> a in w.agent.state.exits }

  ghost predicate TasksInv(w: World) {
    AtMostOneStart(w) && InflightKnown(w) && EvidenceKept(w) && EndingsFinished(w) && ReapsJournaled(w)
  }

  ghost predicate Inv(c: Codec, w: World) {
    Lawful(c) && JournalInv(c, w) && RuntimeInv(w) && TasksInv(w)
  }
}
