/** Every step keeps the system invariant, including a crash at any point inside a handler. */
module SystemProofs {
  import opened Types
  import opened JournalState
  import opened Wire
  import opened Framing
  import opened Executor
  import opened SessionSpec
  import opened Effects
  import opened SessionProofs
  import opened System

  function Unstarted(w: World): set<AllocationId> { set a | a in w.inflight }

  // ---- the journal on disk ----

  /** A handler's appends keep the bytes equal to the memory they are applied to, at every prefix. */
  lemma {:induction false} DiskFollowsState(c: Codec, disk: seq<byte>, s: State, rt: Runtime, u: set<AllocationId>,
                                            fx: seq<Effect>, k: nat)
    requires Lawful(c) && Clean(c, disk, s) && EffectsOk(s, rt, u, fx) && k <= |fx|
    ensures Clean(c, DiskAfter(c, disk, fx[..k]), StateAfter(s, fx[..k]))
    decreases k
  {
    if k == 0 {
      assert fx[..k] == [];
    } else {
      assert fx[..k][0] == fx[0] && fx[..k][1..] == fx[1..][..k - 1];
      if fx[0].Append? {
        CleanAppend(c, disk, s, fx[0].record);
        DiskFollowsState(c, disk + Frame(c, fx[0].record), Apply(s, fx[0].record), rt, u, fx[1..], k - 1);
      } else {
        DiskFollowsState(c, disk, s, RuntimeAfterOne(rt, fx[0]), u, fx[1..], k - 1);
      }
    }
  }

  lemma {:induction false} EffectAt(s: State, rt: Runtime, u: set<AllocationId>, fx: seq<Effect>, k: nat)
    requires EffectsOk(s, rt, u, fx) && k < |fx|
    ensures EffectOk(StateAfter(s, fx[..k]), RuntimeAfter(rt, fx[..k]), u, fx[k])
    decreases k
  {
    if k == 0 {
      assert fx[..k] == [];
    } else {
      assert fx[..k][0] == fx[0] && fx[..k][1..] == fx[1..][..k - 1];
      EffectAt(StateAfterOne(s, fx[0]), RuntimeAfterOne(rt, fx[0]), u, fx[1..], k - 1);
    }
  }

  /**
   * Crash refinement: wherever inside a handler the crash lands, and however the record being written
   * is cut, recovery succeeds and yields exactly the state of the records already whole.
   */
  lemma CrashRecovers(c: Codec, disk: seq<byte>, s: State, rt: Runtime, u: set<AllocationId>,
                      fx: seq<Effect>, done: nat, cut: nat)
    requires Lawful(c) && Clean(c, disk, s) && EffectsOk(s, rt, u, fx) && done <= |fx|
    ensures Scan(c, CrashedDisk(c, disk, fx, done, cut), EMPTY) == Ok(StateAfter(s, fx[..done]))
  {
    DiskFollowsState(c, disk, s, rt, u, fx, done);
    var whole, mid := DiskAfter(c, disk, fx[..done]), StateAfter(s, fx[..done]);
    CleanScans(c, whole, mid);
    if done < |fx| && fx[done].Append? && cut < |Frame(c, fx[done].record)| {
      EffectAt(s, rt, u, fx, done);
      TornAppendScans(c, whole, mid, fx[done].record, cut);
    }
  }

  // ---- a handled event ----

  /** What a handler may do to the volatile side, beyond its effects. */
  ghost predicate Volatile(a: Agent, ev: Event, o: Out) {
    && QueuesAtMostOne(a, o)
    && (if ev.StartFinished? then a.starting - {ev.alloc} else a.starting) <= o.agent.starting
    && (forall x :: x in o.agent.deferredExits ==> x in a.deferredExits || (ev.ExitSeen? && x == ev.alloc))
    && (forall x :: x in o.agent.pendingReaps ==> x in a.pendingReaps || x in o.agent.state.exits)
  }

  /** The events that carry nothing off a queue. */
  predicate Unqueued(ev: Event) {
    !ev.CommandArrives? && !ev.StartFinished? && !ev.StopFinished? && !ev.ExitSeen?
  }

  lemma SteadyIsVolatile(a: Agent, ev: Event, o: Out)
    requires Steady(a, o.agent)
    ensures Volatile(a, ev, o)
  {
  }

  lemma UnqueuedSound(a: Agent, rt: Runtime, ev: Event, clock: Clock, u: set<AllocationId>)
    requires AgentOk(a) && RuntimeOk(rt) && EvidenceOk(rt) && u <= a.starting && Unqueued(ev)
    ensures Sound(a, rt, u, Handle(a, rt, ev, clock)) && Volatile(a, ev, Handle(a, rt, ev, clock))
  {
    match ev {
      case WatchdogFires(alloc) => OnMaxRuntimeSound(a, rt, alloc, u);
      case TimersDue => OnTimersSound(a, clock.wall, rt, u);
      case Interrupted(deadline) => OnInterruptionSound(a, deadline, clock.wall, rt, u);
      case Resumes => ResumeNoticesSound(a, clock.wall, rt, u);
      case Reconnects => UnchangedSound(ResetSession(a), rt, u);
      case DrainingSet(on) => UnchangedSound(a.(draining := on), rt, u);
      case JanitorTicks(bound) => JanitorSweepSound(a, rt, clock.wall, bound, u);
    }
    SteadyIsVolatile(a, ev, Handle(a, rt, ev, clock));
  }

  lemma QueuedSound(w: World, w0: World, ev: Event, clock: Clock)
    requires AgentOk(w0.agent) && EndingsFinished(w) && EvidenceOk(w.rt) && Ready(w, ev) && w0 == Taken(w, ev)
    requires ev.StartFinished? || ev.StopFinished? || ev.ExitSeen?
    ensures var o := Handle(w0.agent, w0.rt, ev, clock);
            Sound(w0.agent, w0.rt, Unstarted(w), o) && Volatile(w0.agent, ev, o)
  {
    var a, rt, u := w0.agent, w0.rt, Unstarted(w);
    match ev
    case StartFinished(alloc, result) =>
      assert (alloc, result) in w.startsDone;
      FinishStartSound(a, alloc, result, clock, rt, u);
    case StopFinished(alloc, result) =>
      assert (alloc, result) in w.stopsDone;
      FinishStopSound(a, alloc, result, clock.wall, rt, u);
    case ExitSeen(alloc, exit) =>
      assert w.rt.queue[0].allocation == alloc;
      OnObservedExitSound(a, alloc, exit, rt, u);
  }

  lemma HandleSound(c: Codec, w: World, ev: Event, clock: Clock)
    requires Lawful(c) && Inv(c, w) && Ready(w, ev)
    ensures var w0 := Taken(w, ev);
            var o := Handle(w0.agent, w0.rt, ev, clock);
            Sound(w0.agent, w0.rt, Unstarted(w), o) && Volatile(w0.agent, ev, o)
  {
    if ev.CommandArrives? {
      NothingBeforeIntent(c, w);
      HandleCommandSound(w.agent, w.rt, ev.cmd, clock, Unstarted(w));
    } else if Unqueued(ev) {
      UnqueuedSound(w.agent, w.rt, ev, clock, Unstarted(w));
    } else {
      QueuedSound(w, Taken(w, ev), ev, clock);
    }
  }

  lemma NothingBeforeIntent(c: Codec, w: World)
    requires Lawful(c) && Inv(c, w)
    ensures forall x :: x !in w.agent.state.intents ==> x !in w.rt.running && x !in Unstarted(w)
  {
    forall x | x !in w.agent.state.intents ensures x !in w.rt.running {
      assert x in w.rt.running ==> Visible(w.rt, x);
    }
  }

  lemma PoppedKeepsRuntime(rt: Runtime, rt0: Runtime)
    requires RuntimeOk(rt) && EvidenceOk(rt) && rt.queue != [] && rt0 == rt.(queue := rt.queue[1..])
    ensures RuntimeOk(rt0) && EvidenceOk(rt0)
  {
    forall i | 0 <= i < |rt0.queue| ensures Queued(rt0, rt0.queue[i]) {
      assert Queued(rt, rt.queue[i + 1]);
    }
  }

  lemma PoppedKeepsEvidence(w: World, w0: World)
    requires AtMostOneStart(w) && InflightKnown(w) && EvidenceKept(w)
    requires w.rt.queue != [] && w0 == w.(rt := w.rt.(queue := w.rt.queue[1..]))
    ensures AtMostOneStart(w0) && InflightKnown(w0) && EvidenceKept(w0)
  {
    forall x ensures (Visible(w0.rt, x) <==> Visible(w.rt, x)) && StartCount(w0.rt, x) == StartCount(w.rt, x) { }
  }

  lemma PoppedKeepsEndings(w: World, w0: World)
    requires EndingsFinished(w) && ReapsJournaled(w) && w.rt.queue != []
    requires w0 == w.(rt := w.rt.(queue := w.rt.queue[1..]))
    ensures EndingsFinished(w0) && ReapsJournaled(w0) && Finished(w0, w.rt.queue[0].allocation)
  {
    forall x ensures Finished(w0, x) <==> Finished(w, x) { }
    forall i | 0 <= i < |w0.rt.queue| ensures w0.rt.queue[i] == w.rt.queue[i + 1] { }
  }

  lemma FewerResultsKeepsTasks(w: World, w0: World)
    requires TasksInv(w)
    requires w0 == w.(startsDone := w0.startsDone, stopsDone := w0.stopsDone)
    requires w0.startsDone <= w.startsDone && w0.stopsDone <= w.stopsDone
    ensures TasksInv(w0)
  {
    forall x ensures Finished(w0, x) <==> Finished(w, x) { }
    assert EvidenceKept(w0);
  }

  lemma TakenKeepsInv(c: Codec, w: World, ev: Event)
    requires Lawful(c) && Inv(c, w) && Ready(w, ev)
    ensures Inv(c, Taken(w, ev))
    ensures ev.ExitSeen? ==> Finished(Taken(w, ev), ev.alloc)
    ensures ev.StartFinished? ==> ev.alloc !in Taken(w, ev).inflight
  {
    var w0 := Taken(w, ev);
    assert JournalInv(c, w0);
    if ev.ExitSeen? {
      PoppedKeepsRuntime(w.rt, w0.rt);
      PoppedKeepsEvidence(w, w0);
      PoppedKeepsEndings(w, w0);
    } else if ev.StartFinished? || ev.StopFinished? {
      FewerResultsKeepsTasks(w, w0);
      if ev.StartFinished? { ResultHasNoStartLeft(w, (ev.alloc, ev.result)); }
    }
  }

  lemma ResultHasNoStartLeft(w: World, d: (AllocationId, StartResult))
    requires EndingsFinished(w) && d in w.startsDone
    ensures d.0 !in w.inflight
  {
  }

  /** The starts a handler queues, as the multiset the loop spawns. */
  lemma NewStarts(a: Agent, o: Out)
    requires a.pendingStarts == [] && QueuesAtMostOne(a, o)
    ensures var ids := multiset(Allocations(o.agent.pendingStarts));
            || (o.agent.pendingStarts == [] && ids == multiset{})
            || (exists spec: StartSpec :: NewStart(a, o, spec) && o.agent.pendingStarts == [spec]
                                           && ids == multiset{spec.allocation})
  {
    if o.agent.pendingStarts == [] {
      assert Allocations(o.agent.pendingStarts) == [];
    } else {
      var spec :| NewStart(a, o, spec);
      assert o.agent.pendingStarts == [spec];
      assert Allocations([spec]) == [spec.allocation];
    }
  }

  /** What was over stays over: a journaled intent is never queued again, and nothing else starts it. */
  lemma FinishedSurvives(w: World, o: Out, w': World, x: AllocationId)
    requires AtMostOneStart(w) && QueuesEmpty(w.agent) && QueuesAtMostOne(w.agent, o)
    requires Later(w.agent.state, o.agent.state) && Finished(w, x)
    requires w'.agent.state == o.agent.state
    requires w'.inflight == w.inflight + multiset(Allocations(o.agent.pendingStarts))
    requires forall a :: a in w'.rt.running ==> a in w.rt.running
    ensures Finished(w', x)
  {
    NewStarts(w.agent, o);
  }

  lemma PerformedCounts(w: World, o: Out, w': World)
    requires AtMostOneStart(w) && QueuesEmpty(w.agent) && QueuesAtMostOne(w.agent, o)
    requires Later(w.agent.state, o.agent.state)
    requires w'.agent.state == o.agent.state && w'.rt.startCounts == w.rt.startCounts
    requires w'.inflight == w.inflight + multiset(Allocations(o.agent.pendingStarts))
    requires w'.queued == w.queued + multiset(Allocations(o.agent.pendingStarts))
    ensures AtMostOneStart(w')
  {
    NewStarts(w.agent, o);
    forall x ensures StartCount(w'.rt, x) == StartCount(w.rt, x) { }
  }

  lemma PerformedInflight(w: World, o: Out, w': World)
    requires InflightKnown(w) && QueuesEmpty(w.agent) && QueuesAtMostOne(w.agent, o)
    requires Later(w.agent.state, o.agent.state)
    requires w'.agent.state == o.agent.state && w'.agent.starting == o.agent.starting
    requires w'.inflight == w.inflight + multiset(Allocations(o.agent.pendingStarts))
    requires w'.specs == WithSpecs(w.specs, o.agent.pendingStarts)
    requires forall x :: x in w.inflight ==> x in o.agent.starting
    ensures InflightKnown(w')
  {
    NewStarts(w.agent, o);
    if o.agent.pendingStarts != [] {
      var spec :| NewStart(w.agent, o, spec) && o.agent.pendingStarts == [spec];
      assert WithSpecs(w.specs, [spec]) == w.specs[spec.allocation := spec];
    }
  }

  lemma PerformedEvidence(w: World, w': World)
    requires EvidenceKept(w) && Later(w.agent.state, w'.agent.state)
    requires WindsDown(w.rt, w'.rt, w'.agent.state)
    ensures EvidenceKept(w')
  {
    forall x ensures StartCount(w'.rt, x) == StartCount(w.rt, x) { }
    forall i | 0 <= i < |w'.rt.queue|
      ensures Visible(w'.rt, w'.rt.queue[i].allocation) || w'.rt.queue[i].allocation in w'.agent.state.exits
    {
      if w'.rt.queue[i] in w.rt.queue {
        var j :| 0 <= j < |w.rt.queue| && w.rt.queue[j] == w'.rt.queue[i];
      }
    }
  }

  lemma VisibleHasNoStartLeft(w: World, x: AllocationId)
    requires AtMostOneStart(w) && EvidenceKept(w) && RuntimeOk(w.rt) && Visible(w.rt, x)
    ensures w.inflight[x] == 0 && x in w.agent.state.intents
  {
    assert StartCount(w.rt, x) >= 1;
  }

  lemma PerformedExits(w: World, o: Out, w': World, x: AllocationId)
    requires EndingsFinished(w) && QueuesEmpty(w.agent) && QueuesAtMostOne(w.agent, o)
    requires forall y :: Finished(w, y) ==> Finished(w', y)
    requires ExitsAccounted(o.agent.state) && FreshExitsQuiet(w.agent.state, o.agent.state, w'.rt, Unstarted(w))
    requires w'.agent.state == o.agent.state && x in w'.agent.state.exits
    requires w'.inflight == w.inflight + multiset(Allocations(o.agent.pendingStarts))
    ensures Finished(w', x)
  {
    if x in w.agent.state.exits {
      assert Finished(w, x);
    } else {
      NewStarts(w.agent, o);
      assert x !in Unstarted(w);
    }
  }

  lemma PerformedQueue(w: World, w': World, i: nat)
    requires AtMostOneStart(w) && EvidenceKept(w) && EndingsFinished(w) && RuntimeOk(w.rt) && EvidenceOk(w'.rt)
    requires WindsDown(w.rt, w'.rt, w'.agent.state) && i < |w'.rt.queue|
    requires forall y :: Finished(w, y) ==> Finished(w', y)
    requires forall y :: Visible(w.rt, y) && y !in w'.rt.running ==> Finished(w', y)
    ensures Finished(w', w'.rt.queue[i].allocation)
  {
    var e := w'.rt.queue[i];
    if e in w.rt.queue {
      var j :| 0 <= j < |w.rt.queue| && w.rt.queue[j] == e;
    }
  }

  lemma PerformedVisible(w: World, o: Out, w': World, y: AllocationId)
    requires AtMostOneStart(w) && EvidenceKept(w) && RuntimeOk(w.rt) && QueuesEmpty(w.agent)
             && QueuesAtMostOne(w.agent, o)
    requires Later(w.agent.state, o.agent.state) && w'.agent.state == o.agent.state
    requires w'.inflight == w.inflight + multiset(Allocations(o.agent.pendingStarts))
    requires Visible(w.rt, y) && y !in w'.rt.running
    ensures Finished(w', y)
  {
    VisibleHasNoStartLeft(w, y);
    NewStarts(w.agent, o);
  }

  lemma PerformedResults(w: World, o: Out, w': World)
    requires AtMostOneStart(w) && EndingsFinished(w) && QueuesEmpty(w.agent) && QueuesAtMostOne(w.agent, o)
    requires forall y :: Finished(w, y) ==> Finished(w', y)
    requires w'.inflight == w.inflight + multiset(Allocations(o.agent.pendingStarts))
    requires w'.queued == w.queued + multiset(Allocations(o.agent.pendingStarts))
    requires w'.startsDone == w.startsDone
    ensures forall d :: d in w'.startsDone ==>
              w'.queued[d.0] == 1 && w'.inflight[d.0] == 0 && (d.1.Failed? ==> Finished(w', d.0))
  {
    NewStarts(w.agent, o);
    forall d | d in w'.startsDone ensures w'.queued[d.0] == 1 && w'.inflight[d.0] == 0 {
      assert w.queued[d.0] == 1 && d.0 in w.agent.state.intents;
    }
  }

  lemma PerformedEndings(w: World, ev: Event, o: Out, w': World)
    requires AtMostOneStart(w) && EvidenceKept(w) && EndingsFinished(w) && RuntimeOk(w.rt) && QueuesEmpty(w.agent)
    requires Volatile(w.agent, ev, o) && (ev.ExitSeen? ==> Finished(w, ev.alloc))
    requires Progress(w.agent.state, w.rt, Unstarted(w), o.agent.state, w'.rt)
    requires w'.agent.state == o.agent.state && w'.agent.deferredExits == o.agent.deferredExits
    requires w'.inflight == w.inflight + multiset(Allocations(o.agent.pendingStarts))
    requires w'.queued == w.queued + multiset(Allocations(o.agent.pendingStarts))
    requires w'.startsDone == w.startsDone && w'.stopsDone == w.stopsDone
    ensures EndingsFinished(w')
  {
    forall x | Finished(w, x) ensures Finished(w', x) { FinishedSurvives(w, o, w', x); }
    forall y | Visible(w.rt, y) && y !in w'.rt.running ensures Finished(w', y) { PerformedVisible(w, o, w', y); }
    forall x | x in w'.agent.state.exits ensures Finished(w', x) { PerformedExits(w, o, w', x); }
    forall i | 0 <= i < |w'.rt.queue| ensures Finished(w', w'.rt.queue[i].allocation) { PerformedQueue(w, w', i); }
    PerformedResults(w, o, w');
  }

  lemma DrainedOk(a: Agent)
    requires AgentOk(a)
    ensures AgentOk(Drained(a)) && QueuesEmpty(Drained(a))
  {
  }

  lemma PerformedJournal(c: Codec, w: World, o: Out, u: set<AllocationId>)
    requires Lawful(c) && JournalInv(c, w) && Sound(w.agent, w.rt, u, o)
    ensures JournalInv(c, Performed(c, w, o))
  {
    assert o.fx[..|o.fx|] == o.fx;
    DiskFollowsState(c, w.disk, w.agent.state, w.rt, u, o.fx, |o.fx|);
    DrainedOk(o.agent);
  }

  lemma PerformedProgress(c: Codec, w: World, o: Out, u: set<AllocationId>)
    requires Lawful(c) && JournalInv(c, w) && RuntimeInv(w) && Sound(w.agent, w.rt, u, o)
    ensures Progress(w.agent.state, w.rt, u, o.agent.state, RuntimeAfter(w.rt, o.fx))
  {
    assert o.fx[..|o.fx|] == o.fx;
    PrefixProgress(w.agent.state, w.rt, u, o.fx, |o.fx|);
  }

  lemma StartingKept(w: World, ev: Event, o: Out)
    requires InflightKnown(w) && Volatile(w.agent, ev, o) && (ev.StartFinished? ==> ev.alloc !in w.inflight)
    ensures forall x :: x in w.inflight ==> x in o.agent.starting
  {
  }

  lemma PerformedReaps(w: World, ev: Event, o: Out, reaps: set<AllocationId>)
    requires ReapsJournaled(w) && QueuesEmpty(w.agent) && Volatile(w.agent, ev, o)
             && Later(w.agent.state, o.agent.state)
    requires reaps == w.reaps + set r | r in o.agent.pendingReaps
    ensures forall x :: x in reaps ==> x in o.agent.state.exits
  {
  }

  lemma PerformedTasks(c: Codec, w: World, ev: Event, o: Out, w': World)
    requires Lawful(c) && TasksInv(w) && RuntimeOk(w.rt) && QueuesEmpty(w.agent) && Volatile(w.agent, ev, o)
    requires Progress(w.agent.state, w.rt, Unstarted(w), o.agent.state, w'.rt)
    requires ev.ExitSeen? ==> Finished(w, ev.alloc)
    requires ev.StartFinished? ==> ev.alloc !in w.inflight
    requires w' == Performed(c, w, o)
    ensures TasksInv(w')
  {
    StartingKept(w, ev, o);
    PerformedCounts(w, o, w');
    PerformedInflight(w, o, w');
    PerformedEvidence(w, w');
    PerformedEndings(w, ev, o, w');
    PerformedReaps(w, ev, o, w'.reaps);
  }

  lemma PerformedInv(c: Codec, w: World, ev: Event, o: Out)
    requires Lawful(c) && Inv(c, w)
    requires Sound(w.agent, w.rt, Unstarted(w), o) && Volatile(w.agent, ev, o)
    requires ev.ExitSeen? ==> Finished(w, ev.alloc)
    requires ev.StartFinished? ==> ev.alloc !in w.inflight
    ensures Inv(c, Performed(c, w, o))
    ensures Later(w.agent.state, o.agent.state)
  {
    PerformedJournal(c, w, o, Unstarted(w));
    PerformedProgress(c, w, o, Unstarted(w));
    PerformedTasks(c, w, ev, o, Performed(c, w, o));
  }

  // ---- the other steps ----

  /** One spawned start has run: `started` says whether its container appeared. */
  ghost predicate StartRan(w: World, w': World, alloc: AllocationId, started: bool) {
    && w'.agent == w.agent && w'.queued == w.queued && w'.specs == w.specs && w'.reaps == w.reaps
    && w'.stopsDone == w.stopsDone && w'.rt.queue == w.rt.queue && w'.rt.exited == w.rt.exited
    && alloc in w.inflight && alloc in w.specs && w'.inflight == w.inflight - multiset{alloc}
    && (forall x :: StartCount(w'.rt, x) == StartCount(w.rt, x) + if started && x == alloc then 1 else 0)
    && w'.rt.running == (if started
         then w.rt.running[alloc := Container(alloc, w.specs[alloc].attempt, w.specs[alloc].job, IsRunning(0))]
         else w.rt.running)
  }

  lemma InflightIsItsOnlyStart(w: World, alloc: AllocationId)
    requires AtMostOneStart(w) && EvidenceKept(w) && alloc in w.inflight
    ensures w.inflight[alloc] == 1 && StartCount(w.rt, alloc) == 0 && w.queued[alloc] == 1
    ensures !Visible(w.rt, alloc) && !Finished(w, alloc) && alloc in w.agent.state.intents
  {
    assert StartCount(w.rt, alloc) + w.inflight[alloc] <= w.queued[alloc] <= 1;
    assert Visible(w.rt, alloc) ==> StartCount(w.rt, alloc) >= 1;
  }

  lemma RanCounts(w: World, w': World, alloc: AllocationId, started: bool)
    requires AtMostOneStart(w) && InflightKnown(w) && StartRan(w, w', alloc, started)
    ensures AtMostOneStart(w') && InflightKnown(w')
  {
    forall x ensures w'.inflight[x] == w.inflight[x] - (if x == alloc then 1 else 0) { }
  }

  lemma RanEvidence(w: World, w': World, alloc: AllocationId, started: bool)
    requires AtMostOneStart(w) && InflightKnown(w) && EvidenceKept(w) && StartRan(w, w', alloc, started)
    ensures EvidenceKept(w')
  {
    InflightIsItsOnlyStart(w, alloc);
    forall x | x != alloc
      ensures Visible(w'.rt, x) <==> Visible(w.rt, x)
      ensures Visible(w.rt, x) ==> Labels(w'.rt, x) == Labels(w.rt, x) { }
  }

  lemma RanFinished(w: World, w': World, alloc: AllocationId, started: bool)
    requires AtMostOneStart(w) && EvidenceKept(w) && StartRan(w, w', alloc, started)
    ensures forall x :: Finished(w, x) ==> Finished(w', x)
    ensures !started ==> Finished(w', alloc)
    ensures w'.inflight[alloc] == 0 && forall x :: w.inflight[x] == 0 ==> w'.inflight[x] == 0
  {
    InflightIsItsOnlyStart(w, alloc);
  }

  lemma RanEndings(w: World, w': World, alloc: AllocationId, result: StartResult)
    requires AtMostOneStart(w) && EvidenceKept(w) && EndingsFinished(w) && StartRan(w, w', alloc, result.Started?)
    requires w'.startsDone == w.startsDone + {(alloc, result)}
    ensures EndingsFinished(w')
  {
    RanFinished(w, w', alloc, result.Started?);
    InflightIsItsOnlyStart(w, alloc);
  }

  lemma RanQueue(w: World, w': World, alloc: AllocationId, started: bool)
    requires EvidenceOk(w.rt) && StartRan(w, w', alloc, started)
    requires forall i :: 0 <= i < |w.rt.queue| ==> w.rt.queue[i].allocation != alloc
    ensures EvidenceOk(w'.rt)
  {
    forall i | 0 <= i < |w'.rt.queue| ensures Queued(w'.rt, w'.rt.queue[i]) {
      assert Queued(w.rt, w.rt.queue[i]);
    }
  }

  lemma RanRuntime(w: World, w': World, alloc: AllocationId, started: bool)
    requires RuntimeOk(w.rt) && !Visible(w.rt, alloc) && StartRan(w, w', alloc, started)
    ensures RuntimeOk(w'.rt)
  {
  }

  lemma RanOthersQueued(w: World, alloc: AllocationId)
    requires AtMostOneStart(w) && EvidenceKept(w) && EndingsFinished(w) && alloc in w.inflight
    ensures !Visible(w.rt, alloc)
    ensures forall i :: 0 <= i < |w.rt.queue| ==> w.rt.queue[i].allocation != alloc
  {
    InflightIsItsOnlyStart(w, alloc);
    forall i | 0 <= i < |w.rt.queue| ensures w.rt.queue[i].allocation != alloc {
      assert Finished(w, w.rt.queue[i].allocation);
    }
  }

  lemma StartRunRan(w: World, alloc: AllocationId, gaveUp: bool, w': World)
    requires Enabled(w, RunStart(alloc, gaveUp))
    requires w' == w.(rt := StartRun(w, alloc, gaveUp).0, inflight := w.inflight - multiset{alloc},
                      startsDone := w'.startsDone)
    ensures StartRan(w, w', alloc, StartRun(w, alloc, gaveUp).1.Started?)
  {
  }

  lemma RunStartInv(c: Codec, w: World, alloc: AllocationId, gaveUp: bool, w': World)
    requires Lawful(c) && Inv(c, w) && Next(c, w, RunStart(alloc, gaveUp), w')
    ensures Inv(c, w')
  {
    var result := StartRun(w, alloc, gaveUp).1;
    StartRunRan(w, alloc, gaveUp, w');
    RanCounts(w, w', alloc, result.Started?);
    RanEvidence(w, w', alloc, result.Started?);
    RanEndings(w, w', alloc, result);
    RanOthersQueued(w, alloc);
    RanRuntime(w, w', alloc, result.Started?);
    RanQueue(w, w', alloc, result.Started?);
    assert JournalInv(c, w');
  }

  /** Nothing moved but the runtime, which only wound down, and perhaps a stop answered. */
  lemma WoundDownTasks(w: World, w': World)
    requires TasksInv(w) && RuntimeOk(w.rt) && WindsDown(w.rt, w'.rt, w.agent.state) && EvidenceOk(w'.rt)
    requires w' == w.(rt := w'.rt, stops := w'.stops, stopsDone := w'.stopsDone, reaps := w'.reaps)
    requires w'.reaps <= w.reaps
    requires forall d :: d in w'.stopsDone && d !in w.stopsDone && d.1.Answered? && !d.1.outcome.Unknown? ==>
               Finished(w', d.0) && d.1.outcome.exit.runtime >= 0
    ensures TasksInv(w')
  {
    forall x ensures StartCount(w'.rt, x) == StartCount(w.rt, x) { }
    forall x | Finished(w, x) ensures Finished(w', x) { }
    forall i | 0 <= i < |w'.rt.queue| ensures Finished(w', w'.rt.queue[i].allocation) {
      QueuedIsFinished(w, w', i);
    }
    LaterReflexive(w.agent.state);
    PerformedEvidence(w, w');
  }

  lemma QueuedIsFinished(w: World, w': World, i: nat)
    requires TasksInv(w) && RuntimeOk(w.rt) && i < |w'.rt.queue| && WindsDown(w.rt, w'.rt, w.agent.state)
    requires forall x :: Finished(w, x) ==> Finished(w', x)
    requires w'.rt.queue[i].allocation !in w'.rt.running || w'.rt.queue[i] in w.rt.queue
    requires w'.inflight == w.inflight && w'.agent == w.agent
    ensures Finished(w', w'.rt.queue[i].allocation)
  {
    var e := w'.rt.queue[i];
    if e in w.rt.queue {
      var j :| 0 <= j < |w.rt.queue| && w.rt.queue[j] == e;
    } else {
      VisibleHasNoStartLeft(w, e.allocation);
    }
  }

  lemma StoppedIsFinished(w: World, alloc: AllocationId)
    requires TasksInv(w) && RuntimeInv(w)
    ensures var (rt', stopped) := StopContainer(w.rt, alloc);
            !stopped.Unknown? ==> Finished(w.(rt := rt'), alloc) && stopped.exit.runtime >= 0
  {
    if Visible(w.rt, alloc) { VisibleHasNoStartLeft(w, alloc); }
  }

  lemma RunStopInv(c: Codec, w: World, alloc: AllocationId, fails: bool, w': World)
    requires Lawful(c) && Inv(c, w) && Next(c, w, RunStop(alloc, fails), w')
    ensures Inv(c, w')
  {
    hide Clean, AgentOk;
    assert JournalInv(c, w');
    if fails {
      WindsDownReflexive(w.rt, w.agent.state);
    } else {
      StopWindsDown(w.agent.state, w.rt, alloc);
      StoppedIsFinished(w, alloc);
    }
    WoundDownTasks(w, w');
  }

  lemma WindsDownReflexive(rt: Runtime, s: State)
    ensures WindsDown(rt, rt, s)
  {
  }

  lemma ProgrammedWindsDown(rt: Runtime, rt': Runtime, s: State)
    requires rt' == rt.(failStarts := rt'.failStarts, now := rt'.now, stopCauses := rt'.stopCauses,
                        exitOnSignal := rt'.exitOnSignal, failObserve := rt'.failObserve)
    ensures WindsDown(rt, rt', s) && (RuntimeOk(rt) ==> RuntimeOk(rt')) && (EvidenceOk(rt) ==> EvidenceOk(rt'))
  {
  }

  lemma QuietStepInv(c: Codec, w: World, s: Step, w': World)
    requires Lawful(c) && Inv(c, w) && Next(c, w, s, w') && (s.RunReap? || s.ContainerExits? || s.RuntimeProgrammed?)
    ensures Inv(c, w')
  {
    hide Clean, AgentOk;
    assert JournalInv(c, w');
    match s
    case RunReap(alloc) =>
      EffectWindsDown(w.agent.state, w.rt, {}, Remove(alloc));
      WoundDownTasks(w, w');
    case ContainerExits(alloc, exit) =>
      FinishWindsDown(w.agent.state, w.rt, alloc, exit);
      WoundDownTasks(w, w');
    case RuntimeProgrammed(rt) =>
      ProgrammedWindsDown(w.rt, rt, w.agent.state);
      WoundDownTasks(w, w');
  }

  /** A crash anywhere: what is recovered is accounted for, and nothing the runtime holds is lost. */
  lemma CrashInv(c: Codec, w: World, s: Step, w': World)
    requires Lawful(c) && Inv(c, w) && s.Crash? && Next(c, w, s, w')
    ensures Inv(c, w') && Later(w.agent.state, w'.agent.state)
  {
    hide Inv, Handle, Later, CrashedDisk;
    var w0 := Taken(w, s.ev);
    var o := Interrupts(w, s);
    TakenKeepsInv(c, w, s.ev);
    HandleSound(c, w, s.ev, s.clock);
    CrashedInv(c, w0, o, s.done, s.cut, w');
  }

  lemma CrashedInv(c: Codec, w: World, o: Out, done: nat, cut: nat, w': World)
    requires Lawful(c) && Inv(c, w) && Sound(w.agent, w.rt, Unstarted(w), o) && done <= |o.fx|
    requires var r := Scan(c, CrashedDisk(c, w.disk, o.fx, done, cut), EMPTY);
             r.Ok? && w' == Restarted(w, EncodeLog(c, Canonical(r.state)), RuntimeAfter(w.rt, o.fx[..done]), r.state)
    ensures Inv(c, w') && Later(w.agent.state, w'.agent.state)
  {
    var s, rt := StateAfter(w.agent.state, o.fx[..done]), RuntimeAfter(w.rt, o.fx[..done]);
    CrashRecovers(c, w.disk, w.agent.state, w.rt, Unstarted(w), o.fx, done, cut);
    PrefixProgress(w.agent.state, w.rt, Unstarted(w), o.fx, done);
    RestartedJournal(c, w, s, rt, w');
    RestartedTasks(w, s, rt, w');
  }

  lemma RestartedJournal(c: Codec, w: World, s: State, rt: Runtime, w': World)
    requires Lawful(c) && Accounted(s) && RuntimeOk(rt) && EvidenceOk(rt)
    requires w' == Restarted(w, EncodeLog(c, Canonical(s)), rt, s)
    ensures JournalInv(c, w') && RuntimeInv(w')
  {
    CompactedIsClean(c, s);
  }

  lemma RestartedEvidence(w: World, s: State, rt: Runtime, w': World)
    requires AtMostOneStart(w) && EvidenceKept(w)
    requires Later(w.agent.state, s) && WindsDown(w.rt, rt, s)
    requires w' == Restarted(w, w'.disk, rt, s)
    ensures AtMostOneStart(w') && EvidenceKept(w')
  {
    WindsDownIgnoresQueue(w.rt, rt, s);
    PerformedEvidence(w, w');
    forall x ensures StartCount(w'.rt, x) == StartCount(w.rt, x) { }
  }

  lemma WindsDownIgnoresQueue(rt: Runtime, rt': Runtime, s: State)
    requires WindsDown(rt, rt', s)
    ensures WindsDown(rt, Fork(rt'), s)
  {
  }

  lemma RestartedTasks(w: World, s: State, rt: Runtime, w': World)
    requires TasksInv(w) && Accounted(s) && Progress(w.agent.state, w.rt, Unstarted(w), s, rt)
    requires w' == Restarted(w, w'.disk, rt, s)
    ensures TasksInv(w')
  {
    RestartedEvidence(w, s, rt, w');
    forall x | x in s.exits ensures Finished(w', x) {
      RestartedFinished(w, s, rt, w', x);
    }
  }

  lemma RestartedFinished(w: World, s: State, rt: Runtime, w': World, x: AllocationId)
    requires EndingsFinished(w) && ExitsAccounted(s) && x in s.exits
    requires FreshExitsQuiet(w.agent.state, s, rt, Unstarted(w)) && WindsDown(w.rt, rt, s)
    requires w' == Restarted(w, w'.disk, rt, s)
    ensures Finished(w', x)
  {
    if x in w.agent.state.exits { assert Finished(w, x); }
  }

  // ---- the invariant holds in every reachable state ----

  lemma DeliverInv(c: Codec, w: World, s: Step, w': World)
    requires Lawful(c) && Inv(c, w) && s.Deliver? && Next(c, w, s, w')
    ensures Inv(c, w') && Later(w.agent.state, w'.agent.state)
  {
    hide Inv, Handle, Sound, Later, AgentOk;
    TakenKeepsInv(c, w, s.ev);
    HandleSound(c, w, s.ev, s.clock);
    PerformedInv(c, Taken(w, s.ev), s.ev, Interrupts(w, s));
  }

  lemma InitInv(c: Codec, w: World)
    requires Lawful(c) && Init(c, w)
    ensures Inv(c, w)
  {
    hide EncodeLog, Canonical;
    CompactedIsClean(c, EMPTY);
    InitTasks(w);
  }

  lemma InitTasks(w: World)
    requires w.agent == NewAgent(EMPTY) && w.rt == NO_CONTAINERS && w.inflight == multiset{} && w.queued == multiset{}
    requires w.startsDone == {} && w.stopsDone == {} && w.reaps == {}
    ensures TasksInv(w) && RuntimeInv(w)
  {
  }

  lemma NextInv(c: Codec, w: World, s: Step, w': World)
    requires Lawful(c) && Inv(c, w) && Next(c, w, s, w')
    ensures Inv(c, w') && Later(w.agent.state, w'.agent.state)
  {
    hide Inv, Crashes, Later, Performed, Handle;
    LaterReflexive(w.agent.state);
    match s
    case Deliver(_, _) => DeliverInv(c, w, s, w');
    case RunStart(alloc, gaveUp) => RunStartInv(c, w, alloc, gaveUp, w');
    case RunStop(alloc, fails) => RunStopInv(c, w, alloc, fails, w');
    case Crash(_, _, _, _) => CrashInv(c, w, s, w');
    case _ => QuietStepInv(c, w, s, w');
  }
}
