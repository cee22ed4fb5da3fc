/** The session object inside the run: each turn of the loop is exactly one step of the system. */
module AgentLoop {
  import opened Types
  import opened JournalState
  import opened Framing
  import opened Executor
  import Spec = SessionSpec
  import opened SessionSpec
  import opened Effects
  import opened Journal
  import opened FakeRuntime
  import opened System
  import opened Runs
  import opened AgentSession

  /** The object, its journal file and its executor are this world's memory, disk and runtime. */
  ghost predicate Shows(s: Session, w: World)
    reads s, s.journal, s.executor, s.executor.inner
  {
    s.Valid() && s.View() == w.agent && s.journal.bytes == w.disk && s.executor.View() == w.rt
  }

  lemma NothingDone(c: Codec, disk: seq<byte>, rt: Runtime)
    requires Lawful(c)
    ensures DiskAfter(c, disk, []) == disk && RuntimeAfter(rt, []) == rt
  {
  }

  /** Hand one event to the session. */
  method Dispatch(s: Session, ev: Event, clock: Clock) returns (reports: seq<Report>)
    requires s.Valid()
    modifies s, s.journal, s.executor, s.executor.inner
    ensures s.Handled(Handle(old(s.View()), old(s.executor.View()), ev, clock))
    ensures reports == Handle(old(s.View()), old(s.executor.View()), ev, clock).reports
  {
    hide Spec.HandleCommand, Spec.FinishStart, Spec.FinishStop, OnObservedExit, OnMaxRuntime, OnTimers,
         Spec.OnInterruption, Spec.ResumeNotices, Spec.JanitorSweep, DiskAfter, RuntimeAfter, Lawful;
    NothingDone(s.journal.codec, s.journal.bytes, s.executor.View());
    reports := [];
    match ev {
      case CommandArrives(cmd) => reports := s.HandleCommand(cmd, clock);
      case StartFinished(alloc, result) => reports := s.FinishStart(alloc, result, clock);
      case StopFinished(alloc, result) => reports := s.FinishStop(alloc, result, clock.wall);
      case ExitSeen(alloc, exit) => reports := s.HandleObservedExit(alloc, exit);
      case WatchdogFires(alloc) => reports := s.TriggerMaxRuntime(alloc);
      case TimersDue => reports := s.RunTimers(clock.wall);
      case Interrupted(deadline) => reports := s.OnInterruption(deadline, clock.wall);
      case Resumes => reports := s.ResumeNotices(clock.wall);
      case Reconnects => s.ResetSession();
      case DrainingSet(on) => s.SetDraining(on);
      case JanitorTicks(bound) =>
        SweepsSilently(s.View(), s.executor.View(), clock.wall, bound);
        s.JanitorSweep(clock.wall, bound);
    }
  }

  lemma SweepsSilently(a: Agent, rt: Runtime, now: Timestamp, bound: Duration)
    ensures Spec.JanitorSweep(a, rt, now, bound).reports == []
  {
    hide SweepFx, Seen;
  }

  /**
   * One turn of the loop: from an object showing a world with the event taken off its queue, handle the
   * event and take what was queued. The object then shows the world that step of the system leads to, what
   * was taken is exactly what that world has gained in flight, and the reports are what the step sends.
   */
  method Turn(s: Session, ev: Event, clock: Clock, ghost w: World)
    returns (reports: seq<Report>, starts: seq<StartSpec>, stops: seq<StopRequest>, reaps: seq<AllocationId>,
             watchdogs: seq<ArmedWatchdog>, ghost w': World)
    requires Ready(w, ev) && Shows(s, Taken(w, ev))
    modifies s, s.journal, s.executor, s.executor.inner
    ensures Shows(s, w') && Next(s.journal.codec, w, Deliver(ev, clock), w')
    ensures reports == Sent(w, Deliver(ev, clock))
    ensures w'.inflight == w.inflight + multiset(Allocations(starts)) && w'.specs == WithSpecs(w.specs, starts)
    ensures w'.stops == w.stops + (set r | r in stops :: r.allocation) && w'.reaps == w.reaps + (set a | a in reaps)
    ensures watchdogs == Interrupts(w, Deliver(ev, clock)).agent.armedWatchdogs
  {
    hide Handle, DiskAfter, RuntimeAfter, Lawful, WithSpecs, Allocations;
    ghost var o := Handle(w.agent, Taken(w, ev).rt, ev, clock);
    w' := Performed(s.journal.codec, Taken(w, ev), o);
    reports := Dispatch(s, ev, clock);
    starts, stops, reaps, watchdogs := s.TakeQueued();
  }

  /**
   * A restart after a crash inside any handler: over the bytes the crash left, with the executor as the effects
   * performed left it, reopening the journal succeeds, and the new session over it and a fresh handle shows
   * exactly the world that crash leads to in the system.
   */
  method Restart(c: Codec, existing: seq<byte>, executor: FakeExecutor, ghost w: World, ghost s: Step)
    returns (session: Session, ghost w': World)
    requires Lawful(c) && Inv(c, w) && s.Crash? && Enabled(w, s) && s.done <= |Interrupts(w, s).fx|
    requires existing == CrashedDisk(c, w.disk, Interrupts(w, s).fx, s.done, s.cut)
    requires executor.View() == RuntimeAfter(Taken(w, s.ev).rt, Interrupts(w, s).fx[..s.done])
    ensures fresh(session) && fresh(session.journal) && fresh(session.executor)
    ensures session.journal.codec == c && session.executor.inner == executor.inner
    ensures Next(c, w, s, w') && Shows(session, w')
  {
    hide Inv, Handle, CrashedDisk, RuntimeAfter, StateAfter, Scan, Canonical, EncodeLog;
    CrashHereRecovers(c, w, s);
    var journal, recovered := OpenLocked(c, Some(existing));
    if journal == null {
      assert false;
    }
    var restarted := executor.Fork();
    session := new Session(journal, recovered.state, restarted);
    w' := Restarted(w, journal.bytes, executor.View(), recovered.state);
  }
}
