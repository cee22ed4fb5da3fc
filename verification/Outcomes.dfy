/** How an attempt's end is told: the same from every crash point, and where it is not, exactly when. */
module Outcomes {
  import opened Types
  import opened JournalState
  import opened Framing
  import opened Executor
  import opened Observed
  import opened SessionSpec
  import opened Effects
  import opened SessionProofs
  import opened SessionFacts
  import opened System
  import opened SystemProofs
  import opened Runs

  // ---- evidence is never altered ----

  /** The exited container of `a` is still there, as it was. */
  predicate EvidenceStays(rt: Runtime, rt': Runtime, a: AllocationId)
    requires a in rt.exited
  {
    a in rt'.exited && rt'.exited[a] == rt.exited[a] && a !in rt'.running
  }

  lemma EndingOthersKeepsEvidence(rt: Runtime, b: AllocationId, exit: ExitInfo, a: AllocationId)
    requires a in rt.exited && a !in rt.running
    ensures EvidenceStays(rt, StopContainer(rt, b).0, a) && EvidenceStays(rt, Finish(rt, b, exit), a)
  {
  }

  lemma SignalKeepsEvidence(rt: Runtime, b: AllocationId, signal: NoticeSignal, a: AllocationId)
    requires a in rt.exited && a !in rt.running
    ensures EvidenceStays(rt, SignalContainer(rt, b, signal), a)
  {
    hide Finish;
    if b in rt.running && b in rt.exitOnSignal {
      EndingOthersKeepsEvidence(rt.(signals := rt.signals + [(b, signal)]), b,
                                ExitInfo(rt.exitOnSignal[b].1, Natural, RanFor(rt, b), rt.now), a);
    }
  }

  lemma EffectKeepsEvidence(s: State, rt: Runtime, u: set<AllocationId>, e: Effect, a: AllocationId)
    requires EffectOk(s, rt, u, e) && a in rt.exited && a !in rt.running && a !in s.exits
    ensures EvidenceStays(rt, RuntimeAfterOne(rt, e), a)
  {
    hide StopContainer, SignalContainer, Allowed;
    match e
    case Stop(b) => EndingOthersKeepsEvidence(rt, b, ExitInfo(0, Natural, 0, 0), a);
    case Signal(b, signal) => SignalKeepsEvidence(rt, b, signal, a);
    case _ =>
  }

  /** No prefix of a handler's effects touches an exited container whose exit is still unjournaled. */
  lemma {:induction false} EffectsKeepEvidence(s: State, rt: Runtime, u: set<AllocationId>, fx: seq<Effect>, k: nat,
                                               a: AllocationId)
    requires EffectsOk(s, rt, u, fx) && k <= |fx| && Accounted(s) && RuntimeOk(rt) && EvidenceOk(rt)
    requires a in rt.exited && a !in rt.running && a !in StateAfter(s, fx[..k]).exits
    ensures EvidenceStays(rt, RuntimeAfter(rt, fx[..k]), a)
    decreases k
  {
    hide Accounted, EvidenceOk, WindsDown, EffectOk, RuntimeAfterOne, StateAfterOne;
    PrefixProgress(s, rt, u, fx, k);
    if k == 0 {
      assert fx[..k] == [];
    } else {
      assert fx[..k][0] == fx[0] && fx[..k][1..] == fx[1..][..k - 1];
      EffectProgress(s, rt, u, fx[0]);
      EffectKeepsEvidence(s, rt, u, fx[0], a);
      EffectsKeepEvidence(StateAfterOne(s, fx[0]), RuntimeAfterOne(rt, fx[0]), u, fx[1..], k - 1, a);
    }
  }

  lemma HandledKeepsEvidence(c: Codec, w: World, ev: Event, clock: Clock, k: nat, a: AllocationId)
    requires Lawful(c) && Inv(c, w) && Ready(w, ev) && a in w.rt.exited
    requires var fx := Handle(w.agent, Taken(w, ev).rt, ev, clock).fx;
             k <= |fx| && a !in StateAfter(w.agent.state, fx[..k]).exits
    ensures var rt' := RuntimeAfter(Taken(w, ev).rt, Handle(w.agent, Taken(w, ev).rt, ev, clock).fx[..k]);
            a in rt'.exited && rt'.exited[a] == w.rt.exited[a]
  {
    hide Handle, TasksInv, Clean, StateAfter, RuntimeAfter, EvidenceOk, WindsDown, Accounted, EffectsOk;
    TakenKeepsInv(c, w, ev);
    HandledProgress(c, w, ev, clock, k);
    EffectsKeepEvidence(w.agent.state, Taken(w, ev).rt, Unstarted(w), Handle(w.agent, Taken(w, ev).rt, ev, clock).fx,
                        k, a);
  }

  lemma QuietKeepsEvidence(w: World, s: Step, w': World, a: AllocationId)
    requires RuntimeOk(w.rt) && ReapsJournaled(w) && Enabled(w, s) && a in w.rt.exited && a !in w.agent.state.exits
    requires !s.Deliver? && !s.Crash?
    requires match s
             case RunStart(alloc, gaveUp) => w'.rt == StartRun(w, alloc, gaveUp).0
             case RunStop(alloc, fails) => w'.rt == StopRun(w, alloc, fails).0
             case RunReap(alloc) => w'.rt == Reap(w.rt, alloc)
             case ContainerExits(alloc, exit) => w'.rt == Finish(w.rt, alloc, exit)
             case RuntimeProgrammed(rt) => w'.rt == rt
    ensures a in w'.rt.exited && w'.rt.exited[a] == w.rt.exited[a]
  {
    hide StopContainer, Finish;
    match s
    case RunStop(alloc, _) => EndingOthersKeepsEvidence(w.rt, alloc, ExitInfo(0, Natural, 0, 0), a);
    case ContainerExits(alloc, exit) => EndingOthersKeepsEvidence(w.rt, alloc, exit, a);
    case _ =>
  }

  lemma StepKeepsEvidence(c: Codec, w: World, s: Step, w': World, a: AllocationId)
    requires Lawful(c) && Inv(c, w) && Next(c, w, s, w') && a in w.rt.exited && a !in w'.agent.state.exits
    ensures a in w'.rt.exited && w'.rt.exited[a] == w.rt.exited[a]
  {
    hide Inv, Handle, Scan, Canonical, EncodeLog, DiskAfter, CrashedDisk, StateAfter, RuntimeAfter, Progress,
         StartRun, StopRun, Reap, Finish;
    if s.Deliver? {
      HandledProgress(c, w, s.ev, s.clock, |Interrupts(w, s).fx|);
      HandledKeepsEvidence(c, w, s.ev, s.clock, |Interrupts(w, s).fx|, a);
    } else if s.Crash? {
      CrashHereRecovers(c, w, s);
      HandledKeepsEvidence(c, w, s.ev, s.clock, s.done, a);
    } else {
      InvReaps(c, w);
      QuietKeepsEvidence(w, s, w', a);
    }
  }

  lemma InvReaps(c: Codec, w: World)
    requires Lawful(c) && Inv(c, w)
    ensures RuntimeOk(w.rt) && ReapsJournaled(w)
  {
  }

  /** Over every run the evidence of an exit stays exactly as it was until that exit is journaled. */
  lemma {:induction false} EvidenceUnaltered(c: Codec, r: Run, i: nat, j: nat, a: AllocationId)
    requires Lawful(c) && IsRun(c, r) && i <= j < |r.worlds| && a in r.worlds[i].rt.exited && a !in StateAt(r, j).exits
    ensures a in r.worlds[j].rt.exited && r.worlds[j].rt.exited[a] == r.worlds[i].rt.exited[a]
    decreases j - i
  {
    hide Inv, Init, Next;
    if i < j {
      RunInv(c, r, i);
      RunStep(c, r, i);
      RunLater(c, r, i + 1, j);
      StepKeepsEvidence(c, r.worlds[i], r.steps[i], r.worlds[i + 1], a);
      EvidenceUnaltered(c, r, i + 1, j, a);
    }
  }

  // ---- an exit handed over by the watcher ----

  /** The exit event at the head of the queue, for a live allocation with no stop in flight. */
  predicate SeesExit(w: World, ev: Event) {
    && ev.ExitSeen? && Ready(w, ev)
    && ev.alloc in w.agent.state.intents && ev.alloc !in w.agent.state.exits && ev.alloc !in w.agent.stopping
  }

  /** What the watcher's exit is classified as, live. */
  function LiveOutcome(w: World, ev: Event): Outcome
    requires ev.ExitSeen?
  {
    ClassifyExit(ev.exit, AttributionOf(w.agent.state, ev.alloc))
  }

  function ExitRecord(w: World, ev: Event): Exit
    requires SeesExit(w, ev)
  {
    var i := w.agent.state.intents[ev.alloc];
    Exit(ev.alloc, i.attempt, i.job, LiveOutcome(w, ev), ev.exit.runtime)
  }

  lemma SeenExitIsRecorded(w: World, ev: Event, clock: Clock)
    requires SeesExit(w, ev)
    ensures var o, e := Handle(w.agent, Taken(w, ev).rt, ev, clock), ExitRecord(w, ev);
            && o.fx == [Append(ObservedExit(e))]
            && o.reports == [AttemptStatus(w.agent.epoch, e.allocation, e.attempt, e.job, Terminal(e.outcome),
                                           e.runtime)]
            && o.agent.state == w.agent.state.(exits := w.agent.state.exits[ev.alloc := e])
  {
  }

  lemma SeenExitIsEvident(c: Codec, w: World, ev: Event)
    requires Lawful(c) && Inv(c, w) && SeesExit(w, ev)
    ensures ev.alloc in w.rt.exited && w.rt.exited[ev.alloc].state == HasExited(ev.exit)
  {
    hide Clean, AgentOk, Handle;
    assert Queued(w.rt, w.rt.queue[0]);
  }

  /** Handled live, the exit is journaled and reported with the classification of its evidence. */
  lemma HandledLive(c: Codec, r: Run, i: nat)
    requires Lawful(c) && IsRun(c, r) && i < |r.steps| && r.steps[i].Deliver? && SeesExit(r.worlds[i], r.steps[i].ev)
    ensures var e := ExitRecord(r.worlds[i], r.steps[i].ev);
            && StateAt(r, i + 1).exits == StateAt(r, i).exits[e.allocation := e]
            && Enabled(r.worlds[i], r.steps[i])
            && Sent(r.worlds[i], r.steps[i]) ==
                 [AttemptStatus(r.worlds[i].agent.epoch, e.allocation, e.attempt, e.job, Terminal(e.outcome),
                                e.runtime)]
  {
    hide Init, Handle, DiskAfter, RuntimeAfter, WithSpecs, Crashes;
    RunStep(c, r, i);
    SeenExitIsRecorded(r.worlds[i], r.steps[i].ev, r.steps[i].clock);
  }

  lemma CrashLeavesRecordOrEvidence(c: Codec, w: World, s: Step, w': World)
    requires Lawful(c) && Inv(c, w) && Next(c, w, s, w') && s.Crash? && SeesExit(w, s.ev)
    ensures || w'.agent.state == w.agent.state
            || w'.agent.state == w.agent.state.(exits := w.agent.state.exits[s.ev.alloc := ExitRecord(w, s.ev)])
    ensures s.ev.alloc in w'.rt.exited && w'.rt.exited[s.ev.alloc].state == HasExited(s.ev.exit)
    ensures w'.agent == NewAgent(w'.agent.state)
  {
    hide Inv, Handle, Scan, Canonical, EncodeLog, CrashedDisk;
    var o := Interrupts(w, s);
    CrashHereRecovers(c, w, s);
    SeenExitIsRecorded(w, s.ev, s.clock);
    SeenExitIsEvident(c, w, s.ev);
    OneEffect(w.agent.state, Taken(w, s.ev).rt, {}, o.fx[0]);
    if s.done == 0 {
      assert o.fx[..s.done] == [];
    } else {
      assert o.fx[..s.done] == o.fx;
    }
  }

  // ---- where the crash point can matter ----

  /** The recovered plan makes the allocation due for a notice it was never given. */
  predicate LateNotice(s: State, a: AllocationId, now: Timestamp) {
    && a in OutstandingSet(s) && a !in s.noticeIntents && a !in s.tombstones
    && TermsFor(s.plan, s.intents[a], now).Some? && TermsFor(s.plan, s.intents[a], now).value.noticeAt <= now
  }

  /** Evidence the journal's attribution can change: a non-zero natural exit, or a kill nobody claimed. */
  predicate Attributable(exit: ExitInfo) { exit.cause.Killed? || (exit.cause.Natural? && exit.code != 0) }

  /**
   * Resuming notices after the crash and before registering rewrites an exit that already happened into
   * a preemption, exactly when a notice first falls due in between and the evidence is attributable.
   */
  lemma ResumingRewritesIff(s: State, a: AllocationId, exit: ExitInfo, now: Timestamp)
    ensures var resumed := ResumeNotices(NewAgent(s), now).agent.state;
            ClassifyExit(exit, AttributionOf(resumed, a)) == ClassifyExit(exit, AttributionOf(s, a)) <==>
              !(LateNotice(s, a, now) && Attributable(exit))
  {
    hide ResumeNotices;
    ResumeNoticesFacts(NewAgent(s), now, a);
  }

  /**
   * A tombstoned stop told live and told by recovery agree in every case but one: an exit our own stop
   * caused that carries no kill evidence, unless its notice already names the tombstone's preemption.
   */
  lemma StopAgreesWithRecoveryIff(s: State, a: AllocationId, stopped: StopOutcome)
    requires a in s.tombstones && !stopped.Unknown?
    ensures var t, attribution := s.tombstones[a], AttributionOf(s, a);
            var live := ClassifyStop(stopped, TombstoneOutcome(t), attribution);
            && live.Some? && live.value.1 == stopped.exit.runtime
            && (live.value.0 == ClassifyExit(stopped.exit, attribution) <==>
                  || stopped.AlreadyExited? || !stopped.exit.cause.Natural?
                  || (stopped.exit.code != 0 && a in s.noticeIntents && t == Preempt(s.noticeIntents[a])))
  {
  }

  lemma StoppedIsEvident(c: Codec, w: World, s: Step, w': World, stopped: StopOutcome)
    requires Lawful(c) && Inv(c, w) && Next(c, w, s, w') && s.RunStop? && !s.fails && !stopped.Unknown?
    requires StopRun(w, s.alloc, s.fails).1 == Answered(stopped)
    ensures s.alloc in w'.rt.exited && w'.rt.exited[s.alloc].state == HasExited(stopped.exit)
  {
    hide Inv, Crashes, Performed;
  }
}
