/** Whole runs: any interleaving of commands, exits, timers, task results, reconnects and crashes. */
module Runs {
  import opened Types
  import opened JournalState
  import opened Wire
  import opened Framing
  import opened Executor
  import opened SessionSpec
  import opened Effects
  import opened SessionProofs
  import opened System
  import opened SystemProofs

  datatype Run = Run(worlds: seq<World>, steps: seq<Step>)

  ghost predicate IsRun(c: Codec, r: Run) {
    && Lawful(c) && |r.worlds| == |r.steps| + 1
    && Init(c, r.worlds[0])
    && forall i {:trigger r.steps[i]} :: 0 <= i < |r.steps| ==> Next(c, r.worlds[i], r.steps[i], r.worlds[i + 1])
  }

  /** The memory image of the journal after `i` steps. */
  function StateAt(r: Run, i: nat): State
    requires i < |r.worlds|
  {
    r.worlds[i].agent.state
  }

  lemma RunStep(c: Codec, r: Run, i: nat)
    requires Lawful(c) && IsRun(c, r) && i < |r.steps|
    ensures Next(c, r.worlds[i], r.steps[i], r.worlds[i + 1])
  {
    hide Next;
  }

  lemma {:induction false} RunInv(c: Codec, r: Run, i: nat)
    requires Lawful(c) && IsRun(c, r) && i < |r.worlds|
    ensures Inv(c, r.worlds[i])
  {
    hide Inv, Next;
    if i == 0 {
      InitInv(c, r.worlds[0]);
    } else {
      RunInv(c, r, i - 1);
      RunStep(c, r, i - 1);
      NextInv(c, r.worlds[i - 1], r.steps[i - 1], r.worlds[i]);
    }
  }

  /** The journal only moves along its order, crashes included. */
  lemma {:induction false} RunLater(c: Codec, r: Run, i: nat, j: nat)
    requires Lawful(c) && IsRun(c, r) && i <= j < |r.worlds|
    ensures Later(StateAt(r, i), StateAt(r, j))
    decreases j - i
  {
    hide Inv, Next, Init, Later;
    if i == j {
      LaterReflexive(StateAt(r, i));
    } else {
      RunInv(c, r, i);
      RunStep(c, r, i);
      NextInv(c, r.worlds[i], r.steps[i], r.worlds[i + 1]);
      RunLater(c, r, i + 1, j);
      LaterTransitive(StateAt(r, i), StateAt(r, i + 1), StateAt(r, j));
    }
  }

  // ---- crash refinement ----

  /** Between handlers, memory is exactly what reopening the journal would recover. */
  lemma MemoryIsReplay(c: Codec, r: Run, i: nat)
    requires Lawful(c) && IsRun(c, r) && i < |r.worlds|
    ensures Scan(c, r.worlds[i].disk, EMPTY) == Ok(StateAt(r, i))
  {
    hide IsRun;
    RunInv(c, r, i);
    CleanScans(c, r.worlds[i].disk, StateAt(r, i));
  }

  /**
   * A crash inside any handler, at any effect, with the record being written cut anywhere: recovery
   * succeeds, and what it recovers is the memory before the handler plus exactly the records already
   * written whole. After the last effect that is the memory the handler would have returned.
   */
  lemma CrashAnywhereRecovers(c: Codec, r: Run, i: nat, s: Step)
    requires Lawful(c) && IsRun(c, r) && i < |r.worlds|
    requires s.Crash? && Enabled(r.worlds[i], s) && s.done <= |Interrupts(r.worlds[i], s).fx|
    ensures var w, o := r.worlds[i], Interrupts(r.worlds[i], s);
            var recovered := StateAfter(StateAt(r, i), o.fx[..s.done]);
            && Next(c, w, s, Restarted(w, EncodeLog(c, Canonical(recovered)),
                                       RuntimeAfter(Taken(w, s.ev).rt, o.fx[..s.done]), recovered))
            && (forall w' :: Next(c, w, s, w') ==> w'.agent == NewAgent(recovered))
            && (s.done == |o.fx| ==> recovered == o.agent.state)
  {
    hide IsRun;
    RunInv(c, r, i);
    CrashHereRecovers(c, r.worlds[i], s);
  }

  lemma CrashHereRecovers(c: Codec, w: World, s: Step)
    requires Lawful(c) && Inv(c, w) && s.Crash? && Enabled(w, s) && s.done <= |Interrupts(w, s).fx|
    ensures var o := Interrupts(w, s);
            var recovered := StateAfter(w.agent.state, o.fx[..s.done]);
            && Crashes(c, w, s, Restarted(w, EncodeLog(c, Canonical(recovered)),
                                          RuntimeAfter(Taken(w, s.ev).rt, o.fx[..s.done]), recovered))
            && (forall w' :: Crashes(c, w, s, w') ==> w'.agent == NewAgent(recovered))
            && (s.done == |o.fx| ==> recovered == o.agent.state)
  {
    hide Handle, AgentOk, Scan, Canonical, EncodeLog, CrashedDisk, TasksInv, RuntimeInv, RuntimeAfter;
    var o := Interrupts(w, s);
    HandleSound(c, w, s.ev, s.clock);
    CrashRecovers(c, w.disk, w.agent.state, Taken(w, s.ev).rt, Unstarted(w), o.fx, s.done, s.cut);
    assert o.fx[..|o.fx|] == o.fx;
  }

  // ---- at most one start ----

  /** Over every run each allocation is queued at most once and its container created at most once. */
  lemma StartsAtMostOnce(c: Codec, r: Run, i: nat, a: AllocationId)
    requires Lawful(c) && IsRun(c, r) && i < |r.worlds|
    ensures StartCount(r.worlds[i].rt, a) <= r.worlds[i].queued[a] <= 1
    ensures r.worlds[i].queued[a] == 1 ==>
              var s := Scan(c, r.worlds[i].disk, EMPTY); s.Ok? && a in s.state.intents
  {
    hide IsRun;
    RunInv(c, r, i);
    MemoryIsReplay(c, r, i);
  }

  /** A start joins the queue only for a new allocation, with no tombstone, its intent durable, the door open. */
  lemma QueuedBehindIntent(c: Codec, r: Run, i: nat, a: AllocationId)
    requires Lawful(c) && IsRun(c, r) && i < |r.steps| && r.worlds[i + 1].queued[a] > r.worlds[i].queued[a]
    ensures r.steps[i].Deliver?
    ensures a !in StateAt(r, i).intents && a !in StateAt(r, i).tombstones
    ensures !r.worlds[i].agent.draining && StateAt(r, i).plan.interruption.None?
    ensures var s := Scan(c, r.worlds[i + 1].disk, EMPTY); s.Ok? && a in s.state.intents
  {
    hide Inv, Next, Init, Scan;
    RunInv(c, r, i);
    RunStep(c, r, i);
    QueuedStep(c, r.worlds[i], r.steps[i], r.worlds[i + 1], a);
    MemoryIsReplay(c, r, i + 1);
  }

  lemma QueuedStep(c: Codec, w: World, s: Step, w': World, a: AllocationId)
    requires Lawful(c) && Inv(c, w) && Next(c, w, s, w') && w'.queued[a] > w.queued[a]
    ensures s.Deliver?
    ensures a !in w.agent.state.intents && a !in w.agent.state.tombstones && a in w'.agent.state.intents
    ensures !w.agent.draining && w.agent.state.plan.interruption.None?
  {
    hide Inv, Handle, Sound, DiskAfter, RuntimeAfter;
    if s.Deliver? {
      HandleSound(c, w, s.ev, s.clock);
      InvQueues(c, w);
      NewStarts(w.agent, Interrupts(w, s));
    }
  }

  lemma InvQueues(c: Codec, w: World)
    requires Lawful(c) && Inv(c, w)
    ensures QueuesEmpty(w.agent) && AgentOk(w.agent)
  {
  }

  /** A container appears only when a queued start runs, and only with the bound then in force not passed. */
  lemma CreatedWithinBound(c: Codec, r: Run, i: nat, a: AllocationId)
    requires Lawful(c) && IsRun(c, r) && i < |r.steps|
    requires StartCount(r.worlds[i + 1].rt, a) != StartCount(r.worlds[i].rt, a)
    ensures r.steps[i] == RunStart(a, false)
    ensures !BoundPassed(CurrentBound(r.worlds[i].agent, a), r.worlds[i].rt.now)
    ensures a in StateAt(r, i).intents && a !in StateAt(r, i).exits && a in r.worlds[i].agent.starting
  {
    hide Inv, Next, Init;
    RunInv(c, r, i);
    RunStep(c, r, i);
    CreatedStep(c, r.worlds[i], r.steps[i], r.worlds[i + 1], a);
  }

  lemma CreatedStep(c: Codec, w: World, s: Step, w': World, a: AllocationId)
    requires Lawful(c) && Inv(c, w) && Next(c, w, s, w') && StartCount(w'.rt, a) != StartCount(w.rt, a)
    ensures s == RunStart(a, false) && !BoundPassed(CurrentBound(w.agent, a), w.rt.now)
    ensures a in w.agent.state.intents && a !in w.agent.state.exits && a in w.agent.starting
  {
    hide Inv, Handle, Crashes, Performed;
    StepCounts(c, w, s, w');
    InflightIsLive(c, w, a);
  }

  lemma InflightIsLive(c: Codec, w: World, a: AllocationId)
    requires Lawful(c) && Inv(c, w)
    ensures a in w.inflight ==> a in w.agent.state.intents && a !in w.agent.state.exits && a in w.agent.starting
  {
    hide AgentOk, Clean, RuntimeInv;
    if a in w.agent.state.exits { assert Finished(w, a); }
  }

  /** What every prefix of a handler's effects does to journal and runtime, in any reachable world. */
  lemma HandledProgress(c: Codec, w: World, ev: Event, clock: Clock, k: nat)
    requires Lawful(c) && Inv(c, w) && Ready(w, ev)
    requires k <= |Handle(w.agent, Taken(w, ev).rt, ev, clock).fx|
    ensures var rt, o := Taken(w, ev).rt, Handle(w.agent, Taken(w, ev).rt, ev, clock);
            && EffectsOk(w.agent.state, rt, Unstarted(w), o.fx)
            && Progress(w.agent.state, rt, Unstarted(w), StateAfter(w.agent.state, o.fx[..k]),
                        RuntimeAfter(rt, o.fx[..k]))
            && (k == |o.fx| ==> o.fx[..k] == o.fx && StateAfter(w.agent.state, o.fx) == o.agent.state)
  {
    hide Handle, TasksInv, Clean;
    TakenKeepsInv(c, w, ev);
    HandleSound(c, w, ev, clock);
    PrefixProgress(w.agent.state, Taken(w, ev).rt, Unstarted(w), Handle(w.agent, Taken(w, ev).rt, ev, clock).fx, k);
  }

  /** Only a running start moves a start count. */
  lemma StepCounts(c: Codec, w: World, s: Step, w': World)
    requires Lawful(c) && Inv(c, w) && Next(c, w, s, w')
    ensures !s.RunStart? ==> w'.rt.startCounts == w.rt.startCounts
  {
    hide Inv, Handle, Scan, Canonical, EncodeLog, DiskAfter, CrashedDisk, StateAfter, RuntimeAfter, RuntimeOk,
         EvidenceOk, Accounted, Later;
    if s.Deliver? {
      HandledProgress(c, w, s.ev, s.clock, |Interrupts(w, s).fx|);
    } else if s.Crash? {
      HandledProgress(c, w, s.ev, s.clock, s.done);
    }
  }
}
