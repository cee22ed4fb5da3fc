/** Max-runtime watchdogs over any number of reconnects: re-armed every time, and when the budget is held. */
module Watchdogs {
  import opened Types
  import opened JournalState
  import opened Framing
  import opened Executor
  import opened Observed
  import opened SessionSpec
  import opened Effects
  import opened SessionProofs
  import opened System
  import opened Runs
  import opened FencingRuns
  import opened Registration

  // ---- the loop's deadline map ----

  /** When an armed watchdog fires, on the monotonic clock. */
  function Deadline(w: ArmedWatchdog): int { w.measuredAt + Max(w.firesAfter, 0) }

  function Folded(deadlines: map<AllocationId, int>, armed: seq<ArmedWatchdog>): map<AllocationId, int>
    decreases |armed|
  {
    if armed == [] then deadlines
    else
      var w := armed[0];
      var at := if w.allocation in deadlines then Min(deadlines[w.allocation], Deadline(w)) else Deadline(w);
      Folded(deadlines[w.allocation := at], armed[1..])
  }

  /** The loop's bookkeeping at the top of each turn: take the minimum per allocation, forget the ended. */
  method FoldWatchdogs(deadlines: map<AllocationId, int>, armed: seq<ArmedWatchdog>, ended: set<AllocationId>)
    returns (out: map<AllocationId, int>)
    ensures out == Folded(deadlines, armed) - ended
  {
    out := deadlines;
    assert armed[0..] == armed;
    for i := 0 to |armed|
      invariant Folded(out, armed[i..]) == Folded(deadlines, armed)
    {
      assert armed[i..][1..] == armed[i + 1..];
      var w := armed[i];
      var at := w.measuredAt + (if w.firesAfter > 0 then w.firesAfter else 0);
      if w.allocation in out && out[w.allocation] < at { at := out[w.allocation]; }
      out := out[w.allocation := at];
    }
    out := out - ended;
  }

  /** The deadlines a fold chooses between for one allocation. */
  ghost predicate Offered(deadlines: map<AllocationId, int>, armed: seq<ArmedWatchdog>, a: AllocationId, at: int) {
    || (a in deadlines && deadlines[a] == at)
    || exists i :: 0 <= i < |armed| && armed[i].allocation == a && Deadline(armed[i]) == at
  }

  /** Folding keeps exactly the earliest deadline ever offered: re-arming may tighten one, never postpone it. */
  lemma {:induction false} FoldKeepsEarliest(deadlines: map<AllocationId, int>, armed: seq<ArmedWatchdog>,
                                             a: AllocationId)
    ensures a in Folded(deadlines, armed) <==>
              a in deadlines || exists i :: 0 <= i < |armed| && armed[i].allocation == a
    ensures a in Folded(deadlines, armed) ==>
              && Offered(deadlines, armed, a, Folded(deadlines, armed)[a])
              && (a in deadlines ==> Folded(deadlines, armed)[a] <= deadlines[a])
              && (forall i :: 0 <= i < |armed| && armed[i].allocation == a ==>
                  Folded(deadlines, armed)[a] <= Deadline(armed[i]))
    decreases |armed|
  {
    if armed != [] {
      var w := armed[0];
      var at := if w.allocation in deadlines then Min(deadlines[w.allocation], Deadline(w)) else Deadline(w);
      var rest := deadlines[w.allocation := at];
      FoldKeepsEarliest(rest, armed[1..], a);
      FoldOffers(deadlines, armed, a);
    }
  }

  lemma FoldOffers(deadlines: map<AllocationId, int>, armed: seq<ArmedWatchdog>, a: AllocationId)
    requires armed != []
    ensures var w := armed[0];
            var at := if w.allocation in deadlines then Min(deadlines[w.allocation], Deadline(w)) else Deadline(w);
            forall t :: Offered(deadlines[w.allocation := at], armed[1..], a, t) ==> Offered(deadlines, armed, a, t)
  {
    var w := armed[0];
    var at := if w.allocation in deadlines then Min(deadlines[w.allocation], Deadline(w)) else Deadline(w);
    forall t | Offered(deadlines[w.allocation := at], armed[1..], a, t) ensures Offered(deadlines, armed, a, t) {
      if i :| 0 <= i < |armed| - 1 && armed[1..][i].allocation == a && Deadline(armed[1..][i]) == t {
        assert armed[i + 1] == armed[1..][i];
      } else if a == w.allocation {
        assert armed[0].allocation == a;
      }
    }
  }

  // ---- what a registration arms ----

  lemma {:induction false} RearmedMembers(s: State, cs: seq<Container>, at: int, w: ArmedWatchdog)
    ensures w in Rearmed(s, cs, at) <==> exists c :: c in cs && Bounded(s, c) && w == Rearm(s, c, at)
    decreases |cs|
  {
    if cs != [] {
      RearmedMembers(s, cs[1..], at, w);
      assert cs == [cs[0]] + cs[1..];
    }
  }

  /** A live container under a bound, as the runtime and the journal hold it. */
  predicate LiveBounded(w: World, a: AllocationId) {
    && a in w.rt.running && w.rt.running[a].state.IsRunning?
    && a in w.agent.state.intents && w.agent.state.intents[a].maxRuntime.Some?
  }

  /** The watchdog a registration arms for a live bounded container, by the runtime's reading of its age. */
  function RearmOf(w: World, a: AllocationId, anchor: int): ArmedWatchdog
    requires LiveBounded(w, a)
  {
    var left := w.agent.state.intents[a].maxRuntime.value - RunningView(w.rt, a).state.runtime;
    ArmedWatchdog(a, Max(ClampI64(left), 0), anchor)
  }

  /**
   * Every registration whose observation succeeds re-arms exactly the containers running under a bounded
   * intent, each with the budget it has left, anchored before the reading.
   */
  lemma RegistrationRearms(c: Codec, w: World, cmd: Command, clock: Clock, armed: ArmedWatchdog)
    requires Lawful(c) && Inv(c, w) && IsRegistration(w, cmd) && !w.rt.failObserve
    ensures armed in Registers(w, cmd, clock).agent.armedWatchdogs <==>
              LiveBounded(w, armed.allocation) && armed == RearmOf(w, armed.allocation, clock.mono)
  {
    hide Inv, Executor.Observed, HandleCommand, Admit, RunningView, ClampI64;
    var b := Admit(w.agent, cmd.header.value).agent;
    var cs := Executor.Observed(w.rt);
    RegistrationArms(w, cmd, clock);
    AdmitKeepsTables(w.agent, cmd.header.value);
    InvQueues(c, w);
    RearmedMembers(b.state, cs, clock.mono, armed);
    EvidenceOf(c, w, armed.allocation);
    if LiveBounded(w, armed.allocation) {
      var a := armed.allocation;
      ObservedMembers(w.rt, RunningView(w.rt, a));
      RunningIsSeenRunning(w.rt, a);
      SeenAsItself(w.rt, a);
      assert Bounded(b.state, RunningView(w.rt, a));
    }
    forall d | d in cs && Bounded(b.state, d) && armed == Rearm(b.state, d, clock.mono)
      ensures LiveBounded(w, d.allocation) && armed == RearmOf(w, d.allocation, clock.mono)
    {
      SeenRunning(w.rt, d);
    }
  }

  lemma RegistrationArms(w: World, cmd: Command, clock: Clock)
    requires IsRegistration(w, cmd)
    ensures var b := Admit(w.agent, cmd.header.value).agent;
            Registers(w, cmd, clock).agent.armedWatchdogs ==
                w.agent.armedWatchdogs + Rearmed(b.state, Seen(w.rt), clock.mono)
  {
    hide UnresolveAll, ObservedSet, Seen, SpentIds, Rearmed, Admit;
    AdmitKeeps(w.agent, cmd.header.value);
  }

  lemma SeenAsItself(rt: Runtime, a: AllocationId)
    requires RuntimeOk(rt) && a in rt.running
    ensures RunningView(rt, a).allocation == a
  {
  }

  lemma SeenRunning(rt: Runtime, d: Container)
    requires RuntimeOk(rt) && d in Executor.Observed(rt) && d.state.IsRunning?
    ensures d.allocation in rt.running && d == RunningView(rt, d.allocation)
  {
    hide Executor.Observed;
    ObservedMembers(rt, d);
    forall b | b in rt.running ensures RunningView(rt, b).allocation == b { SeenAsItself(rt, b); }
  }

  // ---- when a container started ----

  lemma FinishKeepsStamps(rt: Runtime, a: AllocationId, exit: ExitInfo)
    ensures Finish(rt, a, exit).startedAt == rt.startedAt
  {
  }

  lemma EffectKeepsStamps(rt: Runtime, e: Effect)
    ensures RuntimeAfterOne(rt, e).startedAt == rt.startedAt
  {
    hide Finish;
    if e.Signal? && e.allocation in rt.exitOnSignal {
      FinishKeepsStamps(rt.(signals := rt.signals + [(e.allocation, e.signal)]), e.allocation,
                        ExitInfo(rt.exitOnSignal[e.allocation].1, Natural, RanFor(rt, e.allocation), rt.now));
    }
  }

  lemma {:induction false} EffectsKeepStamps(rt: Runtime, fx: seq<Effect>)
    ensures RuntimeAfter(rt, fx).startedAt == rt.startedAt
    decreases |fx|
  {
    hide RuntimeAfterOne;
    if fx != [] {
      EffectKeepsStamps(rt, fx[0]);
      EffectsKeepStamps(RuntimeAfterOne(rt, fx[0]), fx[1..]);
    }
  }

  /** Only a container being created is stamped. */
  lemma StepKeepsStamps(c: Codec, w: World, s: Step, w': World)
    requires Lawful(c) && Next(c, w, s, w') && !s.RunStart?
    ensures w'.rt.startedAt == w.rt.startedAt
  {
    hide Handle, Scan, Canonical, EncodeLog, DiskAfter, CrashedDisk, RuntimeAfter, WithSpecs;
    if s.Deliver? {
      EffectsKeepStamps(Taken(w, s.ev).rt, Interrupts(w, s).fx);
    } else if s.Crash? {
      EffectsKeepStamps(Taken(w, s.ev).rt, Interrupts(w, s).fx[..s.done]);
    }
  }

  lemma StartStamps(rt: Runtime, b: AllocationId, attempt: AttemptId, job: JobId, bound: Option<Timestamp>,
                    a: AllocationId)
    requires StartCount(rt, a) >= 1 ==> a in rt.startedAt
    requires StartCount(StartContainer(rt, b, attempt, job, bound).0, a) <= 1
    ensures var rt' := StartContainer(rt, b, attempt, job, bound).0;
            && (StartCount(rt', a) >= 1 ==> a in rt'.startedAt)
            && (StartCount(rt, a) >= 1 ==> StartCount(rt', a) >= 1 && rt'.startedAt[a] == rt.startedAt[a])
  {
  }

  lemma StepStamps(c: Codec, w: World, s: Step, w': World, a: AllocationId)
    requires Lawful(c) && Inv(c, w) && Next(c, w, s, w') && StartCount(w'.rt, a) <= 1
    requires StartCount(w.rt, a) >= 1 ==> a in w.rt.startedAt
    ensures StartCount(w'.rt, a) >= 1 ==> a in w'.rt.startedAt
    ensures StartCount(w.rt, a) >= 1 ==> StartCount(w'.rt, a) >= 1 && w'.rt.startedAt[a] == w.rt.startedAt[a]
  {
    hide Inv, Crashes, Performed, StopRun, Finish, StartContainer, StartCount;
    StepCounts(c, w, s, w');
    if s.RunStart? {
      var spec := w.specs[s.alloc];
      if !s.gaveUp { StartStamps(w.rt, s.alloc, spec.attempt, spec.job, CurrentBound(w.agent, s.alloc), a); }
    } else {
      StepKeepsStamps(c, w, s, w');
      SameCounts(w.rt, w'.rt, a);
    }
  }

  lemma SameCounts(rt: Runtime, rt': Runtime, a: AllocationId)
    requires rt'.startCounts == rt.startCounts
    ensures StartCount(rt', a) == StartCount(rt, a)
  {
  }

  lemma OneStart(c: Codec, w: World, a: AllocationId)
    requires Lawful(c) && Inv(c, w)
    ensures StartCount(w.rt, a) <= 1
  {
  }

  lemma {:induction false} RunStamped(c: Codec, r: Run, i: nat, a: AllocationId)
    requires Lawful(c) && IsRun(c, r) && i < |r.worlds| && StartCount(r.worlds[i].rt, a) >= 1
    ensures a in r.worlds[i].rt.startedAt
  {
    hide Inv, Next, EncodeLog, Canonical, NewAgent;
    if i > 0 {
      RunInv(c, r, i - 1);
      RunInv(c, r, i);
      OneStart(c, r.worlds[i], a);
      RunStep(c, r, i - 1);
      if StartCount(r.worlds[i - 1].rt, a) >= 1 { RunStamped(c, r, i - 1, a); }
      StepStamps(c, r.worlds[i - 1], r.steps[i - 1], r.worlds[i], a);
    }
  }

  /** Over every run, crashes and reconnects included, a started container's start time never changes. */
  lemma {:induction false} StartTimeIsFixed(c: Codec, r: Run, i: nat, j: nat, a: AllocationId)
    requires Lawful(c) && IsRun(c, r) && i <= j < |r.worlds| && StartCount(r.worlds[i].rt, a) >= 1
    ensures a in r.worlds[i].rt.startedAt && a in r.worlds[j].rt.startedAt
    ensures r.worlds[j].rt.startedAt[a] == r.worlds[i].rt.startedAt[a]
    decreases j - i
  {
    hide Inv, Next, Init;
    RunStamped(c, r, i, a);
    if i < j {
      RunInv(c, r, i);
      RunInv(c, r, i + 1);
      OneStart(c, r.worlds[i + 1], a);
      RunStep(c, r, i);
      StepStamps(c, r.worlds[i], r.steps[i], r.worlds[i + 1], a);
      StartTimeIsFixed(c, r, i + 1, j, a);
    }
  }

  // ---- the loop's deadlines over a run ----

  /** What handing an event over takes off the map: the exit's own entry, or the one that fired. */
  function Unwatched(deadlines: map<AllocationId, int>, ev: Event): map<AllocationId, int> {
    if ev.ExitSeen? || ev.WatchdogFires? then deadlines - {ev.alloc} else deadlines
  }

  /** The watchdogs a step arms: what the handler it runs to the end queues. */
  function ArmedBy(w: World, s: Step): seq<ArmedWatchdog> {
    if s.Deliver? && Enabled(w, s) then Interrupts(w, s).agent.armedWatchdogs else []
  }

  /** The loop's deadlines after a step: folded after every handled event, lost with the process. */
  function DeadlinesAfter(deadlines: map<AllocationId, int>, w: World, s: Step, w': World): map<AllocationId, int> {
    if s.Crash? then map[]
    else if !s.Deliver? then deadlines
    else Folded(Unwatched(deadlines, s.ev), ArmedBy(w, s)) - w'.agent.state.exits.Keys
  }

  function DeadlinesAt(r: Run, i: nat): map<AllocationId, int>
    requires i < |r.worlds| == |r.steps| + 1
  {
    if i == 0 then map[]
    else DeadlinesAfter(DeadlinesAt(r, i - 1), r.worlds[i - 1], r.steps[i - 1], r.worlds[i])
  }

  /** A step that ends the watch over `a`: its exit or its own watchdog handed over, or the process gone. */
  predicate EndsWatch(s: Step, a: AllocationId) {
    s.Crash? || (s.Deliver? && (s.ev.ExitSeen? || s.ev.WatchdogFires?) && s.ev.alloc == a)
  }

  /** From `i` to `j` nothing ends the watch over `a`, and at `j` its exit is not journaled. */
  ghost predicate Watched(r: Run, i: nat, j: nat, a: AllocationId)
    requires j < |r.worlds| == |r.steps| + 1
  {
    a !in StateAt(r, j).exits && forall k :: i <= k < j ==> !EndsWatch(r.steps[k], a)
  }

  lemma StepKeepsDeadline(deadlines: map<AllocationId, int>, w: World, s: Step, w': World, a: AllocationId)
    requires a in deadlines && !EndsWatch(s, a) && a !in w'.agent.state.exits
    ensures var after := DeadlinesAfter(deadlines, w, s, w'); a in after && after[a] <= deadlines[a]
  {
    hide Folded, ArmedBy;
    if s.Deliver? { FoldKeepsEarliest(Unwatched(deadlines, s.ev), ArmedBy(w, s), a); }
  }

  lemma StepFoldsArmed(deadlines: map<AllocationId, int>, w: World, s: Step, w': World, armed: ArmedWatchdog)
    requires armed in ArmedBy(w, s) && armed.allocation !in w'.agent.state.exits
    ensures var after := DeadlinesAfter(deadlines, w, s, w');
            armed.allocation in after && after[armed.allocation] <= Deadline(armed)
  {
    hide Folded, Interrupts, Deadline;
    var ws := ArmedBy(w, s);
    var i :| 0 <= i < |ws| && ws[i] == armed;
    FoldKeepsEarliest(Unwatched(deadlines, s.ev), ws, armed.allocation);
  }

  /** A deadline once held stays held, and is never postponed, until its exit, its firing or a crash. */
  lemma {:induction false} DeadlineIsKept(c: Codec, r: Run, i: nat, j: nat, a: AllocationId)
    requires Lawful(c) && IsRun(c, r) && i <= j < |r.worlds| && Watched(r, i, j, a) && a in DeadlinesAt(r, i)
    ensures a in DeadlinesAt(r, j) && DeadlinesAt(r, j)[a] <= DeadlinesAt(r, i)[a]
    decreases j - i
  {
    hide Next, Init, DeadlinesAfter, EndsWatch;
    if i < j {
      RunLater(c, r, i + 1, j);
      StepKeepsDeadline(DeadlinesAt(r, i), r.worlds[i], r.steps[i], r.worlds[i + 1], a);
      DeadlineIsKept(c, r, i + 1, j, a);
    }
  }

  /** The deadline `at` was armed for `a` at a step no crash separates from `j`. */
  ghost predicate ArmedSinceCrash(r: Run, j: nat, a: AllocationId, at: int)
    requires j < |r.worlds| == |r.steps| + 1
  {
    exists k, armed ::
      && 0 <= k < j && armed in ArmedBy(r.worlds[k], r.steps[k]) && armed.allocation == a && Deadline(armed) == at
      && forall i :: k <= i < j ==> !r.steps[i].Crash?
  }

  lemma ArmedEarlier(r: Run, j: nat, a: AllocationId, at: int)
    requires j + 1 < |r.worlds| == |r.steps| + 1 && ArmedSinceCrash(r, j, a, at) && !r.steps[j].Crash?
    ensures ArmedSinceCrash(r, j + 1, a, at)
  {
    hide ArmedBy, Deadline;
  }

  /** A deadline held is one some handler armed since the last crash: nothing else ever sets or tightens it. */
  lemma {:induction false} DeadlineWasArmed(r: Run, j: nat, a: AllocationId)
    requires j < |r.worlds| == |r.steps| + 1 && a in DeadlinesAt(r, j)
    ensures ArmedSinceCrash(r, j, a, DeadlinesAt(r, j)[a])
  {
    hide Folded, ArmedBy, Deadline, ArmedSinceCrash;
    var s, earlier := r.steps[j - 1], DeadlinesAt(r, j - 1);
    if s.Deliver? {
      var ws := ArmedBy(r.worlds[j - 1], s);
      FoldKeepsEarliest(Unwatched(earlier, s.ev), ws, a);
      if a in earlier && earlier[a] == DeadlinesAt(r, j)[a] {
        DeadlineWasArmed(r, j - 1, a);
        ArmedEarlier(r, j - 1, a, earlier[a]);
      } else {
        var i :| 0 <= i < |ws| && ws[i].allocation == a && Deadline(ws[i]) == DeadlinesAt(r, j)[a];
        JustArmed(r, j - 1, ws[i]);
      }
    } else {
      DeadlineWasArmed(r, j - 1, a);
      ArmedEarlier(r, j - 1, a, earlier[a]);
    }
  }

  lemma JustArmed(r: Run, j: nat, armed: ArmedWatchdog)
    requires j + 1 < |r.worlds| == |r.steps| + 1 && armed in ArmedBy(r.worlds[j], r.steps[j])
    ensures ArmedSinceCrash(r, j + 1, armed.allocation, Deadline(armed))
  {
    hide Interrupts, Deadline;
  }

  // ---- the budget over any number of reconnects ----

  /** Start plus bound, moved to the monotonic clock by the offset `d`; or at once, if that is past. */
  function Due(w: World, a: AllocationId, mono: int, d: int): int
    requires LiveBounded(w, a) && a in w.rt.startedAt
  {
    Max(w.rt.startedAt[a] - d + w.agent.state.intents[a].maxRuntime.value, mono)
  }

  lemma RearmWithinBudget(w: World, a: AllocationId, mono: int, d: int)
    requires RuntimeOk(w.rt) && LiveBounded(w, a) && a in w.rt.startedAt && w.rt.now >= mono + d
    ensures Deadline(RearmOf(w, a, mono)) <= Due(w, a, mono, d)
    ensures w.rt.now == mono + d >= w.rt.startedAt[a] ==> Deadline(RearmOf(w, a, mono)) == Due(w, a, mono, d)
  {
  }

  /**
   * Every registration of a run whose observation succeeds arms exactly the live bounded containers, each
   * with a deadline no later than its start plus its bound, or at once if that is past; and exactly then
   * when the clocks agree. The one assumption is on the clocks: the anchor `mono`, taken first, is not
   * ahead of the runtime's later reading by more than their fixed offset `d`.
   */
  lemma RegistrationArmsWithinBudget(c: Codec, r: Run, k: nat, cmd: Command, d: int, a: AllocationId)
    requires Lawful(c) && IsRun(c, r) && AcceptedAt(r, k, cmd) && cmd.body.value.RegisterAccepted?
    requires !r.worlds[k].rt.failObserve && r.worlds[k].rt.now >= r.steps[k].clock.mono + d
    ensures (exists armed :: armed in ArmedBy(r.worlds[k], r.steps[k]) && armed.allocation == a) <==>
              LiveBounded(r.worlds[k], a)
    ensures LiveBounded(r.worlds[k], a) ==>
              var w, mono := r.worlds[k], r.steps[k].clock.mono;
              a in w.rt.startedAt && forall armed :: armed in ArmedBy(w, r.steps[k]) && armed.allocation == a ==>
                && Deadline(armed) <= Due(w, a, mono, d)
                && (w.rt.now == mono + d >= w.rt.startedAt[a] ==> Deadline(armed) == Due(w, a, mono, d))
  {
    hide Inv, Next, Init, Deadline, Due, RearmOf, LiveBounded, ArmedBy;
    var w, s := r.worlds[k], r.steps[k];
    RunInv(c, r, k);
    RunStep(c, r, k);
    EvidenceOf(c, w, a);
    forall armed ensures armed in ArmedBy(w, s) <==>
        LiveBounded(w, armed.allocation) && armed == RearmOf(w, armed.allocation, s.clock.mono)
    {
      ArmedByRegistration(c, w, s, cmd, armed);
    }
    RearmIsItsOwn(w, a, s.clock.mono);
    if LiveBounded(w, a) {
      LiveIsStarted(w, a);
      RunStamped(c, r, k, a);
      RearmWithinBudget(w, a, s.clock.mono, d);
      assert RearmOf(w, a, s.clock.mono) in ArmedBy(w, s);
    }
  }

  lemma RearmIsItsOwn(w: World, a: AllocationId, mono: int)
    ensures LiveBounded(w, a) ==> RearmOf(w, a, mono).allocation == a
  {
  }

  lemma LiveIsStarted(w: World, a: AllocationId)
    requires LiveBounded(w, a)
    ensures Visible(w.rt, a)
  {
  }

  lemma ArmedByRegistration(c: Codec, w: World, s: Step, cmd: Command, armed: ArmedWatchdog)
    requires Lawful(c) && Inv(c, w) && Enabled(w, s) && s.Deliver? && s.ev == CommandArrives(cmd)
    requires IsRegistration(w, cmd) && !w.rt.failObserve
    ensures armed in ArmedBy(w, s) <==>
              LiveBounded(w, armed.allocation) && armed == RearmOf(w, armed.allocation, s.clock.mono)
  {
    hide Inv, HandleCommand, LiveBounded, RearmOf;
    RegistrationRearms(c, w, cmd, s.clock, armed);
  }

  // ---- when a handed-over watchdog does not end its container ----

  /** Step `s` hands over a watchdog of `a` that the session ignores, its start or a stop being in flight. */
  predicate Swallows(w: World, s: Step, a: AllocationId) {
    s.Deliver? && s.ev == WatchdogFires(a) && (a in w.agent.starting || a in w.agent.stopping)
  }

  lemma WatchdogEndsIff(a: Agent, rt: Runtime, x: AllocationId)
    requires Visible(rt, x) && RuntimeOk(rt) && x in a.state.intents && x !in a.state.exits
    ensures x in OnMaxRuntime(a, rt, x).agent.state.exits <==> x !in a.starting && x !in a.stopping
    ensures x in a.starting || x in a.stopping ==> OnMaxRuntime(a, rt, x) == Unchanged(a)
  {
    hide AttributionOf, ClassifyExit;
  }

  /**
   * Over any run, a watchdog handed over for a container the runtime holds ends its attempt iff it is not
   * swallowed.
   */
  lemma HandedOverWatchdogEndsIff(c: Codec, r: Run, i: nat, a: AllocationId)
    requires Lawful(c) && IsRun(c, r) && i < |r.steps| && r.steps[i].Deliver? && r.steps[i].ev == WatchdogFires(a)
    requires Visible(r.worlds[i].rt, a) && a !in StateAt(r, i).exits
    ensures a in StateAt(r, i + 1).exits <==> !Swallows(r.worlds[i], r.steps[i], a)
    ensures Swallows(r.worlds[i], r.steps[i], a) ==> a !in DeadlinesAt(r, i + 1)
  {
    hide Inv, Init, Next, DeadlinesAfter;
    RunInv(c, r, i);
    RunStep(c, r, i);
    WatchdogStep(c, r.worlds[i], r.steps[i], r.worlds[i + 1], DeadlinesAt(r, i), a);
  }

  lemma WatchdogStep(c: Codec, w: World, s: Step, w': World, deadlines: map<AllocationId, int>, a: AllocationId)
    requires Lawful(c) && Inv(c, w) && Next(c, w, s, w') && s.Deliver? && s.ev == WatchdogFires(a)
    requires Visible(w.rt, a) && a !in w.agent.state.exits
    ensures a in w'.agent.state.exits <==> !Swallows(w, s, a)
    ensures Swallows(w, s, a) ==> a !in DeadlinesAfter(deadlines, w, s, w')
  {
    hide Inv, OnMaxRuntime, DiskAfter, RuntimeAfter, WithSpecs, Visible;
    EvidenceOf(c, w, a);
    InvQueues(c, w);
    WatchdogEndsIff(w.agent, w.rt, a);
  }

  // ---- the budget of a container still running ----

  lemma HandledRestartsNothing(c: Codec, w: World, s: Step, w': World, a: AllocationId)
    requires Lawful(c) && Inv(c, w) && Next(c, w, s, w') && (s.Deliver? || s.Crash?) && a in w'.rt.running
    ensures a in w.rt.running
  {
    hide Inv, Handle, Scan, Canonical, EncodeLog, DiskAfter, CrashedDisk, StateAfter, RuntimeAfter, WithSpecs,
         RuntimeOk, EvidenceOk, Accounted, Later, FreshExitsQuiet, Visible, Labels, EffectsOk;
    if s.Deliver? {
      HandledProgress(c, w, s.ev, s.clock, |Interrupts(w, s).fx|);
    } else {
      HandledProgress(c, w, s.ev, s.clock, s.done);
    }
  }

  lemma EndingStartsNothing(rt: Runtime, b: AllocationId, exit: ExitInfo, a: AllocationId)
    ensures a in StopContainer(rt, b).0.running || a in Finish(rt, b, exit).running ==> a in rt.running
  {
  }

  lemma StepRestartsNothing(c: Codec, w: World, s: Step, w': World, a: AllocationId)
    requires Lawful(c) && Inv(c, w) && Next(c, w, s, w') && StartCount(w.rt, a) >= 1 && a in w'.rt.running
    ensures a in w.rt.running
  {
    hide Inv, Crashes, Performed, StartCount, StopContainer, Finish;
    if s.Deliver? || s.Crash? {
      HandledRestartsNothing(c, w, s, w', a);
    } else if s.RunStop? {
      EndingStartsNothing(w.rt, s.alloc, ExitInfo(0, Natural, 0, 0), a);
    } else if s.ContainerExits? {
      EndingStartsNothing(w.rt, s.alloc, s.exit, a);
    } else {
      OneQueuedStart(c, w, a);
    }
  }

  lemma OneQueuedStart(c: Codec, w: World, a: AllocationId)
    requires Lawful(c) && Inv(c, w)
    ensures StartCount(w.rt, a) + w.inflight[a] <= 1
  {
  }

  /** A container running late in a run has been running ever since it started, its exit unjournaled. */
  lemma {:induction false} RunningSinceStart(c: Codec, r: Run, i: nat, j: nat, a: AllocationId)
    requires Lawful(c) && IsRun(c, r) && i <= j < |r.worlds|
    requires StartCount(r.worlds[i].rt, a) >= 1 && a in r.worlds[j].rt.running
    ensures a in r.worlds[i].rt.running && a !in StateAt(r, i).exits && Visible(r.worlds[i].rt, a)
    decreases j - i
  {
    hide Inv, Init, Next, StartCount;
    RunInv(c, r, i);
    EvidenceOf(c, r.worlds[i], a);
    if i < j {
      RunStep(c, r, i);
      StartsStay(c, r, i, a);
      RunningSinceStart(c, r, i + 1, j, a);
      StepRestartsNothing(c, r.worlds[i], r.steps[i], r.worlds[i + 1], a);
    }
  }

  lemma StartsStay(c: Codec, r: Run, i: nat, a: AllocationId)
    requires Lawful(c) && IsRun(c, r) && i < |r.steps| && StartCount(r.worlds[i].rt, a) >= 1
    ensures StartCount(r.worlds[i + 1].rt, a) >= 1
  {
    hide Inv, Init, Next;
    RunInv(c, r, i);
    RunInv(c, r, i + 1);
    RunStep(c, r, i);
    RunStamped(c, r, i, a);
    OneStart(c, r.worlds[i + 1], a);
    StepStamps(c, r.worlds[i], r.steps[i], r.worlds[i + 1], a);
  }

  /** A step that takes the deadline of a running container: a crash, or a watchdog swallowed. */
  predicate LosesWatch(w: World, s: Step, a: AllocationId) { s.Crash? || Swallows(w, s, a) }

  /** For a container running at `j`, nothing but such a step ends the watch. */
  lemma RunningIsWatched(c: Codec, r: Run, i: nat, m: nat, j: nat, a: AllocationId)
    requires Lawful(c) && IsRun(c, r) && i <= m < j < |r.worlds|
    requires StartCount(r.worlds[i].rt, a) >= 1 && a in r.worlds[j].rt.running
    ensures EndsWatch(r.steps[m], a) ==> LosesWatch(r.worlds[m], r.steps[m], a)
  {
    hide Inv, Init, Next, StartCount, Visible;
    StartedStays(c, r, i, m, a);
    StartedStays(c, r, i, m + 1, a);
    RunningSinceStart(c, r, m, j, a);
    RunningSinceStart(c, r, m + 1, j, a);
    RunInv(c, r, m);
    RunStep(c, r, m);
    if r.steps[m].Deliver? && r.steps[m].ev == WatchdogFires(a) {
      HandedOverWatchdogEndsIff(c, r, m, a);
    } else if r.steps[m].Deliver? && r.steps[m].ev.ExitSeen? {
      SeenIsNotRunning(c, r.worlds[m], r.steps[m], r.worlds[m + 1]);
    }
  }

  lemma SeenIsNotRunning(c: Codec, w: World, s: Step, w': World)
    requires Lawful(c) && Inv(c, w) && Next(c, w, s, w') && s.Deliver? && s.ev.ExitSeen?
    ensures s.ev.alloc !in w.rt.running
  {
    hide Moves, Crashes, Clean, TasksInv, RuntimeOk;
    assert Queued(w.rt, w.rt.queue[0]);
  }

  lemma {:induction false} StartedStays(c: Codec, r: Run, i: nat, j: nat, a: AllocationId)
    requires Lawful(c) && IsRun(c, r) && i <= j < |r.worlds| && StartCount(r.worlds[i].rt, a) >= 1
    ensures StartCount(r.worlds[j].rt, a) >= 1
    decreases j - i
  {
    hide Init, Next, StartCount;
    if i < j {
      StartsStay(c, r, i, a);
      StartedStays(c, r, i + 1, j, a);
    }
  }

  /** At every point after `k` and up to `j` the loop holds a deadline for `a`, no later than `due`. */
  ghost predicate HeldBy(r: Run, k: nat, j: nat, a: AllocationId, due: int)
    requires k < j < |r.worlds| == |r.steps| + 1
  {
    forall m: nat :: k < m <= j ==> a in DeadlinesAt(r, m) && DeadlinesAt(r, m)[a] <= due
  }

  /** No step after `k` and before `j` takes the deadline of `a`. */
  ghost predicate WatchKept(r: Run, k: nat, j: nat, a: AllocationId)
    requires k < j < |r.worlds| == |r.steps| + 1
  {
    forall m :: k < m < j ==> !LosesWatch(r.worlds[m], r.steps[m], a)
  }

  lemma HeldIsKept(c: Codec, r: Run, k: nat, j: nat, a: AllocationId, due: int)
    requires Lawful(c) && IsRun(c, r) && k < j < |r.worlds| && HeldBy(r, k, j, a, due)
    requires StartCount(r.worlds[k].rt, a) >= 1 && a in r.worlds[j].rt.running
    ensures WatchKept(r, k, j, a)
  {
    hide Next, Init, DeadlinesAfter, StartCount, LosesWatch, Visible;
    forall m | k < m < j ensures !LosesWatch(r.worlds[m], r.steps[m], a) {
      StartedStays(c, r, k, m, a);
      RunningSinceStart(c, r, m, j, a);
      assert a in DeadlinesAt(r, m + 1);
      LostIsGone(c, r, m, a);
    }
  }

  lemma LostIsGone(c: Codec, r: Run, m: nat, a: AllocationId)
    requires Lawful(c) && IsRun(c, r) && m < |r.steps| && Visible(r.worlds[m].rt, a) && a !in StateAt(r, m).exits
    ensures LosesWatch(r.worlds[m], r.steps[m], a) ==> a !in DeadlinesAt(r, m + 1)
  {
    hide Next, Init, Visible;
    if Swallows(r.worlds[m], r.steps[m], a) { HandedOverWatchdogEndsIff(c, r, m, a); }
  }

  lemma KeptAt(c: Codec, r: Run, k: nat, m: nat, j: nat, a: AllocationId)
    requires Lawful(c) && IsRun(c, r) && k < m <= j < |r.worlds| && WatchKept(r, k, j, a)
    requires StartCount(r.worlds[k].rt, a) >= 1 && a in r.worlds[j].rt.running && a in DeadlinesAt(r, k + 1)
    ensures a in DeadlinesAt(r, m) && DeadlinesAt(r, m)[a] <= DeadlinesAt(r, k + 1)[a]
  {
    hide Next, Init, DeadlinesAt, StartCount, LosesWatch, Visible, EndsWatch;
    StartedStays(c, r, k, m, a);
    RunningSinceStart(c, r, m, j, a);
    forall n | k + 1 <= n < m ensures !EndsWatch(r.steps[n], a) {
      assert !LosesWatch(r.worlds[n], r.steps[n], a);
      RunningIsWatched(c, r, k, n, j, a);
    }
    DeadlineIsKept(c, r, k + 1, m, a);
  }

  lemma KeptIsHeld(c: Codec, r: Run, k: nat, j: nat, a: AllocationId, due: int)
    requires Lawful(c) && IsRun(c, r) && k < j < |r.worlds| && WatchKept(r, k, j, a)
    requires StartCount(r.worlds[k].rt, a) >= 1 && a in r.worlds[j].rt.running
    requires a in DeadlinesAt(r, k + 1) && DeadlinesAt(r, k + 1)[a] <= due
    ensures HeldBy(r, k, j, a, due)
  {
    hide Init, Next, DeadlinesAfter, StartCount, WatchKept;
    forall m: nat | k < m <= j ensures a in DeadlinesAt(r, m) && DeadlinesAt(r, m)[a] <= due {
      KeptAt(c, r, k, m, j, a);
    }
  }

  /**
   * The runtime budget over any number of reconnects. For a container live under a bound at a registration and
   * still running at `j`, the loop holds throughout a deadline no later than its start plus its bound, or than
   * that registration if it found the bound overrun, if and only if the agent did not crash and no watchdog of
   * the container was swallowed. A crash loses the map and the next registration arms again within the budget;
   * a swallowed watchdog is not made up for, and a start that comes back after it is granted the whole bound.
   */
  lemma BudgetHeldIff(c: Codec, r: Run, k: nat, j: nat, cmd: Command, d: int, a: AllocationId)
    requires Lawful(c) && IsRun(c, r) && AcceptedAt(r, k, cmd) && cmd.body.value.RegisterAccepted?
    requires !r.worlds[k].rt.failObserve && r.worlds[k].rt.now >= r.steps[k].clock.mono + d
    requires LiveBounded(r.worlds[k], a) && k < j < |r.worlds| && a in r.worlds[j].rt.running
    ensures a in r.worlds[j].rt.startedAt && a in StateAt(r, j).intents && StateAt(r, j).intents[a].maxRuntime.Some?
    ensures var budget := r.worlds[j].rt.startedAt[a] - d + StateAt(r, j).intents[a].maxRuntime.value;
            HeldBy(r, k, j, a, Max(budget, r.steps[k].clock.mono)) <==> WatchKept(r, k, j, a)
  {
    hide Inv, Next, Init, Deadline, ArmedBy, DeadlinesAfter, StartCount, HeldBy, WatchKept;
    RegistrationArmsWithinBudget(c, r, k, cmd, d, a);
    var armed :| armed in ArmedBy(r.worlds[k], r.steps[k]) && armed.allocation == a;
    RunLater(c, r, k, j);
    RunInv(c, r, k);
    EvidenceOf(c, r.worlds[k], a);
    StartTimeIsFixed(c, r, k, j, a);
    StartsStay(c, r, k, a);
    RunningSinceStart(c, r, k + 1, j, a);
    StepFoldsArmed(DeadlinesAt(r, k), r.worlds[k], r.steps[k], r.worlds[k + 1], armed);
    var due := Max(r.worlds[j].rt.startedAt[a] - d + StateAt(r, j).intents[a].maxRuntime.value, r.steps[k].clock.mono);
    if WatchKept(r, k, j, a) { KeptIsHeld(c, r, k, j, a, due); }
    if HeldBy(r, k, j, a, due) { HeldIsKept(c, r, k, j, a, due); }
  }
}
