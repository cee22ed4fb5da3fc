/**
 * The session core as it is written: one object whose handlers update its fields, append to its journal
 * and call its executor. Every handler is proved to do exactly what its specification function says, to
 * its own memory, to the bytes on disk and to the runtime.
 */
module AgentSession {
  import opened Types
  import opened JournalState
  import opened Framing
  import opened Executor
  import opened Observed
  import Spec = SessionSpec
  import opened SessionSpec
  import opened Effects
  import opened Journal
  import opened FakeRuntime
  import opened System

  lemma {:induction false} DiskConcat(c: Codec, disk: seq<byte>, f: seq<Effect>, g: seq<Effect>)
    requires Lawful(c)
    ensures DiskAfter(c, disk, f + g) == DiskAfter(c, DiskAfter(c, disk, f), g)
    decreases |f|
  {
    if f == [] {
      assert f + g == g;
    } else {
      assert (f + g)[0] == f[0] && (f + g)[1..] == f[1..] + g;
      DiskConcat(c, if f[0].Append? then disk + Frame(c, f[0].record) else disk, f[1..], g);
    }
  }

  /** One more effect at the end of a trace. */
  lemma TraceGrows(c: Codec, disk: seq<byte>, rt: Runtime, trace: seq<Effect>, e: Effect)
    requires Lawful(c)
    ensures RuntimeAfter(rt, trace + [e]) == RuntimeAfterOne(RuntimeAfter(rt, trace), e)
    ensures var d := DiskAfter(c, disk, trace);
            DiskAfter(c, disk, trace + [e]) == if e.Append? then d + Frame(c, e.record) else d
  {
    hide Frame, StopContainer, SignalContainer;
    EffectsConcat(EMPTY, rt, {}, trace, [e]);
    OneEffect(EMPTY, RuntimeAfter(rt, trace), {}, e);
    DiskConcat(c, disk, trace, [e]);
    var none: seq<Effect> := [];
    assert [e][1..] == none;
  }

  class Session {
    const journal: File
    const executor: FakeExecutor
    var state: State
    var epoch: u64
    var lastSeq: Option<u64>
    var registered: bool
    var draining: bool
    var starting: set<AllocationId>
    var launchBounds: map<AllocationId, StartBound>
    var stopping: set<AllocationId>
    var deferredExits: map<AllocationId, ExitInfo>
    var stopAbandoned: set<AllocationId>
    var stopRetryAt: map<AllocationId, Timestamp>
    var pendingStarts: seq<StartSpec>
    var pendingStops: seq<StopRequest>
    var pendingReaps: seq<AllocationId>
    var armedWatchdogs: seq<ArmedWatchdog>

    /** What the handler now running has done, and what it started from. */
    ghost var trace: seq<Effect>
    ghost var bytesBefore: seq<byte>
    ghost var runtimeBefore: Runtime

    ghost function View(): Agent
      reads this
    {
      Agent(state, epoch, lastSeq, registered, draining, starting, launchBounds, stopping, deferredExits,
            stopAbandoned, stopRetryAt, pendingStarts, pendingStops, pendingReaps, armedWatchdogs)
    }

    ghost predicate Valid()
      reads this
    {
      Lawful(journal.codec)
    }

    /** Disk and runtime are exactly what the trace makes of what the handler started from. */
    ghost predicate Synced()
      reads this, journal, executor, executor.inner
    {
      && Lawful(journal.codec)
      && journal.bytes == DiskAfter(journal.codec, bytesBefore, trace)
      && executor.View() == RuntimeAfter(runtimeBefore, trace)
    }

    /** Part of a handler has been done: this much memory, this much trace. */
    twostate predicate Did(o: Out)
      reads this, journal, executor, executor.inner
    {
      && Synced() && View() == o.agent && trace == old(trace) + o.fx
      && bytesBefore == old(bytesBefore) && runtimeBefore == old(runtimeBefore)
    }

    /** A whole handler has been done: its memory, its appends on disk, its effects on the runtime. */
    twostate predicate Handled(o: Out)
      requires old(Valid())
      reads this, journal, executor, executor.inner
    {
      && Valid() && View() == o.agent
      && journal.bytes == DiskAfter(journal.codec, old(journal.bytes), o.fx)
      && executor.View() == RuntimeAfter(old(executor.View()), o.fx)
    }

    constructor (journal: File, state: State, executor: FakeExecutor)
      requires Lawful(journal.codec)
      ensures Valid() && this.journal == journal && this.executor == executor && View() == NewAgent(state)
    {
      this.journal, this.state, this.executor := journal, state, executor;
      epoch, lastSeq, registered, draining := state.watermark.nodeEpoch, None, false, false;
      starting, launchBounds, stopping, deferredExits := {}, map[], {}, map[];
      stopAbandoned, stopRetryAt := {}, map[];
      pendingStarts, pendingStops, pendingReaps, armedWatchdogs := [], [], [], [];
    }

    ghost method Begin()
      requires Valid()
      modifies this`trace, this`bytesBefore, this`runtimeBefore
      ensures Synced() && trace == [] && bytesBefore == journal.bytes && runtimeBefore == executor.View()
    {
      trace, bytesBefore, runtimeBefore := [], journal.bytes, executor.View();
    }

    // ---- the four things a handler does to the world ----

    method Write(r: Record)
      requires Synced()
      modifies journal, this`trace
      ensures Synced() && trace == old(trace) + [Append(r)]
    {
      journal.Append(r);
      TraceGrows(journal.codec, bytesBefore, runtimeBefore, trace, Append(r));
      trace := trace + [Append(r)];
    }

    method SendSignal(a: AllocationId, signal: NoticeSignal)
      requires Synced()
      modifies executor, executor.inner, this`trace
      ensures Synced() && trace == old(trace) + [Signal(a, signal)]
    {
      var delivered := executor.Signal(a, signal);
      TraceGrows(journal.codec, bytesBefore, runtimeBefore, trace, Signal(a, signal));
      trace := trace + [Signal(a, signal)];
    }

    method StopNow(a: AllocationId) returns (stopped: StopOutcome)
      requires Synced()
      modifies executor, executor.inner, this`trace
      ensures Synced() && trace == old(trace) + [Stop(a)] && stopped == StopContainer(old(executor.View()), a).1
    {
      stopped := executor.Stop(a);
      TraceGrows(journal.codec, bytesBefore, runtimeBefore, trace, Stop(a));
      trace := trace + [Stop(a)];
    }

    method RemoveContainer(a: AllocationId)
      requires Synced()
      modifies executor, executor.inner, this`trace
      ensures Synced() && trace == old(trace) + [Remove(a)]
    {
      executor.Reap(a);
      TraceGrows(journal.codec, bytesBefore, runtimeBefore, trace, Remove(a));
      trace := trace + [Remove(a)];
    }

    method Look() returns (seen: Option<seq<Container>>)
      requires Synced()
      modifies executor, executor.inner, this`trace
      ensures Synced() && trace == old(trace) + [Observe]
      ensures Seen(old(executor.View())) == (if seen.Some? then seen.value else [])
      ensures seen.None? <==> old(executor.View()).failObserve
    {
      seen := executor.Observe();
      TraceGrows(journal.codec, bytesBefore, runtimeBefore, trace, Observe);
      trace := trace + [Observe];
    }

    // ---- notices ----

    method NoticeReport(alloc: AllocationId, now: Timestamp) returns (reports: seq<Report>)
      ensures reports == NoticeReports(View(), alloc, now)
    {
      if alloc !in state.intents || alloc !in state.noticeIntents || alloc !in state.marks { return []; }
      var i, m := state.intents[alloc], state.marks[alloc];
      reports := [AttemptNotice(epoch, alloc, i.attempt, i.job, state.noticeIntents[alloc],
                                Max(m.stopAt - now, 0), Max(m.shortfall, 0))];
    }

    method SignalAndMark(alloc: AllocationId, stopAt: Timestamp, now: Timestamp) returns (reports: seq<Report>)
      requires Synced()
      modifies this, journal, executor, executor.inner
      ensures Did(Spec.SignalAndMark(old(View()), alloc, stopAt, now))
      ensures reports == Spec.SignalAndMark(old(View()), alloc, stopAt, now).reports
    {
      hide DiskAfter, RuntimeAfter, Lawful, NoticeReports, Shortfall;
      if alloc !in state.intents { return []; }
      var i := state.intents[alloc];
      SendSignal(alloc, i.noticeSignal);
      var mark := Mark(stopAt, Shortfall(i.notice, now, stopAt), now);
      Write(NoticeMark(alloc, mark));
      state := state.(marks := state.marks[alloc := mark]);
      reports := NoticeReport(alloc, now);
    }

    method Notify(alloc: AllocationId, reason: PreemptReason, stopAt: Timestamp, now: Timestamp)
      returns (reports: seq<Report>)
      requires Synced()
      modifies this, journal, executor, executor.inner
      ensures Did(Spec.Notify(old(View()), alloc, reason, stopAt, now))
      ensures reports == Spec.Notify(old(View()), alloc, reason, stopAt, now).reports
    {
      hide DiskAfter, RuntimeAfter, Lawful, Spec.SignalAndMark;
      Write(NoticeIntent(alloc, reason));
      state := state.(noticeIntents := state.noticeIntents[alloc := reason]);
      reports := SignalAndMark(alloc, stopAt, now);
    }

    method NotifyUnderPlan(alloc: AllocationId, now: Timestamp) returns (reports: seq<Report>)
      requires Synced()
      modifies this, journal, executor, executor.inner
      ensures Did(Spec.NotifyUnderPlan(old(View()), alloc, now))
      ensures reports == Spec.NotifyUnderPlan(old(View()), alloc, now).reports
    {
      hide DiskAfter, RuntimeAfter, Lawful, Spec.SignalAndMark, Spec.Notify, Shorten, TermsFor;
      if alloc !in state.intents || alloc in state.exits || alloc in starting { return []; }
      var i := state.intents[alloc];
      var terms := TermsFor(state.plan, i, now);
      if terms.None? { return []; }
      if alloc !in state.noticeIntents {
        if terms.value.noticeAt > now || alloc in state.tombstones { return []; }
        reports := Notify(alloc, terms.value.reason, terms.value.stopAt, now);
      } else if alloc !in state.marks {
        var reason := state.noticeIntents[alloc];
        var stopAt := if reason.Drain? || reason.Interruption? then terms.value.stopAt
                      else Min(SatAdd(now, i.notice), terms.value.stopAt);
        reports := SignalAndMark(alloc, stopAt, now);
      } else {
        reports := ShortenWindow(alloc, now);
      }
    }

    /** A notified attempt: only an interruption may move its stop, and only earlier. */
    method ShortenWindow(alloc: AllocationId, now: Timestamp) returns (reports: seq<Report>)
      requires Synced() && alloc in state.intents && alloc in state.marks
      modifies this, journal, executor, executor.inner
      ensures Did(Shorten(old(View()), alloc, old(state).intents[alloc], old(state).marks[alloc], now))
      ensures reports == Shorten(old(View()), alloc, old(state).intents[alloc], old(state).marks[alloc], now).reports
    {
      hide DiskAfter, RuntimeAfter, Lawful, NoticeReports, Shortfall, StopTime;
      var i, mark := state.intents[alloc], state.marks[alloc];
      if state.plan.interruption.None? { return []; }
      var interrupted := StopTime(state.plan.interruption.value, i);
      if interrupted >= mark.stopAt { return []; }
      var replacement := Mark(interrupted, Shortfall(i.notice, mark.notifiedAt, interrupted), mark.notifiedAt);
      Write(NoticeMark(alloc, replacement));
      state := state.(marks := state.marks[alloc := replacement]);
      reports := NoticeReport(alloc, now);
    }

    /** Bring each listed allocation under the plan, in order. */
    method NotifyEach(allocs: seq<AllocationId>, now: Timestamp) returns (reports: seq<Report>)
      requires Synced()
      modifies this, journal, executor, executor.inner
      ensures Did(NotifyAll(old(View()), allocs, now))
      ensures reports == NotifyAll(old(View()), allocs, now).reports
    {
      hide NotifyAll, Spec.NotifyUnderPlan, DiskAfter, RuntimeAfter, Lawful;
      ghost var whole := NotifyAll(View(), allocs, now);
      ghost var fx: seq<Effect> := [];
      reports := [];
      assert allocs[0..] == allocs;
      for i := 0 to |allocs|
        invariant Synced() && trace == old(trace) + fx
        invariant bytesBefore == old(bytesBefore) && runtimeBefore == old(runtimeBefore)
        invariant var rest := NotifyAll(View(), allocs[i..], now);
                  whole == Out(rest.agent, fx + rest.fx, reports + rest.reports)
      {
        NotifyStep(View(), allocs, i, now);
        ghost var o := Spec.NotifyUnderPlan(View(), allocs[i], now);
        var more := NotifyUnderPlan(allocs[i], now);
        reports := reports + more;
        fx := fx + o.fx;
      }
      NotifyStep(View(), allocs, |allocs|, now);
    }

    // ---- lists read off the journal, in id order ----

    /** Intents without a journaled exit. */
    method OutstandingLiveWork() returns (live: seq<AllocationId>)
      ensures live == Outstanding(state)
    {
      var ks := Ascending(state.intents.Keys);
      live := [];
      for i := 0 to |ks|
        invariant Collected(live, ks, i, OutstandingSet(state))
      {
        Collect(live, ks, i, OutstandingSet(state));
        if ks[i] !in state.exits { live := live + [ks[i]]; }
      }
      AllCollected(live, ks, OutstandingSet(state));
    }

    /** Started, unended, unstopped, unnotified allocations whose notice time has come. */
    method NoticesDue(now: Timestamp) returns (due: seq<AllocationId>)
      ensures due == Ascending(DueNotices(View(), now))
    {
      hide NoticeAt;
      var ks := Ascending(state.intents.Keys);
      due := [];
      for i := 0 to |ks|
        invariant Collected(due, ks, i, DueNotices(View(), now))
      {
        Collect(due, ks, i, DueNotices(View(), now));
        assert ks[i] in ks;
        var alloc := ks[i];
        if alloc !in state.exits && alloc !in starting && alloc !in state.tombstones && alloc !in state.noticeIntents {
          var at := NoticeAt(state.plan, state.intents[alloc]);
          if at.Some? && at.value <= now { due := due + [alloc]; }
        }
      }
      AllCollected(due, ks, DueNotices(View(), now));
    }

    /** The stop time `StopDue` gives, by lookups. */
    method StopDueAt(alloc: AllocationId) returns (due: Option<Timestamp>)
      ensures due == StopDue(View(), alloc)
    {
      if alloc in state.tombstones {
        due := Some(MIN_MICROS);
      } else if alloc in state.marks {
        due := Some(state.marks[alloc].stopAt);
      } else {
        return None;
      }
      if alloc in stopRetryAt { due := Some(Max(due.value, stopRetryAt[alloc])); }
    }

    /** Tombstoned or marked allocations with nothing in flight, whose stop is due. */
    method StopsDue(now: Timestamp) returns (due: seq<AllocationId>)
      ensures due == Ascending(DueStops(View(), now))
    {
      hide StopDue, Collected;
      var ks := Ascending(state.intents.Keys);
      ghost var wanted := DueStops(View(), now);
      due := [];
      NoneCollected(ks, wanted);
      for i := 0 to |ks|
        invariant Collected(due, ks, i, wanted)
      {
        Collect(due, ks, i, wanted);
        assert ks[i] in ks;
        var alloc := ks[i];
        if alloc !in state.exits && alloc !in stopping && alloc !in starting && alloc !in stopAbandoned {
          var at := StopDueAt(alloc);
          if at.Some? && at.value <= now { due := due + [alloc]; }
        }
      }
      AllCollected(due, ks, wanted);
    }

    // ---- the plan ----

    /** Recompute each pending launch bound from the plan just set. */
    method RefreshLaunchBounds(now: Timestamp)
      modifies this`launchBounds
      ensures launchBounds == RefreshedBounds(old(View()), now)
    {
      hide Rebound, TermsFor, Ascending;
      ghost var a := View();
      var ks := Ascending(starting);
      for i := 0 to |ks|
        invariant launchBounds.Keys == a.launchBounds.Keys
        invariant forall k :: k in launchBounds ==>
                    launchBounds[k] == if k in ks[..i] then RefreshedBounds(a, now)[k] else a.launchBounds[k]
      {
        assert ks[i] in ks && ks[i] !in ks[..i] && ks[..i + 1] == ks[..i] + [ks[i]];
        var alloc := ks[i];
        if alloc in state.intents && alloc in launchBounds {
          launchBounds := launchBounds[alloc := Rebound(launchBounds[alloc],
                                                        TermsFor(state.plan, state.intents[alloc], now))];
        }
      }
      assert ks[..|ks|] == ks;
    }

    /** Journal the plan, then make it the one in force. */
    method SetPlan(plan: Plan, now: Timestamp)
      requires Synced()
      modifies this, journal, executor, executor.inner
      ensures Did(Out(WithPlan(old(View()), plan, now), [Append(DrainPlan(plan))], []))
    {
      hide DiskAfter, RuntimeAfter, Lawful, RefreshedBounds;
      Write(DrainPlan(plan));
      state := state.(plan := plan);
      RefreshLaunchBounds(now);
    }

    method BeginDueNotices(now: Timestamp) returns (reports: seq<Report>)
      requires Synced()
      modifies this, journal, executor, executor.inner
      ensures Did(Spec.BeginDueNotices(old(View()), now))
      ensures reports == Spec.BeginDueNotices(old(View()), now).reports
    {
      hide NotifyAll, DueNotices, Synced;
      var due := NoticesDue(now);
      reports := NotifyEach(due, now);
    }

    /** A Drain command: set, move or clear the operator component of the plan. */
    method OnDrain(deadlineUs: Option<i64>, noticeWindowUs: u64, now: Timestamp) returns (reports: seq<Report>)
      requires Synced()
      modifies this, journal, executor, executor.inner
      ensures Did(Spec.OnDrain(old(View()), deadlineUs, noticeWindowUs, now))
      ensures reports == Spec.OnDrain(old(View()), deadlineUs, noticeWindowUs, now).reports
    {
      hide Synced, WithPlan, Spec.BeginDueNotices, FromMicros, RuntimeBound;
      var target := None;
      if deadlineUs.Some? {
        target := FromMicros(deadlineUs.value);
        if target.None? { return []; }
      }
      var held := if state.plan.operator.Some? then Some(state.plan.operator.value.deadline) else None;
      if held == target { return []; }
      var plan := state.plan.(operator :=
        if target.None? then None else Some(OperatorDrain(target.value, RuntimeBound(noticeWindowUs))));
      SetPlan(plan, now);
      reports := BeginDueNotices(now);
    }

    /** A provider's reclaim deadline: journaled, then every running attempt is notified. */
    method OnInterruption(deadline: Timestamp, now: Timestamp) returns (reports: seq<Report>)
      requires Valid()
      modifies this, journal, executor, executor.inner
      ensures Handled(Spec.OnInterruption(old(View()), deadline, now))
      ensures reports == Spec.OnInterruption(old(View()), deadline, now).reports
    {
      hide WithPlan, NotifyAll, DiskAfter, RuntimeAfter, Lawful, Outstanding;
      Begin();
      ghost var o := Spec.OnInterruption(View(), deadline, now);
      var current := state.plan.interruption;
      if current.Some? && deadline >= current.value { return []; }
      if current.None? && deadline <= now { return []; }
      var plan := state.plan.(interruption := Some(deadline));
      SetPlan(plan, now);
      var live := OutstandingLiveWork();
      reports := NotifyEach(live, now);
      assert trace == o.fx;
    }

    /** A PreemptJob command. */
    method PreemptJob(victim: Option<AllocationId>, why: Option<PreemptReason>, noticeUs: u64, now: Timestamp)
      returns (reports: seq<Report>)
      requires Synced()
      modifies this, journal, executor, executor.inner
      ensures Did(OnPreempt(old(View()), victim, why, noticeUs, now))
      ensures reports == OnPreempt(old(View()), victim, why, noticeUs, now).reports
    {
      hide Synced, Spec.Notify, Spec.SignalAndMark, NoticeReports, TermsFor, RuntimeBound;
      if victim.None? || why.None? { return []; }
      var alloc := victim.value;
      if alloc !in state.intents { return []; }
      if alloc in state.exits || alloc in state.tombstones || alloc in starting { return []; }
      var stopAt := SatAdd(now, RuntimeBound(noticeUs));
      var terms := TermsFor(state.plan, state.intents[alloc], now);
      if terms.Some? { stopAt := Min(stopAt, terms.value.stopAt); }
      if alloc !in state.noticeIntents {
        reports := Notify(alloc, why.value, stopAt, now);
      } else if alloc in state.marks {
        reports := NoticeReport(alloc, now);
      } else {
        reports := SignalAndMark(alloc, stopAt, now);
      }
    }

    /** With no plan recovered, signal again what a crash left noticed but unmarked. */
    method ResumeEach(allocs: seq<AllocationId>, now: Timestamp) returns (reports: seq<Report>)
      requires Synced()
      modifies this, journal, executor, executor.inner
      ensures Did(ResumeAll(old(View()), allocs, now))
      ensures reports == ResumeAll(old(View()), allocs, now).reports
    {
      hide ResumeAll, ResumeOne, DiskAfter, RuntimeAfter, Lawful;
      ghost var whole := ResumeAll(View(), allocs, now);
      ghost var fx: seq<Effect> := [];
      reports := [];
      assert allocs[0..] == allocs;
      for i := 0 to |allocs|
        invariant Synced() && trace == old(trace) + fx
        invariant bytesBefore == old(bytesBefore) && runtimeBefore == old(runtimeBefore)
        invariant var rest := ResumeAll(View(), allocs[i..], now);
                  whole == Out(rest.agent, fx + rest.fx, reports + rest.reports)
      {
        ResumeStep(View(), allocs, i, now);
        ghost var o := ResumeOne(View(), allocs[i], now);
        var more := ResumeNotice(allocs[i], now);
        reports := reports + more;
        fx := fx + o.fx;
      }
      ResumeStep(View(), allocs, |allocs|, now);
    }

    method ResumeNotice(alloc: AllocationId, now: Timestamp) returns (reports: seq<Report>)
      requires Synced()
      modifies this, journal, executor, executor.inner
      ensures Did(ResumeOne(old(View()), alloc, now)) && reports == ResumeOne(old(View()), alloc, now).reports
    {
      hide Spec.SignalAndMark, Synced;
      if alloc !in state.intents || alloc !in state.noticeIntents || alloc in state.marks { return []; }
      reports := SignalAndMark(alloc, SatAdd(now, state.intents[alloc].notice), now);
    }

    /**
     * Run once per process, over the reopened journal: re-signal what lacks a mark, notify what came due
     * while down.
     */
    method ResumeNotices(now: Timestamp) returns (reports: seq<Report>)
      requires Valid()
      modifies this, journal, executor, executor.inner
      ensures Handled(Spec.ResumeNotices(old(View()), now))
      ensures reports == Spec.ResumeNotices(old(View()), now).reports
    {
      hide WithPlan, NotifyAll, ResumeAll, DiskAfter, RuntimeAfter, Lawful, Outstanding;
      Begin();
      ghost var o := Spec.ResumeNotices(View(), now);
      var live := OutstandingLiveWork();
      if state.plan.operator.Some? || state.plan.interruption.Some? {
        reports := NotifyEach(live, now);
      } else {
        reports := ResumeEach(live, now);
      }
      if state.plan.interruption.Some? && state.plan.interruption.value <= now {
        SetPlan(state.plan.(interruption := None), now);
      }
      assert trace == o.fx;
    }

    // ---- stops ----

    method QueueStop(alloc: AllocationId, grace: Duration)
      requires Synced()
      modifies this
      ensures Did(Unchanged(Spec.QueueStop(old(View()), alloc, grace)))
    {
      hide DiskAfter, RuntimeAfter, Lawful;
      stopRetryAt := stopRetryAt - {alloc};
      stopping := stopping + {alloc};
      pendingStops := pendingStops + [StopRequest(alloc, grace)];
    }

    method PlaceTombstone(alloc: AllocationId, t: TombstoneReason)
      requires Synced()
      modifies this, journal, executor, executor.inner
      ensures Did(Out(WithTombstone(old(View()), alloc, t), [Append(Tombstone(alloc, t))], []))
    {
      hide DiskAfter, RuntimeAfter, Lawful;
      Write(Tombstone(alloc, t));
      state := state.(tombstones := state.tombstones[alloc := t]);
    }

    /** Tombstone and queue one due stop; a tombstone already there is kept. */
    method StartStop(alloc: AllocationId)
      requires Synced()
      modifies this, journal, executor, executor.inner
      ensures Did(BeginStop(old(View()), alloc))
    {
      hide Synced;
      if alloc !in state.intents { return; }
      if alloc !in state.tombstones {
        var reason := if alloc in state.noticeIntents then state.noticeIntents[alloc]
                      else if state.plan.operator.Some? && state.plan.interruption.None? then Drain else Interruption;
        PlaceTombstone(alloc, Preempt(reason));
      }
      QueueStop(alloc, state.intents[alloc].abortGrace);
    }

    method StartEachStop(allocs: seq<AllocationId>)
      requires Synced()
      modifies this, journal, executor, executor.inner
      ensures Did(BeginStops(old(View()), allocs))
    {
      hide BeginStops, BeginStop, DiskAfter, RuntimeAfter, Lawful;
      ghost var whole := BeginStops(View(), allocs);
      ghost var fx: seq<Effect> := [];
      assert allocs[0..] == allocs;
      for i := 0 to |allocs|
        invariant Synced() && trace == old(trace) + fx
        invariant bytesBefore == old(bytesBefore) && runtimeBefore == old(runtimeBefore)
        invariant var rest := BeginStops(View(), allocs[i..]); whole == Out(rest.agent, fx + rest.fx, rest.reports)
      {
        StopStep(View(), allocs, i);
        ghost var o := BeginStop(View(), allocs[i]);
        StartStop(allocs[i]);
        fx := fx + o.fx;
      }
      StopStep(View(), allocs, |allocs|);
    }

    method BeginDueStops(now: Timestamp)
      requires Synced()
      modifies this, journal, executor, executor.inner
      ensures Did(Spec.BeginDueStops(old(View()), now))
    {
      hide BeginStops, Synced, DueStops;
      var due := StopsDue(now);
      StartEachStop(due);
    }

    /** One pass of the timers: due notices, then due stops. */
    method RunTimers(now: Timestamp) returns (reports: seq<Report>)
      requires Valid()
      modifies this, journal, executor, executor.inner
      ensures Handled(OnTimers(old(View()), now)) && reports == OnTimers(old(View()), now).reports
    {
      hide Spec.BeginDueNotices, Spec.BeginDueStops, DiskAfter, RuntimeAfter, Lawful;
      Begin();
      ghost var o := OnTimers(View(), now);
      reports := BeginDueNotices(now);
      BeginDueStops(now);
      assert trace == o.fx;
    }

    // ---- exits ----

    method RecordExit(e: Exit)
      requires Synced()
      modifies this, journal, executor, executor.inner
      ensures Did(Out(WithExit(old(View()), e), [Append(ObservedExit(e))], []))
    {
      hide DiskAfter, RuntimeAfter, Lawful;
      Write(ObservedExit(e));
      state := state.(exits := state.exits[e.allocation := e]);
    }

    /** Record an end, then queue the debris for reaping and say so. */
    method EndAttempt(alloc: AllocationId, outcome: Outcome, runtime: Duration) returns (reports: seq<Report>)
      requires Synced() && alloc in state.intents
      modifies this, journal, executor, executor.inner
      ensures Did(Spec.RecordExit(old(View()), alloc, outcome, runtime))
      ensures reports == Spec.RecordExit(old(View()), alloc, outcome, runtime).reports
    {
      hide DiskAfter, RuntimeAfter, Lawful;
      var i := state.intents[alloc];
      RecordExit(Exit(alloc, i.attempt, i.job, outcome, runtime));
      pendingReaps := pendingReaps + [alloc];
      reports := [AttemptStatus(epoch, alloc, i.attempt, i.job, Terminal(outcome), runtime)];
    }

    /** The max-runtime watchdog fired: stop in place, and let the truth win over the kill. */
    method TriggerMaxRuntime(alloc: AllocationId) returns (reports: seq<Report>)
      requires Valid()
      modifies this, journal, executor, executor.inner
      ensures Handled(OnMaxRuntime(old(View()), old(executor.View()), alloc))
      ensures reports == OnMaxRuntime(old(View()), old(executor.View()), alloc).reports
    {
      hide DiskAfter, RuntimeAfter, Lawful, StopContainer, ClassifyStop, AttributionOf, Spec.RecordExit;
      Begin();
      ghost var o := OnMaxRuntime(View(), executor.View(), alloc);
      NoEffects(journal.codec, journal.bytes, executor.View());
      if alloc in state.exits { return []; }
      if alloc in stopping || alloc in starting { return []; }
      if alloc !in state.intents { return []; }
      var stopped := StopNow(alloc);
      var classified := ClassifyStop(stopped, RuntimeLimitExceeded, AttributionOf(state, alloc));
      if classified.None? {
        assert trace == o.fx;
        return [];
      }
      reports := EndAttempt(alloc, classified.value.0, classified.value.1);
      assert trace == o.fx;
    }

    /** The watcher saw an exit: held for a stop in flight, otherwise classified and recorded. */
    method HandleObservedExit(alloc: AllocationId, exit: ExitInfo) returns (reports: seq<Report>)
      requires Valid()
      modifies this, journal, executor, executor.inner
      ensures Handled(OnObservedExit(old(View()), alloc, exit))
      ensures reports == OnObservedExit(old(View()), alloc, exit).reports
    {
      hide DiskAfter, RuntimeAfter, Lawful, ClassifyExit, AttributionOf, Spec.RecordExit;
      Begin();
      ghost var o := OnObservedExit(View(), alloc, exit);
      NoEffects(journal.codec, journal.bytes, executor.View());
      if alloc in state.exits { return []; }
      if alloc !in state.intents { return []; }
      if alloc in stopping {
        deferredExits := deferredExits[alloc := exit];
        return [];
      }
      var outcome := ClassifyExit(exit, AttributionOf(state, alloc));
      stopRetryAt := stopRetryAt - {alloc};
      reports := EndAttempt(alloc, outcome, exit.runtime);
      assert trace == o.fx;
    }

    method ConcludeStop(alloc: AllocationId, verdict: Option<(Outcome, Duration)>, failed: bool, now: Timestamp)
      returns (reports: seq<Report>)
      requires Synced() && alloc in state.intents
      modifies this, journal, executor, executor.inner
      ensures Did(Spec.ConcludeStop(old(View()), alloc, verdict, failed, now))
      ensures reports == Spec.ConcludeStop(old(View()), alloc, verdict, failed, now).reports
    {
      hide DiskAfter, RuntimeAfter, Lawful, Spec.RecordExit;
      if verdict.None? {
        if failed {
          stopRetryAt := stopRetryAt[alloc := SatAdd(now, STOP_RETRY)];
        } else {
          stopAbandoned := stopAbandoned + {alloc};
        }
        return [];
      }
      reports := EndAttempt(alloc, verdict.value.0, verdict.value.1);
    }

    /** A spawned stop finished: its own answer decides, else the exit held for it, else retry or abandon. */
    method FinishStop(alloc: AllocationId, result: StopResult, now: Timestamp) returns (reports: seq<Report>)
      requires Valid()
      modifies this, journal, executor, executor.inner
      ensures Handled(Spec.FinishStop(old(View()), alloc, result, now))
      ensures reports == Spec.FinishStop(old(View()), alloc, result, now).reports
    {
      hide DiskAfter, RuntimeAfter, Lawful, ClassifyExit, ClassifyStop, AttributionOf, Spec.ConcludeStop;
      Begin();
      ghost var o := Spec.FinishStop(View(), alloc, result, now);
      NoEffects(journal.codec, journal.bytes, executor.View());
      var deferred := if alloc in deferredExits then Some(deferredExits[alloc]) else None;
      stopping, deferredExits := stopping - {alloc}, deferredExits - {alloc};
      if alloc in state.exits || alloc !in state.intents { return []; }
      var verdict := None;
      if result.Answered? && !result.outcome.Unknown? {
        var kill := if alloc in state.tombstones then TombstoneOutcome(state.tombstones[alloc]) else Aborted;
        verdict := ClassifyStop(result.outcome, kill, AttributionOf(state, alloc));
      } else if deferred.Some? {
        verdict := Some((ClassifyExit(deferred.value, AttributionOf(state, alloc)), deferred.value.runtime));
      }
      reports := ConcludeStop(alloc, verdict, result.StopFailed?, now);
      assert trace == o.fx;
    }

    // ---- starts ----

    method TerminalStatus(alloc: AllocationId, attempt: AttemptId, job: JobId, outcome: Outcome, runtime: Duration)
      returns (r: Report)
      ensures r == Ending(View(), alloc, attempt, job, outcome, runtime)
    {
      r := AttemptStatus(epoch, alloc, attempt, job, Terminal(outcome), runtime);
    }

    method RunningStatus(alloc: AllocationId, attempt: AttemptId, job: JobId) returns (r: Report)
      ensures r == Running(View(), alloc, attempt, job)
    {
      r := AttemptStatus(epoch, alloc, attempt, job, NowRunning, 0);
    }

    /** The current status, without acting: the exit, else the tombstone's answer, else believed running. */
    method ReportCurrentStatus(alloc: AllocationId, attempt: AttemptId, job: JobId) returns (r: Report)
      ensures r == CurrentStatus(View(), alloc, attempt, job)
    {
      if alloc in state.exits {
        var e := state.exits[alloc];
        r := TerminalStatus(alloc, e.attempt, e.job, e.outcome, e.runtime);
      } else if alloc in state.tombstones {
        r := TerminalStatus(alloc, attempt, job, TombstoneOutcome(state.tombstones[alloc]), 0);
      } else {
        r := RunningStatus(alloc, attempt, job);
      }
    }

    /** Journal the intent, then open the start's launch bound under the plan in force. */
    method OpenStart(i: Intent, latestStart: Option<Timestamp>, now: Timestamp)
      requires Synced()
      modifies this, journal, executor, executor.inner
      ensures Did(Out(Opened(old(View()), i, latestStart, now), [Append(StartIntent(i))], []))
    {
      hide DiskAfter, RuntimeAfter, Lawful, Rebound, TermsFor;
      Write(StartIntent(i));
      state := state.(intents := state.intents[i.allocation := i]);
      var bound := Rebound(StartBound(latestStart, latestStart, None), TermsFor(state.plan, i, now));
      launchBounds, starting := launchBounds[i.allocation := bound], starting + {i.allocation};
    }

    /** A start failed: the plan's refusal is tombstoned first, then the exit is recorded and reported. */
    method FailStart(alloc: AllocationId, i: Intent, bound: Option<StartBound>, e: StartError)
      returns (reports: seq<Report>)
      requires Synced()
      modifies this, journal, executor, executor.inner
      ensures Did(StartFailedOut(old(View()), alloc, i, bound, e))
      ensures reports == StartFailedOut(old(View()), alloc, i, bound, e).reports
    {
      hide Synced, PlanRefusal, StartErrorOutcome;
      var outcome := StartErrorOutcome(e);
      if bound.Some? && PlanRefusal(bound.value, e).Some? {
        var t := Preempt(PlanRefusal(bound.value, e).value);
        PlaceTombstone(alloc, t);
        outcome := TombstoneOutcome(t);
      }
      RecordExit(Exit(alloc, i.attempt, i.job, outcome, 0));
      var r := TerminalStatus(alloc, i.attempt, i.job, outcome, 0);
      reports := [r];
      assert trace == old(trace) + StartFailedOut(old(View()), alloc, i, bound, e).fx;
    }

    /** A start succeeded: arm its watchdog and report Running, then stop or notify it as the journal says. */
    method ReportStarted(alloc: AllocationId, i: Intent, clock: Clock) returns (reports: seq<Report>)
      requires Synced()
      modifies this, journal, executor, executor.inner
      ensures Did(StartedOut(old(View()), alloc, i, clock))
      ensures reports == StartedOut(old(View()), alloc, i, clock).reports
    {
      hide DiskAfter, RuntimeAfter, Lawful, Spec.NotifyUnderPlan;
      if i.maxRuntime.Some? {
        armedWatchdogs := armedWatchdogs + [ArmedWatchdog(alloc, i.maxRuntime.value, clock.mono)];
      }
      assert View() == Armed(old(View()), alloc, i, clock);
      var r := RunningStatus(alloc, i.attempt, i.job);
      reports := [r];
      if alloc in state.tombstones {
        QueueStop(alloc, i.abortGrace);
      } else if state.plan.operator.Some? || state.plan.interruption.Some? {
        var more := NotifyUnderPlan(alloc, clock.wall);
        reports := reports + more;
      }
    }

    method SettleStart(alloc: AllocationId, result: StartResult, clock: Clock) returns (reports: seq<Report>)
      requires Synced()
      modifies this, journal, executor, executor.inner
      ensures Did(Spec.FinishStart(old(View()), alloc, result, clock))
      ensures reports == Spec.FinishStart(old(View()), alloc, result, clock).reports
    {
      hide DiskAfter, RuntimeAfter, Lawful, StartedOut, StartFailedOut;
      var bound := if alloc in launchBounds then Some(launchBounds[alloc]) else None;
      var wasStarting := alloc in starting;
      launchBounds, starting := launchBounds - {alloc}, starting - {alloc};
      if !wasStarting || alloc !in state.intents || alloc in state.exits { return []; }
      match result
      case Started => reports := ReportStarted(alloc, state.intents[alloc], clock);
      case Failed(e) => reports := FailStart(alloc, state.intents[alloc], bound, e);
    }

    /** A spawned start finished. */
    method FinishStart(alloc: AllocationId, result: StartResult, clock: Clock) returns (reports: seq<Report>)
      requires Valid()
      modifies this, journal, executor, executor.inner
      ensures Handled(Spec.FinishStart(old(View()), alloc, result, clock))
      ensures reports == Spec.FinishStart(old(View()), alloc, result, clock).reports
    {
      hide Spec.FinishStart, DiskAfter, RuntimeAfter, Lawful;
      Begin();
      ghost var o := Spec.FinishStart(View(), alloc, result, clock);
      reports := SettleStart(alloc, result, clock);
      assert trace == o.fx;
    }

    method LaunchStart(sj: StartJob, latestStart: Option<Timestamp>, clock: Clock) returns (reports: seq<Report>)
      requires Synced() && sj.ids.Some?
      modifies this, journal, executor, executor.inner
      ensures Did(Launch(old(View()), sj, latestStart, clock))
      ensures reports == Launch(old(View()), sj, latestStart, clock).reports
    {
      hide DiskAfter, RuntimeAfter, Lawful, Spec.FinishStart, Opened, RuntimeBound;
      var ids := sj.ids.value;
      var i := Intent(ids.allocation, ids.attempt, ids.job, epoch,
                      if sj.maxRuntimeUs.None? then None else Some(RuntimeBound(sj.maxRuntimeUs.value)),
                      sj.noticeSignal, RuntimeBound(sj.noticeUs), RuntimeBound(sj.abortGraceUs),
                      RuntimeBound(sj.cleanupMarginUs));
      OpenStart(i, latestStart, clock.wall);
      if latestStart.Some? && clock.wall > latestStart.value {
        reports := SettleStart(i.allocation, Failed(LaunchBoundPassed(latestStart.value)), clock);
        assert trace == old(trace) + Launch(old(View()), sj, latestStart, clock).fx;
        return;
      }
      pendingStarts := pendingStarts + [StartSpec(i.allocation, i.attempt, i.job, i.maxRuntime)];
      reports := [];
    }

    /** The refusal a new StartJob meets before any intent, if any. */
    method RefusedAtDoor(abortGrace: Duration, cleanupMargin: Duration, now: Timestamp)
      returns (why: Option<PreemptReason>)
      ensures why == DoorRefusal(View(), abortGrace, cleanupMargin, now)
    {
      if state.plan.interruption.Some? { return Some(Interruption); }
      if draining { return Some(Drain); }
      var noticeAt := OperatorNoticeAt(state.plan, abortGrace, cleanupMargin);
      if noticeAt.Some? && now >= noticeAt.value { return Some(Drain); }
      why := None;
    }

    method RefuseStart(ids: StartIds, reason: PreemptReason) returns (reports: seq<Report>)
      requires Synced()
      modifies this, journal, executor, executor.inner
      ensures Did(Refuse(old(View()), ids, reason)) && reports == Refuse(old(View()), ids, reason).reports
    {
      hide Synced;
      PlaceTombstone(ids.allocation, Preempt(reason));
      var r := TerminalStatus(ids.allocation, ids.attempt, ids.job, Preempted(reason), 0);
      reports := [r];
    }

    method OpenDoor(sj: StartJob, clock: Clock) returns (reports: seq<Report>)
      requires Synced() && sj.ids.Some?
      requires sj.ids.value.allocation !in state.tombstones && sj.ids.value.allocation !in state.intents
      modifies this, journal, executor, executor.inner
      ensures Did(OnStartJob(old(View()), sj, clock)) && reports == OnStartJob(old(View()), sj, clock).reports
    {
      hide Synced, Launch, Refuse, DoorRefusal, FromMicros, RuntimeBound;
      if !sj.envOk || !sj.identityOk { return []; }
      var latestStart := None;
      if sj.latestStartUs.Some? {
        latestStart := FromMicros(sj.latestStartUs.value);
        if latestStart.None? { return []; }
      }
      var passed := latestStart.Some? && clock.wall > latestStart.value;
      if !passed {
        var why := RefusedAtDoor(RuntimeBound(sj.abortGraceUs), RuntimeBound(sj.cleanupMarginUs), clock.wall);
        if why.Some? {
          reports := RefuseStart(sj.ids.value, why.value);
          return;
        }
      }
      reports := LaunchStart(sj, latestStart, clock);
    }

    method StartJob(sj: StartJob, clock: Clock) returns (reports: seq<Report>)
      requires Synced()
      modifies this, journal, executor, executor.inner
      ensures Did(OnStartJob(old(View()), sj, clock)) && reports == OnStartJob(old(View()), sj, clock).reports
    {
      hide Synced, Launch, Refuse, DoorRefusal, FromMicros;
      if sj.ids.None? { return []; }
      var ids := sj.ids.value;
      if ids.allocation in state.tombstones {
        var r := ReportCurrentStatus(ids.allocation, ids.attempt, ids.job);
        return [r];
      }
      if ids.allocation in state.intents {
        if ids.allocation in starting { return []; }
        var r := ReportCurrentStatus(ids.allocation, ids.attempt, ids.job);
        return [r];
      }
      reports := OpenDoor(sj, clock);
    }

    /** Tombstone first; then report an end already known, or stop what is believed running. */
    method StopJob(target: Option<AllocationId>, graceUs: i64) returns (reports: seq<Report>)
      requires Synced()
      modifies this, journal, executor, executor.inner
      ensures Did(OnStopJob(old(View()), target, graceUs)) && reports == OnStopJob(old(View()), target, graceUs).reports
    {
      hide Synced;
      if target.None? { return []; }
      var alloc := target.value;
      PlaceTombstone(alloc, Abort);
      reports := [];
      if alloc in state.exits {
        var e := state.exits[alloc];
        var r := TerminalStatus(alloc, e.attempt, e.job, e.outcome, e.runtime);
        return [r];
      }
      if alloc in state.intents && alloc !in starting && alloc !in stopping {
        QueueStop(alloc, Max(graceUs, 0));
      }
    }

    // ---- registration ----

    /** Blank the outcome of every entry whose start or stop has not come back. */
    method LeaveInFlightOpen(observed: seq<ObservedAllocation>) returns (out: seq<ObservedAllocation>)
      ensures out == UnresolveAll(View(), observed)
    {
      out := observed;
      for i := 0 to |observed|
        invariant |out| == |observed|
        invariant forall k :: 0 <= k < |out| ==> out[k] == if k < i then Unresolve(View(), observed[k]) else observed[k]
      {
        var o := out[i];
        var inFlight := o.allocation in starting || o.allocation in stopping;
        if inFlight && !o.running && o.allocation !in state.exits {
          out := out[i := o.(outcome := None)];
        }
      }
    }

    method NoteRegistered(spent: seq<AllocationId>, rearmed: seq<ArmedWatchdog>)
      requires Synced()
      modifies this
      ensures Did(Unchanged(old(View()).(registered := true, pendingReaps := old(pendingReaps) + spent,
                                         armedWatchdogs := old(armedWatchdogs) + rearmed)))
    {
      hide DiskAfter, RuntimeAfter, Lawful;
      registered, pendingReaps, armedWatchdogs := true, pendingReaps + spent, armedWatchdogs + rearmed;
    }

    /** A RegisterAccepted: answer with the reconciled set, queue the spent containers, re-arm the watchdogs. */
    method OnRegisterAccepted(clock: Clock) returns (reports: seq<Report>)
      requires Synced()
      modifies this, journal, executor, executor.inner
      ensures Did(Spec.OnRegisterAccepted(old(View()), old(executor.View()), clock))
      ensures reports == Spec.OnRegisterAccepted(old(View()), old(executor.View()), clock).reports
    {
      hide Synced, Seen, SpentIds, Rearmed, ObservedSet, Reconciles, WellFormed, UnresolveAll;
      var seen := Look();
      assert View() == old(View());
      var runtime := if seen.Some? then seen.value else [];
      var observed := BuildObservedSet(state, runtime);
      observed := LeaveInFlightOpen(observed);
      var spent := SpentContainers(state, runtime);
      var rearmed := WatchdogsFor(state, runtime, clock.mono);
      NoteRegistered(spent, rearmed);
      reports := [ObservedSetReport(epoch, observed)];
    }

    /** What a heartbeat claims. */
    method HeartbeatReport() returns (r: Report)
      modifies executor.inner
      ensures r == Heartbeat(View(), old(executor.View()))
      ensures executor.View() == old(executor.View()).(failObserve := false)
    {
      hide Claimed, Executor.Observed;
      var seen := executor.Observe();
      var containers := if seen.Some? then seen.value else [];
      var running := ClaimedContainers(state, containers);
      r := Report.HeartbeatReport(epoch, running, draining || state.plan.interruption.Some?, state.plan.interruption,
                           if state.plan.operator.Some? then Some(state.plan.operator.value.deadline) else None);
    }

    /** Remove spent containers past their age. */
    method JanitorSweep(now: Timestamp, bound: Duration)
      requires Valid()
      modifies this, journal, executor, executor.inner
      ensures Handled(Spec.JanitorSweep(old(View()), old(executor.View()), now, bound))
    {
      hide DiskAfter, RuntimeAfter, Lawful, Seen, SweepFx;
      Begin();
      ghost var o := Spec.JanitorSweep(View(), executor.View(), now, bound);
      ghost var fx := SweepFx(state, Seen(executor.View()), now, bound);
      var seen := Look();
      if seen.None? {
        SweepStep(state, [], now, bound, 0);
        assert trace == o.fx;
        return;
      }
      var containers := seen.value;
      assert containers[0..] == containers;
      for i := 0 to |containers|
        invariant Synced() && View() == old(View())
        invariant trace + SweepFx(state, containers[i..], now, bound) == [Observe] + fx
        invariant bytesBefore == old(journal.bytes) && runtimeBefore == old(executor.View())
      {
        SweepStep(state, containers, now, bound, i);
        var c := containers[i];
        if c.state.HasExited? && c.allocation in state.exits && now - c.state.exit.finishedAt > bound {
          RemoveContainer(c.allocation);
        }
      }
      SweepStep(state, containers, now, bound, |containers|);
      assert trace == o.fx;
    }

    // ---- commands ----

    /** Journal a raised watermark, and only then take it as ours: a new epoch, a fresh sequence space. */
    method Raise(raised: Watermark)
      requires Synced()
      modifies this, journal
      ensures Did(Out(Raised(old(View()), raised), [Append(Fencing(raised))], []))
    {
      hide DiskAfter, RuntimeAfter, Lawful;
      Write(Fencing(raised));
      state, epoch, lastSeq := state.(watermark := raised), raised.nodeEpoch, None;
    }

    method CheckSeq(n: u64) returns (admission: Admission)
      requires Synced()
      modifies this
      ensures Did(Unchanged(AdmitSeq(old(View()), n, []).agent)) && admission == AdmitSeq(old(View()), n, []).admission
    {
      hide DiskAfter, RuntimeAfter, Lawful;
      if lastSeq.Some? && n <= lastSeq.value { return Duplicate; }
      lastSeq := Some(n);
      admission := Fresh;
    }

    /** Fencing and dedup: a higher token is appended before anything else happens. */
    method Admit(h: Header) returns (admission: Admission)
      requires Synced()
      modifies this, journal
      ensures Did(Out(Spec.Admit(old(View()), h).agent, Spec.Admit(old(View()), h).fx, []))
      ensures admission == Spec.Admit(old(View()), h).admission
    {
      hide Synced, Raised;
      var token := TokenOf(h);
      var wm := state.watermark;
      if token.leaderTerm < wm.leaderTerm || token.nodeEpoch < wm.nodeEpoch { return Reject; }
      if token.leaderTerm > wm.leaderTerm || token.nodeEpoch > wm.nodeEpoch {
        Raise(Watermark(Max(token.leaderTerm, wm.leaderTerm), Max(token.nodeEpoch, wm.nodeEpoch)));
      }
      admission := CheckSeq(h.commandSeq);
    }

    /** An already-seen sequence number: acknowledged without acting. */
    method HandleDuplicate(body: Body) returns (reports: seq<Report>)
      ensures reports == OnDuplicate(View(), body).reports && OnDuplicate(View(), body) == Out(View(), [], reports)
    {
      reports := [];
      if body.StartJobBody? && body.start.ids.Some? && body.start.ids.value.allocation !in starting {
        var ids := body.start.ids.value;
        var r := ReportCurrentStatus(ids.allocation, ids.attempt, ids.job);
        reports := [r];
      }
    }

    method HandleFresh(body: Body, clock: Clock) returns (reports: seq<Report>)
      requires Synced()
      modifies this, journal, executor, executor.inner
      ensures Did(OnFresh(old(View()), body, clock)) && reports == OnFresh(old(View()), body, clock).reports
    {
      hide Synced, OnStartJob, OnStopJob, OnPreempt, Spec.OnDrain;
      match body
      case StartJobBody(sj) => reports := StartJob(sj, clock);
      case StopJobBody(target, grace) => reports := StopJob(target, grace);
      case PreemptJobBody(victim, why, notice) => reports := PreemptJob(victim, why, notice, clock.wall);
      case DrainBody(deadline, window) => reports := OnDrain(deadline, window, clock.wall);
      case PrepareCacheBody => reports := [];
      case EvictImageBody => reports := [];
      case RegisterAccepted => reports := [];
    }

    method DispatchAdmitted(admission: Admission, body: Body, clock: Clock) returns (reports: seq<Report>)
      requires Synced()
      modifies this, journal, executor, executor.inner
      ensures Did(OnAdmitted(old(View()), admission, old(executor.View()), body, clock))
      ensures reports == OnAdmitted(old(View()), admission, old(executor.View()), body, clock).reports
    {
      hide Synced, Spec.OnRegisterAccepted, OnDuplicate, OnFresh;
      if body.RegisterAccepted? {
        reports := OnRegisterAccepted(clock);
      } else if admission.Duplicate? {
        reports := HandleDuplicate(body);
      } else {
        reports := HandleFresh(body, clock);
      }
    }

    /** The command dispatcher: deaf until registered, fenced, then routed. */
    method HandleCommand(cmd: Command, clock: Clock) returns (reports: seq<Report>)
      requires Valid()
      modifies this, journal, executor, executor.inner
      ensures Handled(Spec.HandleCommand(old(View()), old(executor.View()), cmd, clock))
      ensures reports == Spec.HandleCommand(old(View()), old(executor.View()), cmd, clock).reports
    {
      hide DiskAfter, RuntimeAfter, Lawful, OnAdmitted;
      Begin();
      ghost var o := Spec.HandleCommand(View(), executor.View(), cmd, clock);
      NoEffects(journal.codec, journal.bytes, executor.View());
      if cmd.header.None? || cmd.body.None? { return []; }
      if !cmd.body.value.RegisterAccepted? && !registered { return []; }
      RejectedIffStale(View(), cmd.header.value);
      var admission := Admit(cmd.header.value);
      if admission.Reject? { return []; }
      reports := DispatchAdmitted(admission, cmd.body.value, clock);
      assert trace == o.fx;
    }

    // ---- the session's edges ----

    /** A new stream: deaf again, with a fresh sequence space under the same fence. */
    method ResetSession()
      modifies this
      ensures View() == Spec.ResetSession(old(View()))
    {
      registered, lastSeq := false, None;
    }

    method SetDraining(on: bool)
      modifies this
      ensures View() == old(View()).(draining := on)
    {
      draining := on;
    }

    /** Hand the loop everything queued since the last call. */
    method TakeQueued() returns (starts: seq<StartSpec>, stops: seq<StopRequest>, reaps: seq<AllocationId>,
                                 watchdogs: seq<ArmedWatchdog>)
      modifies this
      ensures View() == Drained(old(View()))
      ensures (starts, stops, reaps, watchdogs) ==
                (old(pendingStarts), old(pendingStops), old(pendingReaps), old(armedWatchdogs))
    {
      starts, stops, reaps, watchdogs := pendingStarts, pendingStops, pendingReaps, armedWatchdogs;
      pendingStarts, pendingStops, pendingReaps, armedWatchdogs := [], [], [], [];
    }
  }

  /** One turn of each loop over allocations, as its recursive specification unfolds. */
  lemma NotifyStep(a: Agent, allocs: seq<AllocationId>, i: nat, now: Timestamp)
    requires i <= |allocs|
    ensures i == |allocs| ==> NotifyAll(a, allocs[i..], now) == Unchanged(a)
    ensures i < |allocs| ==>
              var o := Spec.NotifyUnderPlan(a, allocs[i], now);
              var rest := NotifyAll(o.agent, allocs[i + 1..], now);
              NotifyAll(a, allocs[i..], now) == Out(rest.agent, o.fx + rest.fx, o.reports + rest.reports)
  {
    hide Spec.NotifyUnderPlan;
    if i < |allocs| { assert allocs[i..][1..] == allocs[i + 1..]; }
  }

  lemma ResumeStep(a: Agent, allocs: seq<AllocationId>, i: nat, now: Timestamp)
    requires i <= |allocs|
    ensures i == |allocs| ==> ResumeAll(a, allocs[i..], now) == Unchanged(a)
    ensures i < |allocs| ==>
              var o := ResumeOne(a, allocs[i], now);
              var rest := ResumeAll(o.agent, allocs[i + 1..], now);
              ResumeAll(a, allocs[i..], now) == Out(rest.agent, o.fx + rest.fx, o.reports + rest.reports)
  {
    hide ResumeOne;
    if i < |allocs| { assert allocs[i..][1..] == allocs[i + 1..]; }
  }

  lemma StopStep(a: Agent, allocs: seq<AllocationId>, i: nat)
    requires i <= |allocs|
    ensures i == |allocs| ==> BeginStops(a, allocs[i..]) == Unchanged(a)
    ensures i < |allocs| ==>
              var o := BeginStop(a, allocs[i]);
              var rest := BeginStops(o.agent, allocs[i + 1..]);
              BeginStops(a, allocs[i..]) == Out(rest.agent, o.fx + rest.fx, rest.reports)
  {
    hide BeginStop;
    if i < |allocs| { assert allocs[i..][1..] == allocs[i + 1..]; }
  }

  lemma RejectedIffStale(a: Agent, h: Header)
    ensures Spec.Admit(a, h).admission.Reject? <==> Stale(a.state.watermark, TokenOf(h))
    ensures Spec.Admit(a, h).admission.Reject? ==> Spec.Admit(a, h) == Admitted(Reject, a, [])
  {
  }

  lemma SpentStep(s: State, cs: seq<Container>, i: nat)
    requires i <= |cs|
    ensures SpentIds(s, cs[i..]) ==
              if i == |cs| then [] else (if Spent(s, cs[i]) then [cs[i].allocation] else []) + SpentIds(s, cs[i + 1..])
  {
    if i < |cs| { assert cs[i..][1..] == cs[i + 1..]; }
  }

  lemma RearmStep(s: State, cs: seq<Container>, at: int, i: nat)
    requires i <= |cs|
    ensures Rearmed(s, cs[i..], at) ==
              if i == |cs| then []
              else (if Bounded(s, cs[i]) then [Rearm(s, cs[i], at)] else []) + Rearmed(s, cs[i + 1..], at)
  {
    if i < |cs| { assert cs[i..][1..] == cs[i + 1..]; }
  }

  lemma SweepStep(s: State, cs: seq<Container>, now: Timestamp, bound: Duration, i: nat)
    requires i <= |cs|
    ensures SweepFx(s, cs[i..], now, bound) ==
              if i == |cs| then []
              else (if Sweepable(s, cs[i], now, bound) then [Remove(cs[i].allocation)] else [])
                   + SweepFx(s, cs[i + 1..], now, bound)
  {
    if i < |cs| { assert cs[i..][1..] == cs[i + 1..]; }
  }

  lemma ClaimStep(s: State, cs: seq<Container>, i: nat)
    requires i <= |cs|
    ensures Claimed(s, cs[i..]) ==
              if i == |cs| then [] else (if Claims(s, cs[i]) then [cs[i].allocation] else []) + Claimed(s, cs[i + 1..])
  {
    if i < |cs| { assert cs[i..][1..] == cs[i + 1..]; }
  }

  /** Exited containers whose exit is journaled are spent evidence. */
  method SpentContainers(s: State, containers: seq<Container>) returns (ids: seq<AllocationId>)
    ensures ids == SpentIds(s, containers)
  {
    hide SpentIds;
    ids := [];
    assert containers[0..] == containers;
    for i := 0 to |containers|
      invariant ids + SpentIds(s, containers[i..]) == SpentIds(s, containers)
    {
      SpentStep(s, containers, i);
      var c := containers[i];
      if c.state.HasExited? && c.allocation in s.exits { ids := ids + [c.allocation]; }
    }
    SpentStep(s, containers, |containers|);
  }

  /** The loop behind `Rearmed`. */
  method WatchdogsFor(s: State, containers: seq<Container>, observedAt: int) returns (armed: seq<ArmedWatchdog>)
    ensures armed == Rearmed(s, containers, observedAt)
  {
    hide Rearmed;
    armed := [];
    assert containers[0..] == containers;
    for i := 0 to |containers|
      invariant armed + Rearmed(s, containers[i..], observedAt) == Rearmed(s, containers, observedAt)
    {
      RearmStep(s, containers, observedAt, i);
      var c := containers[i];
      if c.state.IsRunning? && c.allocation !in s.exits && c.allocation in s.intents {
        var bound := s.intents[c.allocation].maxRuntime;
        if bound.Some? {
          var left := Max(ClampI64(bound.value - c.state.runtime), 0);
          armed := armed + [ArmedWatchdog(c.allocation, left, observedAt)];
        }
      }
    }
    RearmStep(s, containers, observedAt, |containers|);
  }

  /** The accountability filter over one observation. */
  method ClaimedContainers(s: State, containers: seq<Container>) returns (ids: seq<AllocationId>)
    ensures ids == Claimed(s, containers)
  {
    hide Claimed;
    ids := [];
    assert containers[0..] == containers;
    for i := 0 to |containers|
      invariant ids + Claimed(s, containers[i..]) == Claimed(s, containers)
    {
      ClaimStep(s, containers, i);
      var c := containers[i];
      if c.state.IsRunning? || (c.allocation in s.intents && c.allocation !in s.exits) { ids := ids + [c.allocation]; }
    }
    ClaimStep(s, containers, |containers|);
  }

  lemma NoEffects(c: Codec, disk: seq<byte>, rt: Runtime)
    requires Lawful(c)
    ensures DiskAfter(c, disk, []) == disk && RuntimeAfter(rt, []) == rt
  {
  }

  /** `out` holds exactly the members of `wanted` among the first `i` of `ks`, in order. */
  ghost predicate Collected(out: seq<AllocationId>, ks: seq<AllocationId>, i: nat, wanted: set<AllocationId>) {
    && i <= |ks| && StrictlyAscending(ks) && StrictlyAscending(out)
    && forall k :: k in out <==> k in ks[..i] && k in wanted
  }

  lemma NoneCollected(ks: seq<AllocationId>, wanted: set<AllocationId>)
    requires StrictlyAscending(ks)
    ensures Collected([], ks, 0, wanted)
  {
  }

  lemma Collect(out: seq<AllocationId>, ks: seq<AllocationId>, i: nat, wanted: set<AllocationId>)
    requires Collected(out, ks, i, wanted) && i < |ks|
    ensures Collected(if ks[i] in wanted then out + [ks[i]] else out, ks, i + 1, wanted)
  {
    assert ks[..i + 1] == ks[..i] + [ks[i]];
    forall j | 0 <= j < |out| ensures out[j] < ks[i] {
      assert out[j] in out;
      var m :| 0 <= m < i && ks[m] == out[j];
    }
  }

  lemma AllCollected(out: seq<AllocationId>, ks: seq<AllocationId>, wanted: set<AllocationId>)
    requires Collected(out, ks, |ks|, wanted) && forall k :: k in wanted ==> k in ks
    ensures out == Ascending(wanted)
  {
    assert ks[..|ks|] == ks;
    AscendingUnique(out, Ascending(wanted));
  }
}
