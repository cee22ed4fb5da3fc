/** The in-process container runtime, as it is updated in place. */
module FakeRuntime {
  import opened Types
  import opened JournalState
  import opened Executor

  /** Everything that outlives the agent: shared by every handle over the same runtime. */
  class FakeInner {
    var running: map<AllocationId, Container>
    var exited: map<AllocationId, Container>
    var failStarts: map<AllocationId, StartError>
    var startCounts: map<AllocationId, nat>
    var startedAt: map<AllocationId, Timestamp>
    var now: Timestamp
    var stopCauses: map<AllocationId, ExitCause>
    var exitOnSignal: map<AllocationId, (NoticeSignal, i32)>
    var failNextObserve: bool
    var signals: seq<(AllocationId, NoticeSignal)>

    constructor (now: Timestamp)
      ensures running == map[] && exited == map[] && failStarts == map[] && startCounts == map[] && startedAt == map[]
      ensures this.now == now && stopCauses == map[] && exitOnSignal == map[] && !failNextObserve && signals == []
    {
      running, exited, failStarts, startCounts, startedAt := map[], map[], map[], map[], map[];
      this.now, stopCauses, exitOnSignal, failNextObserve, signals := now, map[], map[], false, [];
    }
  }

  /** One agent's handle: the shared containers, and this instance's own exit queue. */
  class FakeExecutor {
    const inner: FakeInner
    var exits: seq<ExitEvent>

    ghost function View(): Runtime
      reads this, inner
    {
      Runtime(inner.running, inner.exited, inner.failStarts, inner.startCounts, inner.startedAt, inner.now,
              inner.stopCauses, inner.exitOnSignal, inner.failNextObserve, inner.signals, exits)
    }

    constructor Over(inner: FakeInner)
      ensures this.inner == inner && exits == []
    {
      this.inner := inner;
      exits := [];
    }

    /** A restarted agent's handle: the same containers, a private exit queue, and this handle's left alone. */
    method Fork() returns (restarted: FakeExecutor)
      ensures fresh(restarted) && restarted.inner == inner
      ensures restarted.View() == Executor.Fork(View())
    {
      restarted := new FakeExecutor.Over(inner);
    }

    method Start(a: AllocationId, attempt: AttemptId, job: JobId, bound: Option<Timestamp>) returns (r: StartResult)
      modifies inner
      ensures (View(), r) == StartContainer(old(View()), a, attempt, job, bound)
    {
      if a in inner.failStarts {
        r := Failed(inner.failStarts[a]);
        inner.failStarts := inner.failStarts - {a};
        return;
      }
      if bound.Some? && inner.now > bound.value {
        return Failed(LaunchBoundPassed(bound.value));
      }
      var count := if a in inner.startCounts then inner.startCounts[a] else 0;
      inner.startCounts := inner.startCounts[a := count + 1];
      inner.startedAt := inner.startedAt[a := inner.now];
      inner.running := inner.running[a := Container(a, attempt, job, IsRunning(0))];
      r := Started;
    }

    /** A running container ends on its own: moved to the exited set, then queued for the watcher. */
    method Finish(a: AllocationId, exit: ExitInfo)
      modifies this, inner
      ensures View() == Executor.Finish(old(View()), a, exit)
    {
      if a in inner.running {
        var c := inner.running[a];
        inner.running := inner.running - {a};
        inner.exited := inner.exited[a := c.(state := HasExited(exit))];
        exits := exits + [ExitEvent(a, exit)];
      }
    }

    method Stop(a: AllocationId) returns (stopped: StopOutcome)
      modifies inner
      ensures (View(), stopped) == StopContainer(old(View()), a)
    {
      if a in inner.exited && inner.exited[a].state.HasExited? {
        return AlreadyExited(inner.exited[a].state.exit);
      }
      if a in inner.running {
        var c := inner.running[a];
        inner.running := inner.running - {a};
        var cause := if a in inner.stopCauses then inner.stopCauses[a] else Natural;
        inner.stopCauses := inner.stopCauses - {a};
        var exit := ExitInfo(SIGKILL_CODE, cause, 0, inner.now);
        inner.exited := inner.exited[a := c.(state := HasExited(exit))];
        return Stopped(exit);
      }
      stopped := Unknown;
    }

    /** Deliver a notice signal; a container programmed to trap it exits, as a natural exit. */
    method Signal(a: AllocationId, signal: NoticeSignal) returns (delivered: bool)
      modifies this, inner
      ensures View() == SignalContainer(old(View()), a, signal)
      ensures delivered <==> a in old(inner.running)
    {
      if a !in inner.running { return false; }
      inner.signals := inner.signals + [(a, signal)];
      if a in inner.exitOnSignal && inner.exitOnSignal[a].0 == signal {
        var runtime := if a in inner.startedAt then Max(inner.now - inner.startedAt[a], 0) else 0;
        Finish(a, ExitInfo(inner.exitOnSignal[a].1, Natural, runtime, inner.now));
      }
      delivered := true;
    }

    method ListRunning() returns (out: seq<Container>)
      ensures out == RunningViews(View(), Ascending(inner.running.Keys))
    {
      hide RunningViews, Ascending;
      var live := Ascending(inner.running.Keys);
      ghost var rt := View();
      RunningViewsAre(rt, live);
      out := [];
      for i := 0 to |live|
        invariant |out| == i && forall k :: 0 <= k < i ==> out[k] == RunningViews(rt, live)[k]
      {
        assert live[i] in live && RunningViews(rt, live)[i] == RunningView(rt, live[i]);
        var c := inner.running[live[i]];
        if c.state.IsRunning? && c.allocation in inner.startedAt {
          c := c.(state := IsRunning(Max(inner.now - inner.startedAt[c.allocation], 0)));
        }
        out := out + [c];
      }
    }

    method ListExited() returns (out: seq<Container>)
      ensures out == ExitedViews(View(), Ascending(inner.exited.Keys))
    {
      hide ExitedViews, Ascending;
      var dead := Ascending(inner.exited.Keys);
      ghost var rt := View();
      ExitedViewsAre(rt, dead);
      out := [];
      for i := 0 to |dead|
        invariant |out| == i && forall k :: 0 <= k < i ==> out[k] == ExitedViews(rt, dead)[k]
      {
        assert dead[i] in dead && ExitedViews(rt, dead)[i] == rt.exited[dead[i]];
        out := out + [inner.exited[dead[i]]];
      }
    }

    /** Every container, running ones with their age, then exited ones; or the one programmed failure. */
    method Observe() returns (seen: Option<seq<Container>>)
      modifies inner
      ensures seen == if old(View()).failObserve then None else Some(Observed(old(View())))
      ensures View() == old(View()).(failObserve := false)
    {
      if inner.failNextObserve {
        inner.failNextObserve := false;
        return None;
      }
      var live := ListRunning();
      var dead := ListExited();
      seen := Some(live + dead);
    }

    /** Forget an exited container, if there is one. */
    method Reap(a: AllocationId)
      modifies inner
      ensures View() == Executor.Reap(old(View()), a)
    {
      inner.exited := inner.exited - {a};
    }

    /** The watcher's next exit, if one is queued. */
    method NextExit() returns (e: Option<ExitEvent>)
      modifies this
      ensures e == if old(exits) == [] then None else Some(old(exits)[0])
      ensures exits == if old(exits) == [] then [] else old(exits)[1..]
    {
      if exits == [] { return None; }
      e := Some(exits[0]);
      exits := exits[1..];
    }
  }
}
