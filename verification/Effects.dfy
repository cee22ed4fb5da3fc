/** What a handler's effects do to the journal and the runtime, in order and at every prefix. */
module Effects {
  import opened Types
  import opened JournalState
  import opened Executor
  import opened SessionSpec

  function RuntimeAfterOne(rt: Runtime, e: Effect): Runtime {
    match e
    case Append(_) => rt
    case Signal(a, signal) => SignalContainer(rt, a, signal)
    case Stop(a) => StopContainer(rt, a).0
    case Remove(a) => Reap(rt, a)
    case Observe => rt.(failObserve := false)
  }

  function StateAfterOne(s: State, e: Effect): State { if e.Append? then Apply(s, e.record) else s }

  function RuntimeAfter(rt: Runtime, fx: seq<Effect>): Runtime
    decreases |fx|
  {
    if fx == [] then rt else RuntimeAfter(RuntimeAfterOne(rt, fx[0]), fx[1..])
  }

  function StateAfter(s: State, fx: seq<Effect>): State
    decreases |fx|
  {
    if fx == [] then s else StateAfter(StateAfterOne(s, fx[0]), fx[1..])
  }

  /**
   * One effect is in order: a record obeys the journal's discipline, an exit is journaled only for
   * an allocation with no container running and no start (`unstarted`) still to run, a notice signal
   * has its intent durable behind it, and only a journaled exit's container is removed.
   */
  ghost predicate EffectOk(s: State, rt: Runtime, unstarted: set<AllocationId>, e: Effect) {
    match e
    case Append(r) =>
      Allowed(s, r) && (r.ObservedExit? ==> r.exit.allocation !in rt.running && r.exit.allocation !in unstarted)
    case Signal(a, _) => a in s.noticeIntents
    case Stop(_) => true
    case Remove(a) => a in s.exits
    case Observe => true
  }

  ghost predicate EffectsOk(s: State, rt: Runtime, unstarted: set<AllocationId>, fx: seq<Effect>)
    decreases |fx|
  {
    fx != [] ==>
      && EffectOk(s, rt, unstarted, fx[0])
      && EffectsOk(StateAfterOne(s, fx[0]), RuntimeAfterOne(rt, fx[0]), unstarted, fx[1..])
  }

  lemma {:induction false} EffectsConcat(s: State, rt: Runtime, u: set<AllocationId>, f: seq<Effect>, g: seq<Effect>)
    ensures StateAfter(s, f + g) == StateAfter(StateAfter(s, f), g)
    ensures RuntimeAfter(rt, f + g) == RuntimeAfter(RuntimeAfter(rt, f), g)
    ensures EffectsOk(s, rt, u, f) && EffectsOk(StateAfter(s, f), RuntimeAfter(rt, f), u, g) ==>
              EffectsOk(s, rt, u, f + g)
    decreases |f|
  {
    if f == [] {
      assert f + g == g;
    } else {
      assert (f + g)[0] == f[0] && (f + g)[1..] == f[1..] + g;
      EffectsConcat(StateAfterOne(s, f[0]), RuntimeAfterOne(rt, f[0]), u, f[1..], g);
    }
  }

  lemma OneEffect(s: State, rt: Runtime, u: set<AllocationId>, e: Effect)
    ensures StateAfter(s, [e]) == StateAfterOne(s, e)
    ensures RuntimeAfter(rt, [e]) == RuntimeAfterOne(rt, e)
    ensures EffectsOk(s, rt, u, [e]) <==> EffectOk(s, rt, u, e)
  {
    var none: seq<Effect> := [];
    assert [e][1..] == none;
    assert EffectsOk(StateAfterOne(s, e), RuntimeAfterOne(rt, e), u, none);
  }

  // ---- evidence ----

  /** A queued exit is the one its container shows, unless the container was reaped since. */
  predicate Queued(rt: Runtime, e: ExitEvent) {
    && e.exit.runtime >= 0 && e.allocation !in rt.running
    && (e.allocation in rt.exited ==> rt.exited[e.allocation].state == HasExited(e.exit))
  }

  /** Exit evidence the runtime holds is sane: non-negative runtimes, and every queued exit told truly. */
  ghost predicate EvidenceOk(rt: Runtime) {
    && (forall a :: a in rt.exited && rt.exited[a].state.HasExited? ==> rt.exited[a].state.exit.runtime >= 0)
    && (forall i :: 0 <= i < |rt.queue| ==> Queued(rt, rt.queue[i]))
  }

  predicate Visible(rt: Runtime, a: AllocationId) { a in rt.running || a in rt.exited }

  function Labels(rt: Runtime, a: AllocationId): (AttemptId, JobId)
    requires Visible(rt, a)
  {
    var c := if a in rt.running then rt.running[a] else rt.exited[a];
    (c.attempt, c.job)
  }

  /** Containers only wind down: nothing starts, and one leaves view only once its exit is journaled in `s`. */
  ghost predicate WindsDown(rt: Runtime, rt': Runtime, s: State) {
    && rt'.startCounts == rt.startCounts
    && (forall a :: a in rt'.running ==> a in rt.running)
    && (forall a :: Visible(rt', a) ==> Visible(rt, a) && Labels(rt', a) == Labels(rt, a))
    && (forall a :: Visible(rt, a) ==> Visible(rt', a) || a in s.exits)
    && (forall i :: 0 <= i < |rt'.queue| ==> rt'.queue[i] in rt.queue || Visible(rt, rt'.queue[i].allocation))
  }

  lemma EffectWindsDown(s: State, rt: Runtime, u: set<AllocationId>, e: Effect)
    requires EffectOk(s, rt, u, e) && RuntimeOk(rt) && EvidenceOk(rt)
    ensures var rt' := RuntimeAfterOne(rt, e); RuntimeOk(rt') && EvidenceOk(rt') && WindsDown(rt, rt', s)
  {
    match e
    case Append(_) =>
    case Observe =>
    case Remove(_) =>
    case Stop(a) => StopWindsDown(s, rt, a);
    case Signal(a, signal) => SignalWindsDown(s, rt, a, signal);
  }

  lemma EndedPresence(rt: Runtime, a: AllocationId, exit: ExitInfo)
    requires a in rt.running
    ensures var rt' := Ended(rt, a, exit);
            && (forall b :: b in rt'.running <==> b in rt.running && b != a)
            && (forall b :: b in rt'.exited <==> b in rt.exited || b == a)
            && (forall b :: Visible(rt', b) <==> Visible(rt, b))
  {
  }

  lemma EndedWindsDown(s: State, rt: Runtime, a: AllocationId, exit: ExitInfo)
    requires RuntimeOk(rt) && EvidenceOk(rt) && a in rt.running && exit.runtime >= 0
    ensures RuntimeOk(Ended(rt, a, exit)) && EvidenceOk(Ended(rt, a, exit)) && WindsDown(rt, Ended(rt, a, exit), s)
  {
    EndedPresence(rt, a, exit);
  }

  lemma FinishWindsDown(s: State, rt: Runtime, a: AllocationId, exit: ExitInfo)
    requires RuntimeOk(rt) && EvidenceOk(rt) && exit.runtime >= 0
    ensures RuntimeOk(Finish(rt, a, exit)) && EvidenceOk(Finish(rt, a, exit)) && WindsDown(rt, Finish(rt, a, exit), s)
  {
    if a in rt.running {
      EndedWindsDown(s, rt, a, exit);
      EndedPresence(rt, a, exit);
    }
  }

  lemma StopWindsDown(s: State, rt: Runtime, a: AllocationId)
    requires RuntimeOk(rt) && EvidenceOk(rt)
    ensures var rt' := StopContainer(rt, a).0; RuntimeOk(rt') && EvidenceOk(rt') && WindsDown(rt, rt', s)
  {
    if a in rt.running { EndedWindsDown(s, rt, a, StopExit(rt, a)); }
  }

  lemma SignalsAreNotEvidence(s: State, rt: Runtime, rt1: Runtime, rt': Runtime)
    requires rt1 == rt.(signals := rt1.signals)
    ensures RuntimeOk(rt1) <==> RuntimeOk(rt)
    ensures EvidenceOk(rt1) <==> EvidenceOk(rt)
    ensures WindsDown(rt1, rt', s) ==> WindsDown(rt, rt', s)
    ensures WindsDown(rt, rt1, s)
  {
  }

  lemma SignalWindsDown(s: State, rt: Runtime, a: AllocationId, signal: NoticeSignal)
    requires RuntimeOk(rt) && EvidenceOk(rt)
    ensures var rt' := SignalContainer(rt, a, signal); RuntimeOk(rt') && EvidenceOk(rt') && WindsDown(rt, rt', s)
  {
    var rt1 := rt.(signals := rt.signals + [(a, signal)]);
    SignalsAreNotEvidence(s, rt, rt1, rt1);
    if a in rt.running && a in rt.exitOnSignal && rt.exitOnSignal[a].0 == signal {
      var exit := ExitInfo(rt.exitOnSignal[a].1, Natural, RanFor(rt, a), rt.now);
      FinishWindsDown(s, rt1, a, exit);
      SignalsAreNotEvidence(s, rt, rt1, Finish(rt1, a, exit));
    }
  }

  lemma WindsDownTransitive(r0: Runtime, r1: Runtime, r2: Runtime, s1: State, s2: State)
    requires WindsDown(r0, r1, s1) && WindsDown(r1, r2, s2) && Later(s1, s2)
    ensures WindsDown(r0, r2, s2)
  {
    forall i | 0 <= i < |r2.queue| ensures r2.queue[i] in r0.queue || Visible(r0, r2.queue[i].allocation) {
      var ev := r2.queue[i];
      if ev in r1.queue {
        var j :| 0 <= j < |r1.queue| && r1.queue[j] == ev;
      }
    }
  }

  /** Exits journaled since `s` belong to allocations with nothing running and nothing left to start. */
  ghost predicate FreshExitsQuiet(s: State, s': State, rt': Runtime, u: set<AllocationId>) {
    forall a :: a in s'.exits && a !in s.exits ==> a !in rt'.running && a !in u
  }

  /** The journal accounted and later, the runtime only wound down, fresh exits quiet. */
  ghost predicate Progress(s: State, rt: Runtime, u: set<AllocationId>, s': State, rt': Runtime) {
    && Accounted(s') && Later(s, s')
    && RuntimeOk(rt') && EvidenceOk(rt') && WindsDown(rt, rt', s')
    && FreshExitsQuiet(s, s', rt', u)
  }

  lemma EffectProgress(s: State, rt: Runtime, u: set<AllocationId>, e: Effect)
    requires EffectOk(s, rt, u, e) && Accounted(s) && RuntimeOk(rt) && EvidenceOk(rt)
    ensures Progress(s, rt, u, StateAfterOne(s, e), RuntimeAfterOne(rt, e))
  {
    EffectWindsDown(s, rt, u, e);
    if e.Append? {
      AllowedKeepsAccounted(s, e.record);
      AllowedIsLater(s, e.record);
    } else {
      LaterReflexive(s);
    }
  }

  lemma ProgressCompose(s: State, rt: Runtime, u: set<AllocationId>, s1: State, rt1: Runtime, s2: State, rt2: Runtime)
    requires Progress(s, rt, u, s1, rt1) && Progress(s1, rt1, u, s2, rt2)
    ensures Progress(s, rt, u, s2, rt2)
  {
    LaterTransitive(s, s1, s2);
    WindsDownTransitive(rt, rt1, rt2, s1, s2);
  }

  /** Every prefix of a handler's effects makes progress: this is what a crash inside it leaves behind. */
  lemma {:induction false} PrefixProgress(s: State, rt: Runtime, u: set<AllocationId>, fx: seq<Effect>, k: nat)
    requires EffectsOk(s, rt, u, fx) && k <= |fx|
    requires Accounted(s) && RuntimeOk(rt) && EvidenceOk(rt)
    ensures Progress(s, rt, u, StateAfter(s, fx[..k]), RuntimeAfter(rt, fx[..k]))
    decreases k
  {
    if k == 0 {
      assert fx[..k] == [];
      LaterReflexive(s);
    } else {
      var s1, rt1 := StateAfterOne(s, fx[0]), RuntimeAfterOne(rt, fx[0]);
      EffectProgress(s, rt, u, fx[0]);
      PrefixProgress(s1, rt1, u, fx[1..], k - 1);
      assert fx[..k][0] == fx[0] && fx[..k][1..] == fx[1..][..k - 1];
      ProgressCompose(s, rt, u, s1, rt1, StateAfter(s, fx[..k]), RuntimeAfter(rt, fx[..k]));
    }
  }
}
