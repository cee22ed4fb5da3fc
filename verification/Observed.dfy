/** Restart reconciliation: the recovered journal and the runtime merged into the reported set. */
module Observed {
  import opened Types
  import opened JournalState
  import opened Executor

  datatype ObservedAllocation = ObservedAllocation(
    allocation: AllocationId, attempt: AttemptId, job: JobId,
    running: bool, outcome: Option<Outcome>, runtime: Duration)

  /** The runtime's entry for `a`: the last one listed, as indexing by id keeps it. */
  function LastFor(cs: seq<Container>, a: AllocationId): (r: Option<Container>)
    ensures r.Some? ==> r.value in cs && r.value.allocation == a
    ensures r.None? ==> forall c :: c in cs ==> c.allocation != a
    decreases |cs|
  {
    if cs == [] then None
    else if cs[|cs| - 1].allocation == a then Some(cs[|cs| - 1])
    else LastFor(cs[..|cs| - 1], a)
  }

  function FromRuntime(c: Container, s: State): ObservedAllocation {
    match c.state
    case IsRunning(runtime) => ObservedAllocation(c.allocation, c.attempt, c.job, true, None, runtime)
    case HasExited(exit) =>
      ObservedAllocation(c.allocation, c.attempt, c.job, false,
                         Some(ClassifyExit(exit, AttributionOf(s, c.allocation))), exit.runtime)
  }

  predicate Reportable(s: State, cs: seq<Container>, a: AllocationId) {
    LastFor(cs, a).Some? || a in s.exits || a in s.intents
  }

  /** Running evidence, then the journaled exit, then the runtime's own classification, then doubt. */
  function Entry(s: State, cs: seq<Container>, a: AllocationId): ObservedAllocation
    requires Reportable(s, cs, a)
  {
    var c := LastFor(cs, a);
    if c.Some? && (c.value.state.IsRunning? || a !in s.exits) then FromRuntime(c.value, s)
    else if a in s.exits then
      var e := s.exits[a];
      ObservedAllocation(a, e.attempt, e.job, false, Some(e.outcome), e.runtime)
    else
      var i := s.intents[a];
      ObservedAllocation(a, i.attempt, i.job, false, Some(AgentError), 0)
  }

  function Entries(s: State, cs: seq<Container>, ks: seq<AllocationId>): (out: seq<ObservedAllocation>)
    requires forall k :: k in ks ==> Reportable(s, cs, k)
    ensures |out| == |ks|
    ensures forall i :: 0 <= i < |ks| ==> out[i] == Entry(s, cs, ks[i])
    decreases |ks|
  {
    if ks == [] then [] else [Entry(s, cs, ks[0])] + Entries(s, cs, ks[1..])
  }

  function Reported(s: State, cs: seq<Container>): set<AllocationId> {
    (set c | c in cs :: c.allocation) + s.exits.Keys + s.intents.Keys
  }

  lemma ReportedIsReportable(s: State, cs: seq<Container>)
    ensures forall a :: a in Reported(s, cs) <==> Reportable(s, cs, a)
  {
    forall a ensures a in Reported(s, cs) <==> Reportable(s, cs, a) {
      var last := LastFor(cs, a);
    }
  }

  function ObservedSet(s: State, cs: seq<Container>): seq<ObservedAllocation> {
    ReportedIsReportable(s, cs);
    Entries(s, cs, Ascending(Reported(s, cs)))
  }

  // ---- the rule, stated without the construction ----

  predicate RunningEvidence(cs: seq<Container>, a: AllocationId) {
    LastFor(cs, a).Some? && LastFor(cs, a).value.state.IsRunning?
  }

  predicate ExitEvidence(cs: seq<Container>, a: AllocationId) {
    LastFor(cs, a).Some? && LastFor(cs, a).value.state.HasExited?
  }

  /** One entry obeys the truth rules: never running without evidence, never doubt where there is any. */
  ghost predicate Truthful(s: State, cs: seq<Container>, o: ObservedAllocation) {
    var a := o.allocation;
    && (o.running <==> RunningEvidence(cs, a))
    && (o.running <==> o.outcome.None?)
    && (o.running ==> o.runtime == LastFor(cs, a).value.state.runtime)
    && (!o.running && a in s.exits ==>
          o.outcome == Some(s.exits[a].outcome) && o.runtime == s.exits[a].runtime
          && o.attempt == s.exits[a].attempt && o.job == s.exits[a].job)
    && (!o.running && a !in s.exits && ExitEvidence(cs, a) ==>
          var e := LastFor(cs, a).value.state.exit;
          o.outcome == Some(ClassifyExit(e, AttributionOf(s, a))) && o.runtime == e.runtime)
    && (!o.running && a !in s.exits && !ExitEvidence(cs, a) ==>
          a in s.intents && o.outcome == Some(AgentError) && o.runtime == 0
          && o.attempt == s.intents[a].attempt && o.job == s.intents[a].job)
    && (o.running || (a !in s.exits && ExitEvidence(cs, a)) ==>
          o.attempt == LastFor(cs, a).value.attempt && o.job == LastFor(cs, a).value.job)
  }

  function IdsOf(out: seq<ObservedAllocation>): seq<AllocationId> {
    seq(|out|, i requires 0 <= i < |out| => out[i].allocation)
  }

  /** The whole set: one truthful entry per reportable allocation, in strict id order. */
  ghost predicate Reconciles(s: State, cs: seq<Container>, out: seq<ObservedAllocation>) {
    && StrictlyAscending(IdsOf(out))
    && (forall a :: a in IdsOf(out) <==> Reportable(s, cs, a))
    && (forall i :: 0 <= i < |out| ==> Truthful(s, cs, out[i]))
  }

  lemma EntryIsTruthful(s: State, cs: seq<Container>, a: AllocationId)
    requires WellFormed(s) && Reportable(s, cs, a)
    ensures Entry(s, cs, a).allocation == a && Truthful(s, cs, Entry(s, cs, a))
  {
  }

  lemma ObservedSetReconciles(s: State, cs: seq<Container>)
    requires WellFormed(s)
    ensures Reconciles(s, cs, ObservedSet(s, cs))
    ensures IdsOf(ObservedSet(s, cs)) == Ascending(Reported(s, cs))
  {
    ReportedIsReportable(s, cs);
    var ks := Ascending(Reported(s, cs));
    var out := ObservedSet(s, cs);
    forall i | 0 <= i < |out|
      ensures out[i].allocation == ks[i] && Truthful(s, cs, out[i])
    {
      assert ks[i] in ks;
      EntryIsTruthful(s, cs, ks[i]);
    }
    assert IdsOf(out) == ks;
  }

  lemma TruthfulIsUnique(s: State, cs: seq<Container>, o: ObservedAllocation, p: ObservedAllocation)
    requires o.allocation == p.allocation && Truthful(s, cs, o) && Truthful(s, cs, p)
    ensures o == p
  {
  }

  /** The rule leaves no choice: two sets that obey it are equal. */
  lemma ReconciliationIsUnique(s: State, cs: seq<Container>, out: seq<ObservedAllocation>,
                               other: seq<ObservedAllocation>)
    requires Reconciles(s, cs, out) && Reconciles(s, cs, other)
    ensures out == other
  {
    AscendingUnique(IdsOf(out), IdsOf(other));
    assert |out| == |IdsOf(other)| == |other|;
    forall i | 0 <= i < |out| ensures out[i] == other[i] {
      assert IdsOf(out)[i] == IdsOf(other)[i];
      TruthfulIsUnique(s, cs, out[i], other[i]);
    }
  }

  /** Index the runtime by allocation, a later entry replacing an earlier one. */
  method IndexByAllocation(runtime: seq<Container>) returns (byAlloc: map<AllocationId, Container>)
    ensures forall a :: Get(byAlloc, a) == LastFor(runtime, a)
  {
    byAlloc := map[];
    for i := 0 to |runtime|
      invariant forall a :: Get(byAlloc, a) == LastFor(runtime[..i], a)
    {
      assert runtime[..i + 1][..i] == runtime[..i];
      byAlloc := byAlloc[runtime[i].allocation := runtime[i]];
    }
    assert runtime[..|runtime|] == runtime;
  }

  lemma IndexCoversReported(s: State, cs: seq<Container>, byAlloc: map<AllocationId, Container>)
    requires forall a :: Get(byAlloc, a) == LastFor(cs, a)
    ensures byAlloc.Keys + s.exits.Keys + s.intents.Keys == Reported(s, cs)
  {
    ReportedIsReportable(s, cs);
    forall a ensures a in byAlloc.Keys + s.exits.Keys + s.intents.Keys <==> a in Reported(s, cs) {
      assert Get(byAlloc, a) == LastFor(cs, a);
    }
  }

  /** One step of the walk: the entry for `a`, from the index and the journal. */
  method MergeOne(s: State, ghost cs: seq<Container>, byAlloc: map<AllocationId, Container>, a: AllocationId)
    returns (o: ObservedAllocation)
    requires Reportable(s, cs, a) && Get(byAlloc, a) == LastFor(cs, a)
    ensures o == Entry(s, cs, a)
  {
    if a in byAlloc && (byAlloc[a].state.IsRunning? || a !in s.exits) {
      o := FromRuntime(byAlloc[a], s);
    } else if a in s.exits {
      var e := s.exits[a];
      o := ObservedAllocation(a, e.attempt, e.job, false, Some(e.outcome), e.runtime);
    } else {
      var intent := s.intents[a];
      o := ObservedAllocation(a, intent.attempt, intent.job, false, Some(AgentError), 0);
    }
  }

  lemma PrefixGrows(want: seq<ObservedAllocation>, i: nat)
    requires i < |want|
    ensures want[..i + 1] == want[..i] + [want[i]]
  {
  }

  method MergeAll(s: State, ghost cs: seq<Container>, byAlloc: map<AllocationId, Container>, ks: seq<AllocationId>)
    returns (out: seq<ObservedAllocation>)
    requires forall a :: Get(byAlloc, a) == LastFor(cs, a)
    requires forall k :: k in ks ==> Reportable(s, cs, k)
    ensures out == Entries(s, cs, ks)
  {
    ghost var want := Entries(s, cs, ks);
    out := [];
    for i := 0 to |ks|
      invariant out == want[..i]
    {
      assert ks[i] in ks;
      var o := MergeOne(s, cs, byAlloc, ks[i]);
      PrefixGrows(want, i);
      out := out + [o];
    }
  }

  /** The merge as the agent runs it: index the runtime by id, then walk every id in order. */
  method BuildObservedSet(s: State, runtime: seq<Container>) returns (out: seq<ObservedAllocation>)
    ensures out == ObservedSet(s, runtime)
    ensures WellFormed(s) ==> Reconciles(s, runtime, out)
  {
    var byAlloc := IndexByAllocation(runtime);
    IndexCoversReported(s, runtime, byAlloc);
    ReportedIsReportable(s, runtime);
    if WellFormed(s) { ObservedSetReconciles(s, runtime); }
    var ks := Ascending(byAlloc.Keys + s.exits.Keys + s.intents.Keys);
    out := MergeAll(s, runtime, byAlloc, ks);
  }
}
