/** The journal's records and the state they fold into (ADR 0009, 0013, 0044). */
module JournalState {
  import opened Types

  datatype Watermark = Watermark(leaderTerm: u64, nodeEpoch: u64)

  datatype Intent = Intent(
    allocation: AllocationId, attempt: AttemptId, job: JobId, nodeEpoch: u64,
    maxRuntime: Option<Duration>, noticeSignal: NoticeSignal,
    notice: Duration, abortGrace: Duration, cleanupMargin: Duration)

  datatype TombstoneReason = Abort | Preempt(reason: PreemptReason)

  /** The outcome a tombstone stands for. */
  function TombstoneOutcome(t: TombstoneReason): Outcome {
    match t
    case Abort => Aborted
    case Preempt(reason) => Preempted(reason)
  }

  datatype Mark = Mark(stopAt: Timestamp, shortfall: Duration, notifiedAt: Timestamp)

  datatype OperatorDrain = OperatorDrain(deadline: Timestamp, noticeWindow: Duration)

  datatype Plan = Plan(operator: Option<OperatorDrain>, interruption: Option<Timestamp>)

  const NO_PLAN := Plan(None, None)

  datatype Exit = Exit(
    allocation: AllocationId, attempt: AttemptId, job: JobId, outcome: Outcome, runtime: Duration)

  datatype State = State(
    watermark: Watermark,
    intents: map<AllocationId, Intent>,
    tombstones: map<AllocationId, TombstoneReason>,
    exits: map<AllocationId, Exit>,
    noticeIntents: map<AllocationId, PreemptReason>,
    marks: map<AllocationId, Mark>,
    plan: Plan)

  const EMPTY := State(Watermark(0, 0), map[], map[], map[], map[], map[], NO_PLAN)

  datatype Record =
    | Fencing(watermark: Watermark)
    | StartIntent(intent: Intent)
    | Tombstone(allocation: AllocationId, tombstone: TombstoneReason)
    | ObservedExit(exit: Exit)
    | NoticeIntent(allocation: AllocationId, reason: PreemptReason)
    | NoticeMark(allocation: AllocationId, mark: Mark)
    | DrainPlan(plan: Plan)

  function Apply(s: State, r: Record): State {
    match r
    case Fencing(w) =>
      s.(watermark := Watermark(Max(s.watermark.leaderTerm, w.leaderTerm), Max(s.watermark.nodeEpoch, w.nodeEpoch)))
    case StartIntent(i) => s.(intents := s.intents[i.allocation := i])
    case Tombstone(a, t) => s.(tombstones := s.tombstones[a := t])
    case ObservedExit(e) => s.(exits := s.exits[e.allocation := e])
    case NoticeIntent(a, reason) => s.(noticeIntents := s.noticeIntents[a := reason])
    case NoticeMark(a, m) => s.(marks := s.marks[a := m])
    case DrainPlan(p) => s.(plan := p)
  }

  function Replay(s: State, log: seq<Record>): State
    decreases |log|
  {
    if log == [] then s else Replay(Apply(s, log[0]), log[1..])
  }

  lemma {:induction false} ReplayConcat(s: State, a: seq<Record>, b: seq<Record>)
    ensures Replay(s, a + b) == Replay(Replay(s, a), b)
    decreases |a|
  {
    if a == [] {
      assert a + b == b;
    } else {
      assert (a + b)[0] == a[0] && (a + b)[1..] == a[1..] + b;
      ReplayConcat(Apply(s, a[0]), a[1..], b);
    }
  }

  // ---- what the wire can carry ----

  predicate IntentSpansOk(i: Intent) {
    && (i.maxRuntime.Some? ==> i.maxRuntime.value >= 0)
    && i.notice >= 0 && i.abortGrace >= 0 && i.cleanupMargin >= 0
  }

  predicate PlanOk(p: Plan) { p.operator.Some? ==> p.operator.value.noticeWindow >= 0 }

  /** Whether a record survives its own encoding: every span it carries is non-negative. */
  predicate Representable(r: Record) {
    match r
    case StartIntent(i) => IntentSpansOk(i)
    case ObservedExit(e) => e.runtime >= 0
    case NoticeMark(_, m) => m.shortfall >= 0
    case DrainPlan(p) => PlanOk(p)
    case _ => true
  }

  ghost predicate AllRepresentable(log: seq<Record>) {
    forall i :: 0 <= i < |log| ==> Representable(log[i])
  }

  lemma ApplyWellFormed(s: State, r: Record)
    requires WellFormed(s) && Representable(r)
    ensures WellFormed(Apply(s, r))
  {
  }

  /** Replaying records the wire can carry always yields a well-formed state. */
  lemma {:induction false} ReplayWellFormed(s: State, log: seq<Record>)
    requires WellFormed(s) && AllRepresentable(log)
    ensures WellFormed(Replay(s, log))
    decreases |log|
  {
    if log != [] {
      ApplyWellFormed(s, log[0]);
      ReplayWellFormed(Apply(s, log[0]), log[1..]);
    }
  }

  // ---- the state invariant, and the records a handler may append ----

  ghost predicate IntentsOk(s: State) {
    forall a :: a in s.intents ==> s.intents[a].allocation == a && IntentSpansOk(s.intents[a])
  }

  ghost predicate ExitsOk(s: State) {
    forall a :: a in s.exits ==>
      && s.exits[a].allocation == a && s.exits[a].runtime >= 0
  }

  /** Every table is keyed by its own id and every span is non-negative. */
  ghost predicate WellFormed(s: State) {
    && IntentsOk(s)
    && ExitsOk(s)
    && (forall a :: a in s.marks ==> s.marks[a].shortfall >= 0)
    && PlanOk(s.plan)
  }

  /** A journaled exit belongs to the attempt its intent names, and is never the agent's own doubt. */
  ghost predicate ExitsAccounted(s: State) {
    forall a :: a in s.exits ==>
      && a in s.intents
      && s.exits[a].attempt == s.intents[a].attempt
      && s.exits[a].job == s.intents[a].job
      && s.exits[a].outcome != AgentError
  }

  /** What a window from notice to stop lacks of the notice promised. */
  function Shortfall(notice: Duration, notifiedAt: Timestamp, stopAt: Timestamp): Duration {
    Max(ClampI64(notice - Max(stopAt - notifiedAt, 0)), 0)
  }

  /** A mark says of the notice promised to `i` exactly what its window lacks. */
  predicate MarkHonest(i: Intent, m: Mark) { m.shortfall == Shortfall(i.notice, m.notifiedAt, m.stopAt) }

  ghost predicate NoticesAccounted(s: State) {
    && (forall a :: a in s.noticeIntents ==> a in s.intents)
    && (forall a :: a in s.marks ==> a in s.noticeIntents && a in s.intents && MarkHonest(s.intents[a], s.marks[a]))
  }

  ghost predicate Accounted(s: State) {
    WellFormed(s) && ExitsAccounted(s) && NoticesAccounted(s)
  }

  predicate Dominates(w: Watermark, v: Watermark) {
    w.leaderTerm >= v.leaderTerm && w.nodeEpoch >= v.nodeEpoch
  }

  /**
   * The discipline of the session's writes: an intent is new and unrefused, an exit is the
   * first for a journaled intent, a notice is given once and its stop only ever moves earlier,
   * and a tombstone without an intent is only ever replaced by an abort.
   */
  ghost predicate Allowed(s: State, r: Record) {
    && Representable(r)
    && match r
       case Fencing(w) => Dominates(w, s.watermark)
       case StartIntent(i) => i.allocation !in s.intents && i.allocation !in s.tombstones
       case Tombstone(a, t) => a !in s.tombstones || t == Abort || a in s.intents
       case ObservedExit(e) =>
         && e.allocation in s.intents && e.allocation !in s.exits
         && e.attempt == s.intents[e.allocation].attempt
         && e.job == s.intents[e.allocation].job
         && e.outcome != AgentError
       case NoticeIntent(a, _) => a in s.intents && a !in s.noticeIntents
       case NoticeMark(a, m) =>
         && a in s.noticeIntents && a in s.intents && MarkHonest(s.intents[a], m)
         && (a in s.marks ==> m.stopAt < s.marks[a].stopAt && m.notifiedAt == s.marks[a].notifiedAt)
       case DrainPlan(_) => true
  }

  lemma AllowedKeepsAccounted(s: State, r: Record)
    requires Accounted(s) && Allowed(s, r)
    ensures Accounted(Apply(s, r))
  {
  }

  // ---- what never goes back ----

  ghost predicate SubMap<K(!new), V>(m: map<K, V>, n: map<K, V>) {
    forall k :: k in m ==> k in n && n[k] == m[k]
  }

  /** An allocation refused before it had an intent: no container of its can ever exist. */
  predicate Refused(s: State, a: AllocationId) {
    a in s.tombstones && a !in s.intents
  }

  /**
   * The order the journal moves along: the watermark rises, intents, exits and notices are
   * permanent, a refusal stays a refusal, and a mark's stop never moves later.
   */
  ghost predicate Later(s: State, t: State) {
    && Dominates(t.watermark, s.watermark)
    && SubMap(s.intents, t.intents)
    && SubMap(s.exits, t.exits)
    && SubMap(s.noticeIntents, t.noticeIntents)
    && (forall a :: a in s.tombstones ==> a in t.tombstones)
    && (forall a :: Refused(s, a) ==>
          Refused(t, a) && (t.tombstones[a] == s.tombstones[a] || t.tombstones[a] == Abort))
    && (forall a :: a in s.marks ==>
          && a in t.marks
          && t.marks[a].stopAt <= s.marks[a].stopAt
          && t.marks[a].notifiedAt == s.marks[a].notifiedAt)
  }

  lemma AllowedIsLater(s: State, r: Record)
    requires Allowed(s, r)
    ensures Later(s, Apply(s, r))
  {
  }

  lemma LaterReflexive(s: State)
    ensures Later(s, s)
  {
  }

  lemma LaterTransitive(s: State, t: State, u: State)
    requires Later(s, t) && Later(t, u)
    ensures Later(s, u)
  {
  }

  // ---- compaction ----

  datatype Table = Intents | Tombstones | NoticeIntents | Marks | Exits

  function Keys(s: State, t: Table): set<AllocationId> {
    match t
    case Intents => s.intents.Keys
    case Tombstones => s.tombstones.Keys
    case NoticeIntents => s.noticeIntents.Keys
    case Marks => s.marks.Keys
    case Exits => s.exits.Keys
  }

  function Row(s: State, t: Table, a: AllocationId): Record
    requires a in Keys(s, t)
  {
    match t
    case Intents => StartIntent(s.intents[a])
    case Tombstones => Tombstone(a, s.tombstones[a])
    case NoticeIntents => NoticeIntent(a, s.noticeIntents[a])
    case Marks => NoticeMark(a, s.marks[a])
    case Exits => ObservedExit(s.exits[a])
  }

  /** The records of one table, in the order of `ks`. */
  function Section(s: State, t: Table, ks: seq<AllocationId>): seq<Record>
    requires forall k :: k in ks ==> k in Keys(s, t)
    decreases |ks|
  {
    if ks == [] then [] else [Row(s, t, ks[0])] + Section(s, t, ks[1..])
  }

  function WholeSection(s: State, t: Table): seq<Record> { Section(s, t, Ascending(Keys(s, t))) }

  function PlanSection(s: State): seq<Record> { if s.plan == NO_PLAN then [] else [DrainPlan(s.plan)] }

  function PlanTail(s: State): seq<Record> { PlanSection(s) + WholeSection(s, Exits) }

  function MarksTail(s: State): seq<Record> { WholeSection(s, Marks) + PlanTail(s) }

  function NoticesTail(s: State): seq<Record> { WholeSection(s, NoticeIntents) + MarksTail(s) }

  function TombstonesTail(s: State): seq<Record> { WholeSection(s, Tombstones) + NoticesTail(s) }

  /** The live set as records: the watermark, each table by allocation id, the plan if there is one. */
  function Canonical(s: State): seq<Record> {
    [Fencing(s.watermark)] + (WholeSection(s, Intents) + TombstonesTail(s))
  }

  /** `m` overwritten by `src` at each of `ks`. */
  function Over<V>(m: map<AllocationId, V>, src: map<AllocationId, V>, ks: seq<AllocationId>): (r: map<AllocationId, V>)
    requires forall k :: k in ks ==> k in src.Keys
    ensures r.Keys == m.Keys + set k | k in ks
    ensures forall k :: k in r ==> r[k] == if k in ks then src[k] else m[k]
    decreases |ks|
  {
    if ks == [] then m else Over(m[ks[0] := src[ks[0]]], src, ks[1..])
  }

  lemma OverAll<V>(src: map<AllocationId, V>)
    ensures Over(map[], src, Ascending(src.Keys)) == src
  {
    var r := Over(map[], src, Ascending(src.Keys));
    assert r.Keys == src.Keys;
  }

  function Overlay(s: State, src: State, t: Table, ks: seq<AllocationId>): State
    requires forall k :: k in ks ==> k in Keys(src, t)
  {
    match t
    case Intents =>
      assert Keys(src, t) == src.intents.Keys;
      s.(intents := Over(s.intents, src.intents, ks))
    case Tombstones =>
      assert Keys(src, t) == src.tombstones.Keys;
      s.(tombstones := Over(s.tombstones, src.tombstones, ks))
    case NoticeIntents =>
      assert Keys(src, t) == src.noticeIntents.Keys;
      s.(noticeIntents := Over(s.noticeIntents, src.noticeIntents, ks))
    case Marks =>
      assert Keys(src, t) == src.marks.Keys;
      s.(marks := Over(s.marks, src.marks, ks))
    case Exits =>
      assert Keys(src, t) == src.exits.Keys;
      s.(exits := Over(s.exits, src.exits, ks))
  }

  lemma {:induction false} SectionReplays(s: State, src: State, t: Table, ks: seq<AllocationId>)
    requires WellFormed(src)
    requires forall k :: k in ks ==> k in Keys(src, t)
    ensures Replay(s, Section(src, t, ks)) == Overlay(s, src, t, ks)
    ensures AllRepresentable(Section(src, t, ks))
    decreases |ks|
  {
    if ks != [] {
      assert ks[0] in ks;
      var r := Row(src, t, ks[0]);
      assert Representable(r);
      SectionReplays(Apply(s, r), src, t, ks[1..]);
      assert Section(src, t, ks) == [r] + Section(src, t, ks[1..]);
      assert Section(src, t, ks)[1..] == Section(src, t, ks[1..]);
    }
  }

  function Restored(s: State, src: State, t: Table): State {
    match t
    case Intents => s.(intents := src.intents)
    case Tombstones => s.(tombstones := src.tombstones)
    case NoticeIntents => s.(noticeIntents := src.noticeIntents)
    case Marks => s.(marks := src.marks)
    case Exits => s.(exits := src.exits)
  }

  lemma SectionRestores(s: State, src: State, t: Table, rest: seq<Record>)
    requires WellFormed(src)
    requires Keys(s, t) == {}
    ensures Replay(s, WholeSection(src, t) + rest) == Replay(Restored(s, src, t), rest)
    ensures AllRepresentable(WholeSection(src, t))
  {
    SectionReplays(s, src, t, Ascending(Keys(src, t)));
    ReplayConcat(s, WholeSection(src, t), rest);
    match t
    case Intents => assert s.intents == map[]; OverAll(src.intents);
    case Tombstones => assert s.tombstones == map[]; OverAll(src.tombstones);
    case NoticeIntents => assert s.noticeIntents == map[]; OverAll(src.noticeIntents);
    case Marks => assert s.marks == map[]; OverAll(src.marks);
    case Exits => assert s.exits == map[]; OverAll(src.exits);
  }

  lemma PlanTailReplays(s: State)
    requires WellFormed(s)
    ensures Replay(s.(plan := NO_PLAN, exits := map[]), PlanTail(s)) == s
    ensures AllRepresentable(PlanTail(s))
  {
    var from := s.(plan := NO_PLAN, exits := map[]);
    ReplayConcat(from, PlanSection(s), WholeSection(s, Exits));
    SectionRestores(s.(exits := map[]), s, Exits, []);
    assert WholeSection(s, Exits) + [] == WholeSection(s, Exits);
  }

  lemma MarksTailReplays(s: State)
    requires WellFormed(s)
    ensures Replay(s.(marks := map[], plan := NO_PLAN, exits := map[]), MarksTail(s)) == s
    ensures AllRepresentable(MarksTail(s))
  {
    PlanTailReplays(s);
    SectionRestores(s.(marks := map[], plan := NO_PLAN, exits := map[]), s, Marks, PlanTail(s));
  }

  lemma NoticesTailReplays(s: State)
    requires WellFormed(s)
    ensures Replay(s.(noticeIntents := map[], marks := map[], plan := NO_PLAN, exits := map[]), NoticesTail(s)) == s
    ensures AllRepresentable(NoticesTail(s))
  {
    MarksTailReplays(s);
    SectionRestores(s.(noticeIntents := map[], marks := map[], plan := NO_PLAN, exits := map[]),
                    s, NoticeIntents, MarksTail(s));
  }

  lemma TombstonesTailReplays(s: State)
    requires WellFormed(s)
    ensures Replay(EMPTY.(watermark := s.watermark, intents := s.intents), TombstonesTail(s)) == s
    ensures AllRepresentable(TombstonesTail(s))
  {
    NoticesTailReplays(s);
    SectionRestores(EMPTY.(watermark := s.watermark, intents := s.intents), s, Tombstones, NoticesTail(s));
  }

  /** Compaction preserves meaning: replaying the canonical records gives back exactly the state. */
  lemma CanonicalReplays(s: State)
    requires WellFormed(s)
    ensures Replay(EMPTY, Canonical(s)) == s
    ensures AllRepresentable(Canonical(s))
  {
    TombstonesTailReplays(s);
    SectionRestores(EMPTY.(watermark := s.watermark), s, Intents, TombstonesTail(s));
    assert Canonical(s)[1..] == WholeSection(s, Intents) + TombstonesTail(s);
    assert Apply(EMPTY, Canonical(s)[0]) == EMPTY.(watermark := s.watermark);
  }
}
