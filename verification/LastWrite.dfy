/** What a journal means, said without folding it: the last record written about each thing decides. */
module LastWrite {
  import opened Types
  import opened JournalState

  /** `r` is a row of table `t` about allocation `a`. */
  predicate Writes(r: Record, t: Table, a: AllocationId) {
    match r
    case StartIntent(i) => t.Intents? && i.allocation == a
    case Tombstone(b, _) => t.Tombstones? && b == a
    case NoticeIntent(b, _) => t.NoticeIntents? && b == a
    case NoticeMark(b, _) => t.Marks? && b == a
    case ObservedExit(e) => t.Exits? && e.allocation == a
    case Fencing(_) => false
    case DrainPlan(_) => false
  }

  ghost predicate IsLastWrite(log: seq<Record>, i: nat, t: Table, a: AllocationId) {
    && i < |log| && Writes(log[i], t, a)
    && forall j :: i < j < |log| ==> !Writes(log[j], t, a)
  }

  ghost predicate NeverWritten(log: seq<Record>, t: Table, a: AllocationId) {
    forall j :: 0 <= j < |log| ==> !Writes(log[j], t, a)
  }

  lemma ApplyWrites(s: State, r: Record, t: Table, a: AllocationId)
    ensures a in Keys(Apply(s, r), t) <==> a in Keys(s, t) || Writes(r, t, a)
    ensures Writes(r, t, a) ==> Row(Apply(s, r), t, a) == r
    ensures !Writes(r, t, a) && a in Keys(s, t) ==> Row(Apply(s, r), t, a) == Row(s, t, a)
  {
  }

  lemma ReplayLast(s: State, log: seq<Record>)
    ensures log == [] ==> Replay(s, log) == s
    ensures log != [] ==> Replay(s, log) == Apply(Replay(s, log[..|log| - 1]), log[|log| - 1])
  {
    if log != [] {
      var last := log[|log| - 1];
      assert log == log[..|log| - 1] + [last];
      ReplayConcat(s, log[..|log| - 1], [last]);
      var none: seq<Record> := [];
      assert [last][1..] == none;
    }
  }

  /** An allocation nothing was written about keeps its row, or its absence. */
  lemma {:induction false} UnwrittenIsKept(s: State, log: seq<Record>, t: Table, a: AllocationId)
    requires NeverWritten(log, t, a)
    ensures a in Keys(Replay(s, log), t) <==> a in Keys(s, t)
    ensures a in Keys(s, t) ==> Row(Replay(s, log), t, a) == Row(s, t, a)
    decreases |log|
  {
    hide Replay, Apply, Keys, Row;
    ReplayLast(s, log);
    if log != [] {
      UnwrittenIsKept(s, log[..|log| - 1], t, a);
      ApplyWrites(Replay(s, log[..|log| - 1]), log[|log| - 1], t, a);
    }
  }

  /** An allocation's row after replay is exactly the last record written about it. */
  lemma {:induction false} LastWriteWins(s: State, log: seq<Record>, t: Table, a: AllocationId, i: nat)
    requires IsLastWrite(log, i, t, a)
    ensures a in Keys(Replay(s, log), t) && Row(Replay(s, log), t, a) == log[i]
    decreases |log|
  {
    hide Replay, Apply, Keys, Row;
    ReplayLast(s, log);
    ApplyWrites(Replay(s, log[..|log| - 1]), log[|log| - 1], t, a);
    if i < |log| - 1 { LastWriteWins(s, log[..|log| - 1], t, a, i); }
  }

  /** The plan: from the latest plan record, or none. */
  lemma {:induction false} LastPlanWins(s: State, log: seq<Record>)
    ensures forall i :: 0 <= i < |log| && log[i].DrainPlan? && (forall j :: i < j < |log| ==> !log[j].DrainPlan?) ==>
              Replay(s, log).plan == log[i].plan
    ensures (forall j :: 0 <= j < |log| ==> !log[j].DrainPlan?) ==> Replay(s, log).plan == s.plan
    decreases |log|
  {
    hide Replay;
    ReplayLast(s, log);
    if log != [] {
      LastPlanWins(s, log[..|log| - 1]);
    }
  }

  /** The watermark is the componentwise maximum ever journaled, in whatever order the records stand. */
  lemma {:induction false} WatermarkIsMaximum(s: State, log: seq<Record>)
    ensures var w := Replay(s, log).watermark;
            && Dominates(w, s.watermark)
            && (forall i :: 0 <= i < |log| && log[i].Fencing? ==> Dominates(w, log[i].watermark))
            && (w.leaderTerm == s.watermark.leaderTerm ||
                exists i :: 0 <= i < |log| && log[i].Fencing? && log[i].watermark.leaderTerm == w.leaderTerm)
            && (w.nodeEpoch == s.watermark.nodeEpoch ||
                exists i :: 0 <= i < |log| && log[i].Fencing? && log[i].watermark.nodeEpoch == w.nodeEpoch)
    decreases |log|
  {
    hide Replay;
    ReplayLast(s, log);
    if log != [] {
      var init, n := log[..|log| - 1], |log| - 1;
      WatermarkIsMaximum(s, init);
      var v, w := Replay(s, init).watermark, Replay(s, log).watermark;
      if w.leaderTerm != v.leaderTerm { assert log[n].Fencing? && log[n].watermark.leaderTerm == w.leaderTerm; }
      if w.nodeEpoch != v.nodeEpoch { assert log[n].Fencing? && log[n].watermark.nodeEpoch == w.nodeEpoch; }
      if i :| 0 <= i < n && init[i].Fencing? && init[i].watermark.leaderTerm == v.leaderTerm {
        assert log[i] == init[i];
      }
      if i :| 0 <= i < n && init[i].Fencing? && init[i].watermark.nodeEpoch == v.nodeEpoch {
        assert log[i] == init[i];
      }
    }
  }
}
