/** What the drain plan's arithmetic means, said without its case analysis. */
module DrainPlans {
  import opened Types
  import opened JournalState
  import opened Executor
  import opened SessionSpec

  /** One active component of a plan, as it bears on one attempt. */
  datatype Component = Component(noticeAt: int, stopAt: int)

  function Floor(x: int): int { if x < MIN_MICROS then MIN_MICROS else x }

  /** A component's stop: its deadline minus both of the attempt's spans, floored at the calendar. */
  function StopUnder(deadline: Timestamp, i: Intent): int { Floor(deadline - i.cleanupMargin - i.abortGrace) }

  /** At most two components: the interruption is due from the start of time, the drain one window ahead of its stop. */
  function Components(p: Plan, i: Intent): set<Component> {
    (if p.interruption.Some? then {Component(MIN_MICROS, StopUnder(p.interruption.value, i))} else {}) +
    (if p.operator.Some? then
       var stop := StopUnder(p.operator.value.deadline, i);
       {Component(Floor(stop - p.operator.value.noticeWindow), stop)}
     else {})
  }

  lemma StopTimeIsExact(deadline: Timestamp, i: Intent)
    requires IntentSpansOk(i)
    ensures StopTime(deadline, i) == StopUnder(deadline, i) <= deadline
  {
  }

  /**
   * The terms of a plan: none without a component; notice at the earliest component's notice time; the
   * stop that of the earliest component already due, or of the one component while none is; the reason
   * the interruption's while there is one.
   */
  lemma TermsMeanComponents(p: Plan, i: Intent, now: Timestamp)
    requires IntentSpansOk(i) && PlanOk(p)
    ensures TermsFor(p, i, now).None? <==> Components(p, i) == {}
    ensures TermsFor(p, i, now).Some? ==>
              var t := TermsFor(p, i, now).value;
              && (exists c :: c in Components(p, i) && c.noticeAt == t.noticeAt)
              && (forall c :: c in Components(p, i) ==> t.noticeAt <= c.noticeAt)
              && (exists c :: c in Components(p, i) && c.stopAt == t.stopAt && (c.noticeAt <= now || now < t.noticeAt))
              && (forall c :: c in Components(p, i) && c.noticeAt <= now ==> t.stopAt <= c.stopAt)
              && (t.reason == Interruption <==> p.interruption.Some?)
              && (t.reason == Drain <==> p.interruption.None?)
  {
    if p.interruption.Some? {
      StopTimeIsExact(p.interruption.value, i);
      assert Component(MIN_MICROS, StopUnder(p.interruption.value, i)) in Components(p, i);
    }
    if p.operator.Some? {
      var stop := StopUnder(p.operator.value.deadline, i);
      StopTimeIsExact(p.operator.value.deadline, i);
      assert Component(Floor(stop - p.operator.value.noticeWindow), stop) in Components(p, i);
    }
  }

  /** No component already due has its stop behind it. */
  ghost predicate OnTime(p: Plan, i: Intent, now: Timestamp) {
    forall c :: c in Components(p, i) && c.noticeAt <= now ==> now <= c.stopAt
  }

  /** The stop the plan gives at `now` is still ahead exactly when no due component's has passed. */
  lemma OnTimeMeansStopAhead(p: Plan, i: Intent, now: Timestamp)
    requires IntentSpansOk(i) && PlanOk(p)
    ensures TermsFor(p, i, now).Some? ==> (now <= TermsFor(p, i, now).value.stopAt <==> OnTime(p, i, now))
    ensures TermsFor(p, i, now).None? ==> OnTime(p, i, now)
  {
    hide TermsFor, Components;
    TermsMeanComponents(p, i, now);
    if TermsFor(p, i, now).Some? {
      var t := TermsFor(p, i, now).value;
      var c :| c in Components(p, i) && c.stopAt == t.stopAt && (c.noticeAt <= now || now < t.noticeAt);
      ComponentsStopLater(p, i, c);
    }
  }

  lemma ComponentsStopLater(p: Plan, i: Intent, c: Component)
    requires PlanOk(p) && c in Components(p, i)
    ensures c.noticeAt <= c.stopAt
  {
  }

  /** The shortfall is exactly what the window from notice to stop lacks of the notice promised. */
  lemma ShortfallIsWhatIsMissing(notice: Duration, notifiedAt: Timestamp, stopAt: Timestamp)
    ensures var window := Max(stopAt - notifiedAt, 0);
            var s := Shortfall(notice, notifiedAt, stopAt);
            s >= 0 && window + s >= notice && (s > 0 ==> window + s == notice)
  {
  }

  /** These terms would bound a start that names `own` more tightly than it does itself. */
  predicate Lowers(own: Option<Timestamp>, terms: Option<PlanTerms>) {
    terms.Some? && (own.Some? ==> terms.value.stopAt < own.value)
  }

  /** The bound in force is the minimum of two times, and names the plan that lowered it. */
  predicate Earliest(b: StartBound, terms: Option<PlanTerms>) {
    && (b.current.None? <==> b.latestStart.None? && terms.None?)
    && (b.current.Some? ==>
          && (b.latestStart.Some? ==> b.current.value <= b.latestStart.value)
          && (terms.Some? ==> b.current.value <= terms.value.stopAt)
          && (b.current == b.latestStart || (terms.Some? && b.current.value == terms.value.stopAt)))
    && (b.current != b.latestStart ==> terms.Some? && b.planReason == Some(terms.value.reason))
  }

  /** Re-bounding takes the minimum, keeps the start's own, and takes the plan's reason only when the plan is lower. */
  lemma ReboundIsEarliest(b: StartBound, terms: Option<PlanTerms>)
    ensures var c := Rebound(b, terms);
            && Earliest(c, terms) && c.latestStart == b.latestStart
            && c.planReason == if Lowers(b.latestStart, terms) then Some(terms.value.reason) else b.planReason
  {
  }

  /** The door closes to a start exactly when an attempt dispatched like it would be due for the drain's notice. */
  lemma DoorClosesAtNotice(a: Agent, i: Intent, now: Timestamp)
    ensures DoorRefusal(a, i.abortGrace, i.cleanupMargin, now).Some? <==>
              a.draining || (NoticeAt(a.state.plan, i).Some? && NoticeAt(a.state.plan, i).value <= now)
    ensures DoorRefusal(a, i.abortGrace, i.cleanupMargin, now) == Some(Interruption) <==>
              a.state.plan.interruption.Some?
  {
  }

  /**
   * How an exit is told, outcome by outcome: limit kills are never attributed away, a clean natural exit
   * never rewritten, and only an unconfirmed kill or a non-zero natural exit takes a journaled attribution.
   */
  lemma ClassificationMeans(exit: ExitInfo, evidence: Attribution)
    requires evidence.kill.Some? ==> evidence.kill.value == Aborted || evidence.kill.value.Preempted?
    ensures var o := ClassifyExit(exit, evidence);
            && (o == MemoryLimitExceeded <==> exit.cause == OomKilled)
            && (o == DiskLimitExceeded <==> exit.cause == DiskKilled)
            && (o == Aborted <==> exit.cause == Killed && evidence.kill == Some(Aborted))
            && (forall r :: o == Preempted(r) <==>
                  || (exit.cause == Killed && evidence.kill == Some(Preempted(r)))
                  || (exit.cause == Killed && evidence.kill.None? && evidence.notice == Some(r))
                  || (exit.cause == Natural && exit.code != 0 && evidence.notice == Some(r)))
            && (forall code :: o == Exited(code) ==> code == exit.code)
            && (exit.cause == Natural && exit.code == 0 ==> o == Exited(0))
  {
  }
}
