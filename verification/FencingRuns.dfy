/** Fencing over whole runs: tokens, epochs and sequence numbers, across reconnects and crashes. */
module FencingRuns {
  import opened Types
  import opened JournalState
  import opened Framing
  import opened Executor
  import opened SessionSpec
  import opened Effects
  import opened SessionProofs
  import opened SessionFacts
  import opened System
  import opened SystemProofs
  import opened Runs

  predicate DeliversAt(r: Run, i: nat, cmd: Command) {
    i < |r.steps| && r.steps[i].Deliver? && r.steps[i].ev == CommandArrives(cmd)
  }

  predicate AcceptedAt(r: Run, i: nat, cmd: Command) {
    i < |r.worlds| && DeliversAt(r, i, cmd) && Accepts(r.worlds[i].agent, cmd)
  }

  function Token(cmd: Command): Watermark
    requires cmd.header.Some?
  {
    TokenOf(cmd.header.value)
  }

  // ---- one step ----

  lemma AcceptedStep(c: Codec, w: World, s: Step, w': World, cmd: Command)
    requires Lawful(c) && Inv(c, w) && Next(c, w, s, w') && s.Deliver? && s.ev == CommandArrives(cmd)
             && Accepts(w.agent, cmd)
    ensures w'.agent.state.watermark == Token(cmd) && w'.agent.epoch == Token(cmd).nodeEpoch && w'.agent.registered
    ensures w'.agent.lastSeq == Some(SeqAfter(w.agent, Token(cmd), cmd.header.value.commandSeq))
  {
    hide Inv, HandleCommand, DiskAfter, RuntimeAfter, WithSpecs, AgentOk;
    InvQueues(c, w);
    HandleCommandFacts(w.agent, w.rt, cmd, s.clock);
  }

  /** A handler that returns its memory unchanged and does nothing leaves the world as it was. */
  lemma NothingPerformed(c: Codec, w: World)
    requires Lawful(c) && QueuesEmpty(w.agent)
    ensures Performed(c, w, Unchanged(w.agent)) == w
  {
    assert Allocations([]) == [];
  }

  lemma RejectedStep(c: Codec, w: World, s: Step, w': World, cmd: Command)
    requires Lawful(c) && Inv(c, w) && Next(c, w, s, w') && s.Deliver? && s.ev == CommandArrives(cmd)
             && !Accepts(w.agent, cmd)
    ensures w' == w
  {
    hide Inv, Accepts, Performed, Admit, OnAdmitted;
    InvQueues(c, w);
    NothingPerformed(c, w);
  }

  /** Nothing but a command or a new session moves the watermark or the sequence number. */
  lemma OtherStepKeepsFence(c: Codec, w: World, s: Step, w': World)
    requires Lawful(c) && Inv(c, w) && Next(c, w, s, w') && !s.Crash?
    requires s.Deliver? ==> !s.ev.CommandArrives? && !s.ev.Reconnects?
    ensures w'.agent.lastSeq == w.agent.lastSeq
  {
    hide Inv, DiskAfter, RuntimeAfter, WithSpecs, OnMaxRuntime, OnTimers, OnInterruption, ResumeNotices, JanitorSweep,
         FinishStart, FinishStop, OnObservedExit, Honest, JustNotices;
    if s.Deliver? && !s.ev.DrainingSet? {
      OtherEventKeepsFence(w.agent, Taken(w, s.ev).rt, s.ev, s.clock);
    }
  }

  lemma OtherEventKeepsFence(a: Agent, rt: Runtime, ev: Event, clock: Clock)
    requires !ev.CommandArrives? && !ev.Reconnects? && !ev.DrainingSet?
    ensures KeepsFence(a, Handle(a, rt, ev, clock).agent)
    ensures Honest(Handle(a, rt, ev, clock).agent, Handle(a, rt, ev, clock).reports)
  {
    hide OnMaxRuntime, OnTimers, OnInterruption, ResumeNotices, FinishStart, FinishStop, OnObservedExit, TellsTruth;
    match ev
    case StartFinished(alloc, result) => FinishStartFacts(a, alloc, result, clock);
    case StopFinished(alloc, result) => FinishStopFacts(a, alloc, result, clock.wall);
    case ExitSeen(alloc, exit) => OnObservedExitFacts(a, alloc, exit);
    case WatchdogFires(alloc) => OnMaxRuntimeFacts(a, rt, alloc);
    case TimersDue =>
      OnTimersFacts(a, clock.wall);
      NoticesAreHonest(OnTimers(a, clock.wall).agent, OnTimers(a, clock.wall).reports);
    case Interrupted(deadline) =>
      OnInterruptionFacts(a, deadline, clock.wall);
      NoticesAreHonest(OnInterruption(a, deadline, clock.wall).agent, OnInterruption(a, deadline, clock.wall).reports);
    case Resumes =>
      ResumeNoticesFacts(a, clock.wall, 0);
      NoticesAreHonest(ResumeNotices(a, clock.wall).agent, ResumeNotices(a, clock.wall).reports);
    case JanitorTicks(_) =>
  }

  // ---- runs ----

  /** After acceptance the watermark is the command's token and the epoch is its node epoch. */
  lemma AcceptedTokenInForce(c: Codec, r: Run, i: nat, cmd: Command)
    requires Lawful(c) && IsRun(c, r) && AcceptedAt(r, i, cmd)
    ensures i + 1 < |r.worlds|
    ensures StateAt(r, i + 1).watermark == Token(cmd) && r.worlds[i + 1].agent.epoch == Token(cmd).nodeEpoch
    ensures r.worlds[i + 1].agent.lastSeq == Some(SeqAfter(r.worlds[i].agent, Token(cmd), cmd.header.value.commandSeq))
  {
    hide Inv, Next, Init;
    RunInv(c, r, i);
    RunStep(c, r, i);
    AcceptedStep(c, r.worlds[i], r.steps[i], r.worlds[i + 1], cmd);
  }

  /** The watermark never falls, and every report's epoch is read off it, whatever crashed in between. */
  lemma WatermarkRises(c: Codec, r: Run, i: nat, j: nat)
    requires Lawful(c) && IsRun(c, r) && i <= j < |r.worlds|
    ensures Dominates(StateAt(r, j).watermark, StateAt(r, i).watermark)
    ensures r.worlds[j].agent.epoch == StateAt(r, j).watermark.nodeEpoch
  {
    hide Inv, IsRun, Accounted;
    RunLater(c, r, i, j);
    RunInv(c, r, j);
    InvQueues(c, r.worlds[j]);
  }

  /** Every accepted token dominates every token accepted before it. */
  lemma AcceptedTokensRise(c: Codec, r: Run, i: nat, j: nat, earlier: Command, later: Command)
    requires Lawful(c) && IsRun(c, r) && i < j && AcceptedAt(r, i, earlier) && AcceptedAt(r, j, later)
    ensures Dominates(Token(later), Token(earlier))
  {
    hide IsRun;
    AcceptedTokenInForce(c, r, i, earlier);
    WatermarkRises(c, r, i + 1, j);
  }

  /** A deposed leader or superseded epoch is never obeyed again, even by a restarted agent. */
  lemma DeposedLeaderIgnored(c: Codec, r: Run, i: nat, j: nat, accepted: Command, stale: Command)
    requires Lawful(c) && IsRun(c, r) && i < j && AcceptedAt(r, i, accepted) && DeliversAt(r, j, stale)
    requires stale.header.Some? && Stale(Token(accepted), Token(stale))
    ensures r.worlds[j + 1] == r.worlds[j] && Sent(r.worlds[j], r.steps[j]) == []
  {
    hide Inv, Next, Init;
    AcceptedTokenInForce(c, r, i, accepted);
    WatermarkRises(c, r, i + 1, j);
    RejectedAt(c, r, j, stale);
  }

  lemma RejectedAt(c: Codec, r: Run, i: nat, cmd: Command)
    requires Lawful(c) && IsRun(c, r) && DeliversAt(r, i, cmd) && !Accepts(r.worlds[i].agent, cmd)
    ensures r.worlds[i + 1] == r.worlds[i]
    ensures Enabled(r.worlds[i], r.steps[i]) && Sent(r.worlds[i], r.steps[i]) == []
  {
    hide Inv, Moves, Init;
    RunInv(c, r, i);
    RunStep(c, r, i);
    RejectedStep(c, r.worlds[i], r.steps[i], r.worlds[i + 1], cmd);
  }

  /** Until RegisterAccepted is heard, no other command changes anything or draws an answer. */
  lemma UnregisteredIsDeaf(c: Codec, r: Run, i: nat, cmd: Command)
    requires Lawful(c) && IsRun(c, r) && DeliversAt(r, i, cmd)
    requires !r.worlds[i].agent.registered && (cmd.body.Some? ==> !cmd.body.value.RegisterAccepted?)
    ensures r.worlds[i + 1] == r.worlds[i] && Sent(r.worlds[i], r.steps[i]) == []
  {
    hide Inv, Next, Init;
    RejectedAt(c, r, i, cmd);
  }

  /** No reconnect or crash in `[i, j)`: one session, as its sequence numbers see it. */
  predicate SameSession(r: Run, i: nat, j: nat) {
    forall k :: i <= k < j && k < |r.steps| ==>
      !r.steps[k].Crash? && (r.steps[k].Deliver? ==> !r.steps[k].ev.Reconnects?)
  }

  lemma SeqStep(c: Codec, w: World, s: Step, w': World, token: Watermark, n: u64)
    requires Lawful(c) && Inv(c, w) && Next(c, w, s, w') && !s.Crash? && (s.Deliver? ==> !s.ev.Reconnects?)
    requires w.agent.state.watermark == token && w'.agent.state.watermark == token
    requires w.agent.lastSeq.Some? && w.agent.lastSeq.value >= n
    ensures w'.agent.lastSeq.Some? && w'.agent.lastSeq.value >= n
  {
    hide Inv, Next;
    if s.Deliver? && s.ev.CommandArrives? {
      if Accepts(w.agent, s.ev.cmd) {
        AcceptedStep(c, w, s, w', s.ev.cmd);
      } else {
        RejectedStep(c, w, s, w', s.ev.cmd);
      }
    } else {
      OtherStepKeepsFence(c, w, s, w');
    }
  }

  /** Within one session and token, the number once processed is remembered. */
  lemma {:induction false} SeqRemembered(c: Codec, r: Run, i: nat, j: nat, token: Watermark, n: u64)
    requires Lawful(c) && IsRun(c, r) && i <= j < |r.worlds| && SameSession(r, i, j)
    requires StateAt(r, i).watermark == token && StateAt(r, j).watermark == token
    requires r.worlds[i].agent.lastSeq.Some? && r.worlds[i].agent.lastSeq.value >= n
    ensures r.worlds[j].agent.lastSeq.Some? && r.worlds[j].agent.lastSeq.value >= n
    decreases j - i
  {
    hide Inv, Next, Init;
    if i < j {
      RunInv(c, r, i);
      RunStep(c, r, i);
      WatermarkRises(c, r, i, i + 1);
      WatermarkRises(c, r, i + 1, j);
      SeqStep(c, r.worlds[i], r.steps[i], r.worlds[i + 1], token, n);
      SeqRemembered(c, r, i + 1, j, token, n);
    }
  }

  /** Fresh sequence numbers strictly increase within one token and session: nothing is acted on twice. */
  lemma FreshSeqsRise(c: Codec, r: Run, i: nat, j: nat, earlier: Command, later: Command)
    requires Lawful(c) && IsRun(c, r) && i < j && AcceptedAt(r, i, earlier) && AcceptedAt(r, j, later)
    requires Token(earlier) == Token(later) && SameSession(r, i, j)
    ensures Admit(r.worlds[j].agent, later.header.value).admission.Fresh? <==>
              r.worlds[j].agent.lastSeq.Some? && later.header.value.commandSeq > r.worlds[j].agent.lastSeq.value
    ensures Admit(r.worlds[j].agent, later.header.value).admission.Fresh? ==>
              later.header.value.commandSeq > earlier.header.value.commandSeq
  {
    hide Inv, Next, Init, Admit;
    AcceptedTokenInForce(c, r, i, earlier);
    WatermarkRises(c, r, i + 1, j);
    RunInv(c, r, j);
    InvQueues(c, r.worlds[j]);
    SeqRemembered(c, r, i + 1, j, Token(earlier), earlier.header.value.commandSeq);
    AdmitFacts(r.worlds[j].agent, later.header.value);
  }

  // ---- durable before acting ----

  lemma {:induction false} PrefixLater(s: State, rt: Runtime, u: set<AllocationId>, fx: seq<Effect>, k: nat, m: nat)
    requires EffectsOk(s, rt, u, fx) && k <= m <= |fx| && Accounted(s) && RuntimeOk(rt) && EvidenceOk(rt)
    ensures Later(StateAfter(s, fx[..k]), StateAfter(s, fx[..m]))
    decreases k
  {
    hide Later, EffectOk, EvidenceOk, RuntimeOk, Accounted, WindsDown, StateAfterOne, RuntimeAfterOne;
    if k == 0 {
      assert fx[..k] == [];
      PrefixProgress(s, rt, u, fx, m);
    } else {
      assert fx[..k][0] == fx[0] && fx[..k][1..] == fx[1..][..k - 1];
      assert fx[..m][0] == fx[0] && fx[..m][1..] == fx[1..][..m - 1];
      EffectProgress(s, rt, u, fx[0]);
      PrefixLater(StateAfterOne(s, fx[0]), RuntimeAfterOne(rt, fx[0]), u, fx[1..], k - 1, m - 1);
    }
  }

  lemma FirstEffectRaises(a: Agent, rt: Runtime, cmd: Command, clock: Clock)
    requires AgentOk(a) && Accepts(a, cmd) && Token(cmd) != a.state.watermark
    ensures var fx := HandleCommand(a, rt, cmd, clock).fx; fx != [] && fx[0] == Append(Fencing(Token(cmd)))
  {
    hide Admit, OnAdmitted, Accounted;
    AdmitFacts(a, cmd.header.value);
  }

  /**
   * A raised watermark is durable before anything else the command does: a crash after any effect of an
   * accepted command recovers exactly its token as the watermark, so no restart obeys an older leader.
   */
  lemma RaisedBeforeActing(c: Codec, r: Run, i: nat, cmd: Command)
    requires Lawful(c) && IsRun(c, r) && i < |r.steps| && r.steps[i].Crash? && r.steps[i].ev == CommandArrives(cmd)
    requires Accepts(r.worlds[i].agent, cmd) && (r.steps[i].done > 0 || Token(cmd) == StateAt(r, i).watermark)
    ensures StateAt(r, i + 1).watermark == Token(cmd)
  {
    hide Inv, Init, Handle, Scan, Canonical, EncodeLog, CrashedDisk, Moves;
    RunInv(c, r, i);
    RunStep(c, r, i);
    CrashHereRecovers(c, r.worlds[i], r.steps[i]);
    InterruptedWatermark(c, r.worlds[i], cmd, r.steps[i].clock, r.steps[i].done);
  }

  lemma InterruptedWatermark(c: Codec, w: World, cmd: Command, clock: Clock, done: nat)
    requires Lawful(c) && Inv(c, w) && Accepts(w.agent, cmd) && (done > 0 || Token(cmd) == w.agent.state.watermark)
    requires done <= |Handle(w.agent, w.rt, CommandArrives(cmd), clock).fx|
    ensures StateAfter(w.agent.state, Handle(w.agent, w.rt, CommandArrives(cmd), clock).fx[..done]).watermark ==
              Token(cmd)
  {
    hide Inv, HandleCommand, EffectsOk, EvidenceOk, RuntimeOk, Accounted, WindsDown;
    var s, o := w.agent.state, HandleCommand(w.agent, w.rt, cmd, clock);
    InvQueues(c, w);
    HandledProgress(c, w, CommandArrives(cmd), clock, |o.fx|);
    HandleCommandFacts(w.agent, w.rt, cmd, clock);
    InvRuntime(c, w);
    PrefixLater(s, w.rt, Unstarted(w), o.fx, done, |o.fx|);
    if Token(cmd) == s.watermark {
      PrefixLater(s, w.rt, Unstarted(w), o.fx, 0, done);
      assert o.fx[..0] == [];
    } else {
      FirstEffectRaises(w.agent, w.rt, cmd, clock);
      PrefixLater(s, w.rt, Unstarted(w), o.fx, 1, done);
      assert o.fx[..1] == [Append(Fencing(Token(cmd)))];
      OneEffect(s, w.rt, {}, Append(Fencing(Token(cmd))));
    }
  }

  lemma InvRuntime(c: Codec, w: World)
    requires Lawful(c) && Inv(c, w)
    ensures RuntimeOk(w.rt) && EvidenceOk(w.rt) && Accounted(w.agent.state)
  {
  }
}
