/** The runs reasoned about are not empty: every enabled step happens, and a container does get started. */
module Witness {
  import opened Types
  import opened JournalState
  import opened Framing
  import opened Executor
  import opened SessionSpec
  import opened Effects
  import opened System
  import opened Runs

  /** In any reachable world every enabled step, a crash at any point included, has a world to lead to. */
  lemma EveryStepHappens(c: Codec, r: Run, i: nat, s: Step)
    requires Lawful(c) && IsRun(c, r) && i < |r.worlds| && Enabled(r.worlds[i], s)
    requires s.Crash? ==> s.done <= |Interrupts(r.worlds[i], s).fx|
    ensures exists w' :: Next(c, r.worlds[i], s, w')
  {
    hide IsRun, Inv, Crashes, Moves;
    RunInv(c, r, i);
    if s.Crash? {
      CrashHereRecovers(c, r.worlds[i], s);
      var w' :| Crashes(c, r.worlds[i], s, w');
      assert Next(c, r.worlds[i], s, w');
    } else {
      MoveHappens(c, r.worlds[i], s);
      var w' :| Moves(c, r.worlds[i], s, w');
      assert Next(c, r.worlds[i], s, w');
    }
  }

  lemma MoveHappens(c: Codec, w: World, s: Step)
    requires Lawful(c) && !s.Crash? && Enabled(w, s)
    ensures exists w' :: Moves(c, w, s, w')
  {
    hide Performed, Handle, StartRun, StopRun, Reap, Finish;
    match s
    case Deliver(ev, _) => assert Moves(c, w, s, Performed(c, Taken(w, ev), Interrupts(w, s)));
    case RunStart(alloc, gaveUp) =>
      var (rt', result) := StartRun(w, alloc, gaveUp);
      assert Moves(c, w, s,
                   w.(rt := rt', inflight := w.inflight - multiset{alloc},
                      startsDone := w.startsDone + {(alloc, result)}));
    case RunStop(alloc, fails) =>
      var (rt', result) := StopRun(w, alloc, fails);
      assert Moves(c, w, s, w.(rt := rt', stops := w.stops - {alloc}, stopsDone := w.stopsDone + {(alloc, result)}));
    case RunReap(alloc) => assert Moves(c, w, s, w.(rt := Reap(w.rt, alloc), reaps := w.reaps - {alloc}));
    case ContainerExits(alloc, exit) => assert Moves(c, w, s, w.(rt := Finish(w.rt, alloc, exit)));
    case RuntimeProgrammed(rt) => assert Moves(c, w, s, w.(rt := rt));
  }

  // ---- one start, from first boot ----

  const TOKEN := Watermark(1, 1)

  const REGISTER := Command(Some(Header(Some(TOKEN), 1)), Some(RegisterAccepted))

  const START := Command(Some(Header(Some(TOKEN), 2)),
                         Some(StartJobBody(StartJob(Some(StartIds(7, 8, 9)), true, true, None, None, Sigterm, 0, 0,
                                                    0))))

  const NOON := Clock(0, 0)

  lemma BootRegisters()
    ensures var o := HandleCommand(NewAgent(EMPTY), NO_CONTAINERS, REGISTER, NOON);
            && o.fx == [Append(Fencing(TOKEN)), Observe]
            && o.agent.pendingStarts == [] && o.agent.registered && !o.agent.draining
            && o.agent.state == EMPTY.(watermark := TOKEN) && o.agent.lastSeq == Some(1) && o.agent.starting == {}
            && o.agent.launchBounds == map[]
  {
    hide UnresolveAll, SpentIds, Rearmed, Seen;
  }

  /** A registered, undisturbed agent queues the start of a new allocation. */
  lemma StartQueues(a: Agent, rt: Runtime)
    requires a.registered && !a.draining && a.state == EMPTY.(watermark := TOKEN) && a.lastSeq == Some(1)
    requires a.pendingStarts == [] && a.starting == {} && a.launchBounds == map[]
    ensures var o := HandleCommand(a, rt, START, NOON);
            && o.agent.pendingStarts == [StartSpec(7, 8, 9, None)]
            && o.agent.launchBounds == map[7 := StartBound(None, None, None)]
            && |o.fx| == 1 && o.fx[0].Append?
  {
  }

  ghost function Delivered(c: Codec, w: World, cmd: Command): World
    requires Lawful(c)
  {
    Performed(c, w, Handle(w.agent, w.rt, CommandArrives(cmd), NOON))
  }

  /** There is a run, from first boot, in which a container is started. */
  lemma AContainerStarts(c: Codec, w0: World)
    requires Lawful(c) && Init(c, w0)
    ensures var w1 := Delivered(c, w0, REGISTER);
            var w2 := Delivered(c, w1, START);
            && Enabled(w2, RunStart(7, false))
            && var w3 := w2.(rt := StartRun(w2, 7, false).0, inflight := w2.inflight - multiset{7},
                             startsDone := w2.startsDone + {(7, StartRun(w2, 7, false).1)});
               && IsRun(c, Run([w0, w1, w2, w3],
                               [Deliver(CommandArrives(REGISTER), NOON), Deliver(CommandArrives(START), NOON),
                                RunStart(7, false)]))
               && StartCount(w3.rt, 7) == 1 && 7 in w3.rt.running
  {
    hide HandleCommand, EncodeLog, Canonical, DiskAfter;
    BootRegisters();
    var w1 := Delivered(c, w0, REGISTER);
    RegisteredWorld(c, w0, w1);
    StartQueues(w1.agent, w1.rt);
    var w2 := Delivered(c, w1, START);
    QueuedWorld(c, w1, w2);
  }

  lemma RegisteredWorld(c: Codec, w0: World, w1: World)
    requires Lawful(c) && Init(c, w0) && w1 == Delivered(c, w0, REGISTER)
    ensures w1.rt == NO_CONTAINERS && w1.inflight == multiset{} && w1.specs == map[] && w1.startsDone == {}
    ensures w1.agent == Drained(HandleCommand(NewAgent(EMPTY), NO_CONTAINERS, REGISTER, NOON).agent)
  {
    hide HandleCommand, EncodeLog, Canonical, DiskAfter;
    BootRegisters();
    var fx := [Append(Fencing(TOKEN)), Observe];
    assert fx[1..] == [Observe] && [Observe][1..] == [];
    assert RuntimeAfter(NO_CONTAINERS, fx) == NO_CONTAINERS;
    assert Allocations([]) == [];
  }

  lemma QueuedWorld(c: Codec, w1: World, w2: World)
    requires Lawful(c) && w1.rt == NO_CONTAINERS && w1.inflight == multiset{} && w1.specs == map[]
    requires w2 == Delivered(c, w1, START)
    requires var o := HandleCommand(w1.agent, w1.rt, START, NOON);
             && o.agent.pendingStarts == [StartSpec(7, 8, 9, None)] && |o.fx| == 1 && o.fx[0].Append?
             && o.agent.launchBounds == map[7 := StartBound(None, None, None)]
    ensures w2.rt == NO_CONTAINERS && w2.inflight == multiset{7} && 7 in w2.specs
    ensures w2.agent.launchBounds == map[7 := StartBound(None, None, None)]
  {
    hide HandleCommand, DiskAfter;
    var spec := StartSpec(7, 8, 9, None);
    assert Allocations([spec]) == [7];
    assert [spec][1..] == [];
    assert WithSpecs(map[], [spec]) == map[7 := spec];
    var fx := HandleCommand(w1.agent, w1.rt, START, NOON).fx;
    assert fx == [fx[0]];
    OneEffect(EMPTY, w1.rt, {}, fx[0]);
  }
}
