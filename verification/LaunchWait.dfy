/**
 * Waiting out a launch bound: the wait's own micro-steps, interleaved in every way with the clock, a
 * setter that moves the bound earlier, later or away, the setter's drop, and the awaited step's completion.
 */
module LaunchWait {
  import opened Types

  /** Where the wait stands inside one turn of its loop; `Parked` is suspended until woken. */
  datatype Pc = ReadBound | PollStep | PollExpiry | Recheck | PollChanged | Parked | HandedBack | GaveUp(at: Timestamp)

  datatype Wait = Wait(
    /** The shared cell: the bound, how often it has changed, and whether its setter is alive. */
    cell: Option<Timestamp>, version: nat, setterAlive: bool,
    /** Two clocks with a fixed offset: wall time for the bound, monotonic time for the sleep. */
    wall: int, mono: int,
    stepDone: bool,
    /** The wait's locals: the bound this turn waits on, the version it has seen, its armed timer. */
    pc: Pc, bound: Option<Timestamp>, seen: nat, settable: bool, timer: Option<int>)

  datatype Move = Own | Tick(d: nat) | Set(at: Option<Timestamp>) | DropSetter | FinishStep

  /** The time left to a launch bound, none if it is not ahead. */
  function WaitBudget(at: Timestamp, now: int): nat { if at > now then at - now else 0 }

  predicate Ended(w: Wait) { w.pc.HandedBack? || w.pc.GaveUp? }

  predicate Expired(w: Wait) { w.timer.Some? && w.mono >= w.timer.value }

  /** What wakes a suspended wait: the step, the timer, a change, or the setter's drop. */
  predicate Woken(w: Wait) {
    w.stepDone || Expired(w) || (w.settable && (w.version != w.seen || !w.setterAlive))
  }

  predicate CanMove(w: Wait) { !Ended(w) && (w.pc.Parked? ==> Woken(w)) }

  function OwnStep(w: Wait): Wait
    requires CanMove(w)
  {
    match w.pc
    case ReadBound => w.(bound := w.cell, seen := w.version, timer := None, pc := PollStep)
    case PollStep => w.(pc := if w.stepDone then HandedBack else PollExpiry)
    case PollExpiry =>
      var armed := if w.timer.None? && w.bound.Some?
                   then w.(timer := Some(w.mono + WaitBudget(w.bound.value, w.wall))) else w;
      armed.(pc := if Expired(armed) then Recheck else PollChanged)
    case Recheck => w.(pc := if w.bound.Some? && w.cell == w.bound then GaveUp(w.bound.value) else ReadBound)
    case PollChanged =>
      if !w.settable then w.(pc := Parked)
      else if w.version != w.seen then w.(seen := w.version, pc := ReadBound)
      else if !w.setterAlive then w.(settable := false, pc := ReadBound)
      else w.(pc := Parked)
    case Parked => w.(pc := PollStep)
  }

  predicate Next(w: Wait, m: Move, w': Wait) {
    match m
    case Own => CanMove(w) && w' == OwnStep(w)
    case Tick(d) => w' == w.(wall := w.wall + d, mono := w.mono + d)
    case Set(at) => w.setterAlive && w' == if w.cell == at then w else w.(cell := at, version := w.version + 1)
    case DropSetter => w' == w.(setterAlive := false)
    case FinishStep => w' == w.(stepDone := true)
  }

  predicate Init(w: Wait) { w.pc.ReadBound? && w.settable && w.timer.None? }

  predicate IsRun(ws: seq<Wait>, ms: seq<Move>) {
    && |ws| == |ms| + 1 && Init(ws[0])
    && forall i :: 0 <= i < |ms| ==> Next(ws[i], ms[i], ws[i + 1])
  }

  /** The armed timer stands for its bound: never before it, and due once the bound is reached. */
  predicate TimerTells(w: Wait) {
    w.timer.Some? ==>
      && w.bound.Some?
      && w.bound.value <= w.timer.value + (w.wall - w.mono)
      && w.timer.value + (w.wall - w.mono) <= Max(w.bound.value, w.wall)
  }

  predicate WaitInv(w: Wait) {
    && TimerTells(w)
    && (!w.pc.ReadBound? && w.seen == w.version ==> w.bound == w.cell)
    && (!w.pc.ReadBound? ==> w.seen <= w.version)
    && (!w.settable ==> !w.setterAlive && (w.pc.ReadBound? || w.seen == w.version))
    && (w.pc.Recheck? ==> Expired(w))
    && ((w.pc.PollChanged? || w.pc.Parked?) && w.bound.Some? ==> w.timer.Some?)
  }

  lemma OwnStepKeepsInv(w: Wait)
    requires WaitInv(w) && CanMove(w)
    ensures WaitInv(OwnStep(w))
  {
  }

  lemma NextKeepsInv(w: Wait, m: Move, w': Wait)
    requires WaitInv(w) && Next(w, m, w')
    ensures WaitInv(w')
  {
    hide OwnStep;
    if m.Own? { OwnStepKeepsInv(w); }
  }

  lemma {:induction false} RunInv(ws: seq<Wait>, ms: seq<Move>, i: nat)
    requires IsRun(ws, ms) && i < |ws|
    ensures WaitInv(ws[i])
  {
    if i > 0 {
      RunInv(ws, ms, i - 1);
      NextKeepsInv(ws[i - 1], ms[i - 1], ws[i]);
    }
  }

  // ---- safety ----

  /** The wait gives up only at an instant when that very bound is in force and has been reached. */
  lemma GivesUpOnlyWhenReached(ws: seq<Wait>, ms: seq<Move>, i: nat)
    requires IsRun(ws, ms) && i < |ms| && !ws[i].pc.GaveUp? && ws[i + 1].pc.GaveUp?
    ensures ws[i].cell == Some(ws[i + 1].pc.at) && ws[i].wall >= ws[i + 1].pc.at
    ensures ws[i + 1].cell == ws[i].cell
  {
    RunInv(ws, ms, i);
    assert Next(ws[i], ms[i], ws[i + 1]);
  }

  function OwnSteps(ms: seq<Move>): nat {
    if ms == [] then 0 else (if ms[0].Own? then 1 else 0) + OwnSteps(ms[1..])
  }

  lemma {:induction false} EndedStays(ws: seq<Wait>, ms: seq<Move>, i: nat, j: nat)
    requires IsRun(ws, ms) && i <= j < |ws| && Ended(ws[i])
    ensures ws[j].pc == ws[i].pc && (ws[i].stepDone ==> ws[j].stepDone)
    decreases j - i
  {
    if i < j {
      assert Next(ws[i], ms[i], ws[i + 1]);
      EndedStays(ws, ms, i + 1, j);
    }
  }

  /** Points of the loop from which the awaited step is polled before the bound is. */
  predicate BeforeStep(w: Wait) { w.pc.ReadBound? || w.pc.PollStep? || w.pc.PollChanged? || w.pc.Parked? }

  /** How many of its own steps the wait takes from there to hand a finished step back. */
  function StepsToHandBack(w: Wait): nat {
    match w.pc
    case HandedBack => 0
    case PollStep => 1
    case ReadBound => 2
    case Parked => 2
    case _ => 3
  }

  lemma StepsTowardsHandBack(w: Wait, m: Move, w': Wait)
    requires Next(w, m, w') && w.stepDone && BeforeStep(w)
    ensures w'.stepDone && (BeforeStep(w') || w'.pc.HandedBack?)
    ensures StepsToHandBack(w') + (if m.Own? then 1 else 0) <= StepsToHandBack(w)
    ensures CanMove(w)
  {
  }

  /**
   * A step finished by the time a turn polls is handed back within three of the wait's own steps, and the wait
   * is never stuck before that, however the bound moves from then on.
   */
  lemma {:induction false} FinishedStepIsHandedBack(ws: seq<Wait>, ms: seq<Move>, i: nat, j: nat)
    requires IsRun(ws, ms) && i <= j < |ws| && ws[i].stepDone && BeforeStep(ws[i])
    ensures ws[j].stepDone && (BeforeStep(ws[j]) || ws[j].pc.HandedBack?)
    ensures !ws[j].pc.HandedBack? ==>
              CanMove(ws[j]) && StepsToHandBack(ws[j]) + OwnSteps(ms[i..j]) <= StepsToHandBack(ws[i])
    ensures OwnSteps(ms[i..j]) >= 3 ==> ws[j].pc.HandedBack?
    decreases j - i
  {
    if i < j {
      assert Next(ws[i], ms[i], ws[i + 1]);
      StepsTowardsHandBack(ws[i], ms[i], ws[i + 1]);
      assert ms[i..j][0] == ms[i] && ms[i..j][1..] == ms[i + 1..j];
      if ws[i + 1].pc.HandedBack? {
        EndedStays(ws, ms, i + 1, j);
      } else {
        FinishedStepIsHandedBack(ws, ms, i + 1, j);
      }
    } else {
      assert ms[i..j] == [];
      StepsTowardsHandBack(ws[i], Tick(0), ws[i]);
    }
  }

  // ---- it ends ----

  predicate Fresh(w: Wait) { w.bound == w.cell }

  /** How many of its own steps the wait still has, once its bound is reached and no longer changes. */
  function Rank(w: Wait): nat {
    match w.pc
    case HandedBack => 0
    case GaveUp(_) => 0
    case Recheck => if Fresh(w) then 1 else 5
    case PollExpiry => if Fresh(w) then 2 else 6
    case PollStep => if Fresh(w) then 3 else 7
    case ReadBound => 4
    case PollChanged => 5
    case Parked => if Fresh(w) then 4 else 8
  }

  predicate Reached(w: Wait) { w.cell.Some? && w.wall >= w.cell.value }

  /** With the bound in force reached, the wait is never stuck and its every step brings the end closer. */
  lemma StepsTowardsTheEnd(w: Wait, m: Move, w': Wait)
    requires WaitInv(w) && Next(w, m, w') && Reached(w) && !m.Set?
    ensures Reached(w')
    ensures !Ended(w) ==> CanMove(w)
    ensures Rank(w') <= Rank(w) && (m.Own? ==> Rank(w') < Rank(w))
  {
  }

  /** Once a bound that stops changing is reached, the wait ends within eight steps of its own. */
  lemma {:induction false} EndsOnceReached(ws: seq<Wait>, ms: seq<Move>, i: nat, j: nat)
    requires IsRun(ws, ms) && i <= j < |ws| && Reached(ws[i])
    requires forall k :: i <= k < j ==> !ms[k].Set?
    ensures Reached(ws[j]) && Rank(ws[j]) + OwnSteps(ms[i..j]) <= Rank(ws[i]) <= 8
    ensures OwnSteps(ms[i..j]) >= 8 ==> Ended(ws[j])
    ensures !Ended(ws[j]) ==> CanMove(ws[j])
    decreases j - i
  {
    RunInv(ws, ms, i);
    if i < j {
      assert Next(ws[i], ms[i], ws[i + 1]);
      StepsTowardsTheEnd(ws[i], ms[i], ws[i + 1]);
      EndsOnceReached(ws, ms, i + 1, j);
      assert ms[i..j][0] == ms[i] && ms[i..j][1..] == ms[i + 1..j];
    } else {
      assert ms[i..j] == [];
      StepsTowardsTheEnd(ws[i], Tick(0), ws[i]);
    }
  }

  // ---- the setter ----

  /** Setting the bound it already has wakes nobody; any other value is seen as a change. */
  lemma SetChangesIffDifferent(w: Wait, at: Option<Timestamp>, w': Wait)
    requires Next(w, Set(at), w')
    ensures w'.cell == at && (w'.version != w.version <==> w.cell != at)
    ensures w.settable && w.seen == w.version && w.cell != at ==> Woken(w')
  {
  }
}
