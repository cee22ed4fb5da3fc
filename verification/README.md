# The node agent's crash-recoverable core

A model of the part of Coppice that has to survive anything: the agent on a node, which takes fenced
commands from a coordinator, journals every decision before acting on it, runs containers on a runtime
that outlives it, and after a crash at any byte must neither forget, repeat nor misreport work.

The model is a product system. `System.World` holds the journal's bytes, the agent's memory, the
container runtime and the starts, stops and reaps in flight. `System.Next` is everything that can happen
to it: any event handled by the session, any task or container finishing, the runtime's clock moving, and a crash
inside any handler, after any of its effects and with the record being written cut at any byte. Runs are
arbitrary sequences of such steps, so duplicate and stale commands, reconnects, restarts and every race
between them are included. The theorems about runs are in `Runs`, `FencingRuns`, `Accountability`,
`Registration`, `Outcomes`, `Retelling`, `StopRuns`, `PlanRuns`, `LaunchRefusals`, `NoticeRuns`,
`NoticeReporting` and `Watchdogs`.

How it is put together:

- `JournalState`, `Wire`, `Framing`, `Journal`: the records and their fold, the wire form, length and
  checksum framing over concrete bytes, and the file. The payload codec and the checksum are parameters:
  a lawful codec decodes what it encodes and keeps payloads under 2^32 bytes.
- `Executor`, `FakeRuntime`: exit classification and the in-process runtime, as functions and as the
  object with shared containers and a private exit queue.
- `SessionSpec`: every handler of the session and its notice mechanism as a function from memory to
  memory, effects in order, and reports. `AgentSession` is the session as it is written, a class whose
  handlers update fields, append to the file and call the executor; each is proved to have exactly the
  memory, bytes, runtime and reports its function says. `AgentLoop` closes the gap to the runs: one turn
  of the loop on that object is one step of the system, and a restart over what a crash left is another.
- `SessionProofs`, `SessionFacts`, `Bystanders`, `Effects`, `System`, `SystemProofs`: the discipline every
  handler keeps, effect by effect, and the invariant every step keeps.
- `DrainPlans`, `LastWrite`: what the plan's arithmetic and the journal's fold mean, said without their
  case analysis.
- `Witness`, `CodecExists`: runs and lawful codecs exist, so the theorems about all of them say something.
  `Counterexamples`: a run from first boot for each difference below that a reader might doubt.
- `LaunchWait`: the launch-bound wait as interleaved micro-steps.
- `Pressure`, `Selector`, `Jwks`: percentage arithmetic, the filter compiler, the signing-key cache.

Where the code and its own words differ, the code is modelled and the difference is a lemma:

- The timer handler gives notices before stops so that no attempt gets both in one pass (runner.rs:679-685);
  that holds exactly while the stop is still ahead (`NoticeRuns.NotifiedNowStoppedNowIff`, and the run
  `Counterexamples.StoppedInTheSameBreath`).
- A status of Running is not always backed by an intent: a StartJob dropped as malformed is called
  Running when re-delivered (`Accountability.UnbackedRunningIff`, `Counterexamples.DroppedStartRuns`).
- The outcome of an exit is meant not to depend on where a crash fell. Resuming notices at the restart can
  rewrite it, exactly when `Retelling.CrashPointDoesNotMatter` says, and so can any later attribution,
  exactly when `Retelling.CutExitRetoldIff` says (`Counterexamples.ResumingRewritesAnExit`).
- A max-runtime kill whose record a crash cut is never recovered as one: it is told as the exit the kill
  left, which is what would have been journaled exactly for a memory or disk kill
  (`Retelling.CutKillRetoldIff`, `Counterexamples.KillIsToldAsAnExit`).
- A container still starting at its stop must not start (notice.rs:175-178), yet one can be created past the
  drain's stop while an interruption is also in force, exactly when `PlanRuns.CreatedPastItsStopIff` says
  (`Counterexamples.CreatedPastTheDrain`): the bound is recomputed only when a plan is set.
- A racing refusal is to be classified by the bound that passed (notice.rs:65-69); another plan set before the
  answer is handled overwrites the reason, exactly when `LaunchRefusals.RefusedLaunchIsTold` says
  (`Counterexamples.RefusalBlamedOnAnother`).
- A start in flight is said to have no watchdog yet (session.rs:915-919), but a registration may have armed one.
  Fired then, it is swallowed, and the start that comes back is granted the whole bound again; the budget is
  held exactly when `Watchdogs.BudgetHeldIff` says (`Counterexamples.BudgetIsGrantedAgain`).
- A stop's live and recovered classifications differ for a natural exit, except when the notice names the
  tombstone's own reason (`Outcomes.StopAgreesWithRecoveryIff`, and over runs
  `Retelling.SwallowedStopRetoldIff`).
- The first retry delay of the key cache is not capped (`Jwks.BackoffIsCappedDoublingIff`).
- A negative exit runtime would make the journal unreadable (`Framing.ExitReopensIffRuntimeNonNegative`);
  no reachable state holds one (`SystemProofs.NextInv`).

An I/O error from an append is treated as a crash at that append; the live loop instead logs it and goes
on, and what that can lose is stated apart (`Framing.AppendsBehindATornFrame`). Clock readings are
parameters of the handlers. Identifiers are 128-bit, counters and codes have the width they have in the
code, and timestamps saturate as they do there.

## Model

| member | source | states |
|---|---|---|
| Runs.CrashAnywhereRecovers | crates/coppice-agent/src/journal.rs:374-406 | A crash inside any handler of any run, at any effect and with the record being written cut at any byte, recovers without error, and to exactly the memory before the handler plus the records already whole; after the last effect, to the memory the handler would have returned |
| Runs.MemoryIsReplay | crates/coppice-agent/src/journal.rs:594-619 | Between handlers of any run, scanning the bytes on disk gives exactly the state in memory |
| Runs.RunLater | crates/coppice-agent/src/journal.rs:192-299 | Over any stretch of any run, crashes included: the watermark never falls, intents, exits and notice intents are permanent and unchanged, refusals stay refusals, marks never move later |
| Runs.StartsAtMostOnce | crates/coppice-agent/src/session.rs:590-753 | Over every run each allocation is queued at most once, its container created at most once, and a queued one has its intent on disk |
| Runs.QueuedBehindIntent | crates/coppice-agent/src/session.rs:668-752 | A start is queued only for an allocation with no earlier intent or tombstone, no drain and no interruption in force, and its intent is then recoverable from disk |
| Runs.CreatedWithinBound | crates/coppice-agent/src/executor.rs:743-783 | A container appears only when a queued start runs, with its intent journaled, its exit not, and the launch bound then in force not passed |
| Runs.StepCounts | crates/coppice-agent/src/executor.rs:500-503 | No step but a running start changes any start count, restarts included |
| SystemProofs.NextInv | crates/coppice-agent/src/session/runner.rs:664-703 | Every step of loop, tasks, runtime and crash keeps the system invariant (journal equals memory, one start per allocation, evidence kept, endings final) and moves the journal along its order |
| SystemProofs.HandleSound | crates/coppice-agent/src/session.rs:384-419 | Every handled event appends only records the journal's discipline allows, journals an exit only for an allocation with nothing running or left to start, signals only behind a notice intent, removes only journaled exits, and leaves memory equal to the replay of what it appended |
| SystemProofs.CrashRecovers | crates/coppice-agent/src/journal.rs:594-619 | For any handler's effects, any cut: the scan of the bytes left is exactly the state of the records already whole |
| Witness.EveryStepHappens | crates/coppice-agent/src/session/runner.rs:664-703 | In any reachable world every enabled step, a crash at any point included, leads to a world: no theorem about runs holds for want of runs |
| Witness.AContainerStarts | crates/coppice-agent/src/session.rs:590-753 | From first boot there is a run that registers, admits a StartJob and has its container created exactly once |
| AgentLoop.Turn | crates/coppice-agent/src/session/runner.rs:797-945 | One turn of the loop on the session object is exactly one step of the system: from an object showing a world it shows the next one, hands over exactly what that world gains in flight, and sends exactly what the step sends |
| AgentLoop.Dispatch | crates/coppice-agent/src/session/runner.rs:664-703 | Every event reaches the handler that does to memory, disk and runtime what the system's handler function says |
| AgentLoop.Restart | crates/coppice-agent/src/journal.rs:374-397 | After a crash inside any handler, cut anywhere, reopening the journal over the bytes left succeeds, and a new session over it and a fresh executor handle shows exactly the world that crash leads to |
| CodecExists.LawfulCodecExists | crates/coppice-agent/src/journal.rs:574-582 | For any checksum there is a payload codec that decodes all it encodes within the length a frame's header can say |
| FencingRuns.AcceptedTokenInForce | crates/coppice-agent/src/session.rs:345-378 | After an accepted command the watermark is its token, the epoch its node epoch, and the remembered sequence number the larger within a token |
| FencingRuns.AcceptedTokensRise | crates/coppice-agent/src/session.rs:345-378 | In any run every accepted token dominates every token accepted before it, across reconnects and crashes |
| FencingRuns.WatermarkRises | crates/coppice-agent/src/session.rs:345-368 | The watermark is componentwise non-decreasing over any run, and the session epoch is always its node epoch |
| FencingRuns.DeposedLeaderIgnored | crates/coppice-agent/src/session.rs:348-358 | Once a token was accepted, a command stale against it changes nothing and draws no answer at any later point of the run |
| FencingRuns.FreshSeqsRise | crates/coppice-agent/src/session.rs:371-377 | Within one token and session, a command is acted on as fresh only with a sequence number above every earlier accepted one |
| FencingRuns.UnregisteredIsDeaf | crates/coppice-agent/src/session.rs:397-412 | Before RegisterAccepted no other command changes the world or is answered |
| FencingRuns.RaisedBeforeActing | crates/coppice-agent/src/session.rs:359-370 | A crash after any effect of an accepted command recovers exactly its token as the watermark |
| FencingRuns.RejectedAt | crates/coppice-agent/src/session.rs:388-395 | A command that is not accepted leaves the whole world as it was and sends nothing |
| Accountability.NoLostEvidence | crates/coppice-agent/src/session.rs:461-471 | In every reachable state what ever started is running, still visible as exited, or has a journaled exit; what is visible carries its intent's labels; nothing journaled as ended runs or can still start |
| Accountability.RegistrationsTellEvidence | crates/coppice-agent/src/session.rs:423-505 | Every accepted registration of a run whose observation succeeds sends one set, one entry per intent in strict id order, each telling exactly the evidence; AgentError exactly for what never started, is not journaled as ended and is not in flight |
| Registration.RegistrationTellsEvidence | crates/coppice-agent/src/observed.rs:61-143 | The same for one registration in any state satisfying the invariant: running iff the runtime runs it, a journaled exit told as journaled, other exits as classified, in-flight ones without outcome |
| Registration.BlindRegistrationDoubts | crates/coppice-agent/src/session.rs:431-441 | When the observation fails the set is the journal's alone, and every unjournaled allocation not in flight is doubted, started or not |
| Registration.HeartbeatClaimsLiveWork | crates/coppice-agent/src/session.rs:1069-1091 | With a successful observation the heartbeat claims exactly the outstanding allocations that have started |
| Accountability.HeartbeatsClaimLiveWork | crates/coppice-agent/src/session.rs:1069-1091 | The same at every point of every run |
| Accountability.ExitIsWrittenOnce | crates/coppice-agent/src/session.rs:1150-1168 | Once journaled, an exit is the same in every later state of the run and its container never runs again |
| Accountability.EveryLaterStatusIsTheExit | crates/coppice-agent/src/session.rs:1113-1139 | Every status sent after an exit is journaled is Terminal with exactly that outcome, runtime and ids, under the epoch then in force |
| Accountability.EventIsHonest | crates/coppice-agent/src/session.rs:1206-1247 | Whatever event is handled, no status contradicts a journaled exit and every report carries the current epoch |
| Accountability.ClosedDoorQueuesNothing | crates/coppice-agent/src/session.rs:573-588 | While the agent drains or an interruption is journaled no start is queued |
| Accountability.RefusedNeverStarts | crates/coppice-agent/src/session.rs:675-697 | An allocation refused before it had an intent is never queued, never started and never visible again, and its tombstone stays or becomes an abort |
| Accountability.RefusedAlwaysAnswers | crates/coppice-agent/src/session.rs:601-623 | Every StartJob accepted later for it, fresh or duplicate and across restarts, is answered with exactly one Terminal status of that tombstone, runtime 0 |
| Accountability.LiveWorkIsConserved | crates/coppice-agent/src/session.rs:1386-1393 | Exits are always of intents, and each step changes the outstanding set by exactly the intents added minus the exits recorded |
| Accountability.RunningIsBacked | crates/coppice-agent/src/session.rs:510-529 | Every Running status has a durable intent and no journaled exit behind it, unless it answers a duplicate StartJob |
| Accountability.UnbackedRunningIff | crates/coppice-agent/src/session.rs:1113-1139 | A command calls an allocation without an intent Running if and only if it is a duplicate StartJob for it and no tombstone refuses it |
| Accountability.DroppedStartIsCalledRunning | crates/coppice-agent/src/session.rs:634-666 | The exception happens: a StartJob dropped as malformed is reported Running when re-delivered |
| Outcomes.EvidenceUnaltered | crates/coppice-agent/src/executor.rs:785-813 | Over any run the runtime's evidence of an exit stays exactly as it was until that exit is journaled |
| Outcomes.HandledLive | crates/coppice-agent/src/session.rs:935-973 | An exit the watcher saw, with no stop in flight, is journaled and reported as its evidence classifies under the journal's attribution |
| Outcomes.StopAgreesWithRecoveryIff | crates/coppice-agent/src/session.rs:1434-1458 | A tombstoned stop classified live and by recovery agree if and only if it had already exited, its cause is not natural, or its notice names the tombstone's own preemption and the code is non-zero |
| Retelling.CrashPointDoesNotMatter | crates/coppice-agent/src/session/runner.rs:155-166 | On the agent's own schedule, a crash anywhere in the handling of an exit, notices resumed at the restart, then registration: runtime and labels are always those of the uninterrupted handling, and the outcome is if and only if the record was whole or no first notice fell due by the restart for a non-zero natural exit or an unclaimed kill |
| Retelling.CutExitRetoldIff | crates/coppice-agent/src/observed.rs:79-143 | The same at any later registration of any run, whatever happened in between: the live outcome is retold if and only if the record was whole or the journal did not reattribute the exit before the moment that decides it |
| Retelling.RetoldFromEvidence | crates/coppice-agent/src/observed.rs:121-143 | An exit left as evidence is told by any later registration with its own runtime and its own classification, under the attribution of the step that journals it or of the registration itself |
| Retelling.StepTells | crates/coppice-agent/src/session.rs:935-973 | Every step of a run, crashes included, leaves such an exit the same evidence or journals it classified under the attribution then in force |
| Retelling.RetoldOutcomeMeans | crates/coppice-agent/src/executor.rs:348-372 | Told so, an exit is a memory or disk kill exactly when its evidence is, an abort exactly of a kill under an abort tombstone, a preemption exactly where the deciding tombstone or notice names that reason, and otherwise the job's own code |
| Retelling.VerdictMovesIff | crates/coppice-agent/src/executor.rs:348-372 | An exit is classified alike at two points of a run if and only if no kill was reclaimed and no failure first noticed between them |
| Retelling.CutKillRetoldIff | crates/coppice-agent/src/session.rs:871-899 | A max-runtime kill cut between its stop and its record leaves the journal unchanged, and every later registration tells the kill's exit as its evidence classifies; that is the outcome the uninterrupted handling journals if and only if the evidence is a memory or disk kill |
| Retelling.WatchdogAgreesWithRecoveryIff | crates/coppice-agent/src/session.rs:880-899 | What a max-runtime stop found is classified live and by recovery alike if and only if the container had already exited or a memory or disk kill is in evidence |
| Retelling.SwallowedStopRetoldIff | crates/coppice-agent/src/session/notice.rs:805-838 | A stop whose answer a crash swallowed is told at any later registration from the exit it left, and as the answer would have been if and only if it had already exited and was not reattributed, a limit kill is in evidence, or the deciding attribution names the stop's own reason |
| Counterexamples.ResumingRewritesAnExit | crates/coppice-agent/src/session/notice.rs:680-697 | There is a run from first boot in which a container exits with code 1, the agent crashes before journaling it, and the restart notifies and registers it as preempted by the drain |
| Counterexamples.KillIsToldAsAnExit | crates/coppice-agent/src/session.rs:880-899 | There is a run from first boot in which a container killed at its runtime bound is registered as having exited with code 137 |
| Counterexamples.StoppedInTheSameBreath | crates/coppice-agent/src/session/runner.rs:679-685 | There is a run from first boot in which one pass of the timers both gives an attempt its first notice and queues its stop |
| Counterexamples.DroppedStartRuns | crates/coppice-agent/src/session.rs:634-666 | There is a run from first boot in which a malformed StartJob delivered twice journals and starts nothing and is answered Running |
| Counterexamples.CreatedPastTheDrain | crates/coppice-agent/src/session/notice.rs:175-194 | There is a run from first boot in which an interruption hands a start in flight a later bound and its container is created 1000 past its stop under the plan |
| Counterexamples.RefusalBlamedOnAnother | crates/coppice-agent/src/session/notice.rs:65-69 | There is a run from first boot in which a launch refused at the drain's stop is journaled as an interruption's preemption |
| Counterexamples.BudgetIsGrantedAgain | crates/coppice-agent/src/session.rs:915-919 | There is a run from first boot in which a watchdog due at 1000 is swallowed and the container, still running, is granted until 2500 |
| NoticeRuns.SignalledOnlyBehindIntent | crates/coppice-agent/src/session/notice.rs:507-519 | At every point of every run, crashes included, each signal ever delivered went to an allocation whose notice intent is journaled |
| NoticeRuns.StopIsNeverPostponed | crates/coppice-agent/src/session/notice.rs:475-504 | A notice is given once under one reason, and a marked stop only ever moves earlier, its notice time fixed |
| NoticeRuns.NotifiedNowStoppedNowIff | crates/coppice-agent/src/session/runner.rs:679-685 | At any pass of the timers in any run, an attempt given its first notice is tombstoned and its stop queued by that same pass if and only if its stop under the plan is already due |
| NoticeRuns.StopsAreTombstoned | crates/coppice-agent/src/session/notice.rs:752-786 | In every reachable world a stop in flight, backing off or abandoned has its tombstone in the journal |
| SessionFacts.NotifyAllFacts | crates/coppice-agent/src/session/notice.rs:418-503 | A pass over live allocations gives a first notice to exactly those listed and due, each under the plan's reason, and changes nothing durable but notices and marks |
| SessionFacts.ResumeNoticesFacts | crates/coppice-agent/src/session/notice.rs:680-713 | Resuming notifies exactly the outstanding allocations the recovered plan makes due and leaves exits, tombstones and fencing alone |
| SessionFacts.AdmitFacts | crates/coppice-agent/src/session.rs:345-378 | An unstale header leaves exactly its token as watermark and epoch, is a duplicate exactly when its number was processed under the same token, and journals the token exactly when it raised it |
| SessionFacts.HandleCommandFacts | crates/coppice-agent/src/session.rs:384-419 | A command not accepted changes nothing; an accepted one leaves exactly its token in force, and all its reports are honest |
| SessionFacts.OnDuplicateFacts | crates/coppice-agent/src/session.rs:510-529 | A duplicate changes nothing, and says Running exactly for an allocation neither starting, ended nor tombstoned |
| StopRuns.NeverTwoStops | crates/coppice-agent/src/session.rs:135-139 | In any run, when a stop is queued no earlier stop of that allocation is still unrun or unanswered, and no handler queues two |
| StopRuns.SeenExitIsNeverDropped | crates/coppice-agent/src/session.rs:951-957 | Once the watcher's exit of a journaled intent was handled, it is journaled or held for the stop in flight at every later point until a crash |
| StopRuns.FinishStopJournalsHeld | crates/coppice-agent/src/session/notice.rs:818-835 | Whatever a stop comes back with, failure included, the exit held for it is journaled then |
| StopRuns.HandleStops | crates/coppice-agent/src/session/notice.rs:779-786 | Every event but a stop's own result keeps stops in flight, queues only allocations in no flight, and keeps starts and stops apart |
| StopRuns.BeginStopsQueues | crates/coppice-agent/src/session/notice.rs:752-777 | Beginning the due stops queues each of them exactly once, in order |
| PlanRuns.CreatedPastItsStopIff | crates/coppice-agent/src/session/notice.rs:145-194 | Whenever a container is created in a run, its stop under the plan then in force is still ahead, and so is that of every plan component already due, if and only if it is not a drain's stop that passed while an interruption is also in force: a start is re-bounded only when a plan is set |
| PlanRuns.AdmittedBeforeNotice | crates/coppice-agent/src/session.rs:573-588 | In any run a start is admitted only while its own plan's notice time is still ahead |
| PlanRuns.RunBounds | crates/coppice-agent/src/session/notice.rs:155-217 | At every point of every run the bound of a start in flight is the earlier of its own latest start and its stop under the plan in force, as that stop was when the plan was last set or the start opened; neither has changed since |
| PlanRuns.WithPlanBounds | crates/coppice-agent/src/session/notice.rs:145-150 | Whatever plan is put in force, every start in flight is held to the earlier of its own bound and its stop under that plan at that moment, and keeps its own |
| PlanRuns.HandlerLeavesBound | crates/coppice-agent/src/session/notice.rs:178-194 | No handled event moves the launch bound of a known allocation except by setting another plan, and none begins a stop without its tombstone |
| DrainPlans.TermsMeanComponents | crates/coppice-agent/src/session/notice.rs:241-270 | Terms exist exactly with a component; notice at the earliest component's notice time; the stop that of the earliest component already due, or of the only one; the reason the interruption's while there is one |
| DrainPlans.StopTimeIsExact | crates/coppice-agent/src/session/notice.rs:898-902 | An attempt's stop is the deadline less its margin and grace, floored at the earliest instant |
| DrainPlans.ShortfallIsWhatIsMissing | crates/coppice-agent/src/session/notice.rs:891-894 | The shortfall is exactly what the window from notice to stop lacks of the notice promised |
| DrainPlans.ReboundIsEarliest | crates/coppice-agent/src/session/notice.rs:195-217 | A re-bounded start takes the minimum of its own bound and the plan's stop, keeps its own, and takes the plan's reason exactly when the plan is lower |
| DrainPlans.OnTimeMeansStopAhead | crates/coppice-agent/src/session/notice.rs:241-270 | The stop a plan gives at an instant is still ahead exactly when no component already due has its stop behind it |
| LaunchRefusals.RefusedLaunchIsTold | crates/coppice-agent/src/session.rs:797-824 | Over any run, a start refused at its launch bound is, when its answer is handled, journaled and reported Revoked if and only if the bound that passed is its own latest start, and otherwise tombstoned before the preemption is journaled; the reason is that of the last plan to lower its bound by then, so the refusing plan's if and only if the last plan to lower it since has no other |
| LaunchRefusals.RefusalIsAwaited | crates/coppice-agent/src/session.rs:762-775 | Until it is handed over or the agent crashes, the answer of a refused launch waits, its start is still awaited and its exit unjournaled, and it can be handed over |
| LaunchRefusals.RunAwaits | crates/coppice-agent/src/session.rs:762-780 | In every reachable world each start result on its way is its start's only one and is awaited, and a failed one has no container and no journaled exit |
| LaunchRefusals.OwnBoundIsTheCommands | crates/coppice-agent/src/session/notice.rs:155-176 | A start's own latest start is, until its start comes back, the one its StartJob named, through every plan set or changed meanwhile |
| LaunchRefusals.BoundIsCarried | crates/coppice-agent/src/session/notice.rs:59-70 | While a start is in flight its own latest start never changes, and the reason held against it is that of the last plan that lowered its bound |
| DrainPlans.DoorClosesAtNotice | crates/coppice-agent/src/session.rs:573-588 | The door refuses exactly while draining or once an attempt dispatched alike would be due for notice, and as an interruption exactly under one |
| DrainPlans.ClassificationMeans | crates/coppice-agent/src/executor.rs:348-372 | Limit kills are never attributed away, a clean exit never rewritten, and only an unconfirmed kill or a non-zero natural exit takes a journaled attribution |
| NoticeReporting.EveryNoticeTellsItsMark | crates/coppice-agent/src/session/notice.rs:567-600 | Every notice sent in any run is exactly the mark then journaled for its allocation: ids, reason, time remaining and shortfall |
| NoticeReporting.NotifyAllTells | crates/coppice-agent/src/session/notice.rs:418-431 | Every notice a pass reports still tells its mark when the pass is over |
| NoticeReporting.WindowAndShortfallMakeUpTheNotice | crates/coppice-agent/src/session/notice.rs:891-894 | At every point of every run a marked attempt's window and its shortfall make up the notice promised, exactly so when there is a shortfall |
| LastWrite.LastWriteWins | crates/coppice-agent/src/journal.rs:192-299 | After replay an allocation's row in each table is exactly the last record written about it |
| LastWrite.UnwrittenIsKept | crates/coppice-agent/src/journal.rs:192-299 | An allocation nothing was written about keeps its row, or its absence |
| LastWrite.LastPlanWins | crates/coppice-agent/src/journal.rs:192-299 | The plan after replay is the last one journaled |
| LastWrite.WatermarkIsMaximum | crates/coppice-agent/src/journal.rs:192-203 | The watermark after replay is the componentwise maximum ever journaled, in whatever order |
| SessionProofs.OnStartJobSound | crates/coppice-agent/src/session.rs:590-753 | A StartJob journals at most one new intent before queueing at most one start, refuses with a tombstone, or answers, and keeps the journal's discipline |
| SessionProofs.FinishStartSound | crates/coppice-agent/src/session.rs:762-823 | A finished start only journals a failure for an allocation with no container, tombstoning a plan's refusal first |
| SessionProofs.FinishStopSound | crates/coppice-agent/src/session/notice.rs:797-855 | A finished stop journals at most the first exit of a journaled intent, from its own answer or the exit held for it |
| SessionProofs.OnObservedExitSound | crates/coppice-agent/src/session.rs:935-973 | A watcher's exit is held for a stop in flight or journaled once, never as AgentError |
| SessionProofs.OnMaxRuntimeSound | crates/coppice-agent/src/session.rs:906-931 | The watchdog's stop happens before its record, and the record only if the stop found a container |
| SessionProofs.NotifyUnderPlanSound | crates/coppice-agent/src/session/notice.rs:435-505 | Notice intent, then signal, then mark, in that order of effects, and a mark is only replaced by an earlier one |
| SessionProofs.JanitorSweepSound | crates/coppice-agent/src/session.rs:980-1001 | The sweep removes only containers whose exit is journaled |
| JournalState.CanonicalReplays | crates/coppice-agent/src/journal.rs:304-333 | Replaying the canonical records of any well-formed state from empty gives back exactly that state |
| JournalState.ReplayWellFormed | crates/coppice-agent/src/journal.rs:192-299 | Replaying any records the wire can carry yields a well-formed state |
| JournalState.AllowedIsLater | crates/coppice-agent/src/journal.rs:192-299 | A record the session may append moves the state along the journal's order |
| Wire.WireRoundTrip | crates/coppice-agent/src/journal.rs:473-570 | A record survives its encoding if and only if every span it carries is non-negative; a negative exit runtime decodes as corrupt, other negative spans as zero |
| Wire.DecodedIsRepresentable | crates/coppice-agent/src/journal.rs:192-299 | Whatever decodes at all carries only non-negative spans |
| Framing.TornTailExact | crates/coppice-agent/src/journal.rs:594-619 | For every record list, extra record and cut strictly inside its frame, the scan yields exactly the state of the complete records; uncut, of all of them |
| Framing.GarbageTailIsDropped | crates/coppice-agent/src/journal.rs:594-619 | Any tail that is not an intact frame is dropped without affecting what precedes it |
| Framing.AppendsBehindATornFrame | crates/coppice-agent/src/journal.rs:402-406 | A session that goes on after an append failed part-way loses, at the next open, every record it appends behind the torn frame, unless the failed append left no byte or the checksum of the mixed bytes happens to match |
| Framing.RecoveryIsIdempotent | crates/coppice-agent/src/journal.rs:374-397 | Whatever bytes recovery accepts, recovering the compacted journal gives the same state again |
| Framing.CompactionCommutesWithAppends | crates/coppice-agent/src/journal.rs:374-397 | Compacting and then appending any records recovers the same as appending without compacting |
| Framing.CompactedIsClean | crates/coppice-agent/src/journal.rs:304-333 | The compacted bytes of any well-formed state scan back to exactly it |
| Framing.ExitReopensIffRuntimeNonNegative | crates/coppice-agent/src/journal.rs:560-570 | A journal with an exit appended reopens if and only if the exit's runtime is not negative, and then with exactly that exit added |
| Framing.ScanWellFormed | crates/coppice-agent/src/journal.rs:594-619 | Scanning any bytes over a well-formed state yields a well-formed state or refuses |
| Journal.ScanFrames | crates/coppice-agent/src/journal.rs:594-619 | The offset loop computes the scan of the whole file, for any bytes at all |
| Journal.EncodeFrame | crates/coppice-agent/src/journal.rs:574-582 | A frame is the 32-bit little-endian length, the checksum and the payload |
| Journal.EncodeRecords | crates/coppice-agent/src/journal.rs:584-590 | The buffer loop computes the concatenated frames |
| Journal.CanonicalRecords | crates/coppice-agent/src/journal.rs:304-333 | The pushes compute the canonical list: watermark, then each table in key order, the plan only if there is one, exits last |
| Journal.File.Append | crates/coppice-agent/src/journal.rs:402-406 | Appending extends the bytes by exactly the record's frame |
| Journal.OpenLocked | crates/coppice-agent/src/journal.rs:374-397 | Opening scans what is there, refuses a corrupt journal, and otherwise hands back a file holding exactly the canonical records of the recovered state, which replay to it |
| Observed.BuildObservedSet | crates/coppice-agent/src/observed.rs:61-117 | The index-and-walk computes the set that obeys the declarative rule |
| Observed.ObservedSetReconciles | crates/coppice-agent/src/observed.rs:61-143 | The set has exactly one entry per allocation in runtime, exits or intents, in strict id order, each truthful: running iff the last runtime entry runs, else journal exit, else classification, else AgentError |
| Observed.ReconciliationIsUnique | crates/coppice-agent/src/observed.rs:30-60 | The rule determines the set: two sets that obey it are equal |
| Observed.IndexByAllocation | crates/coppice-agent/src/observed.rs:65-69 | Indexing the runtime keeps, for every id, the last entry listed |
| Executor.ObservedMembers | crates/coppice-agent/src/executor.rs:849-877 | An observation lists exactly the runtime's containers, running ones with their age |
| FakeRuntime.FakeExecutor.Start | crates/coppice-agent/src/executor.rs:743-783 | Start consumes a programmed failure, else refuses past the bound as it stands, else counts and creates the container, and nothing else changes |
| FakeRuntime.FakeExecutor.Stop | crates/coppice-agent/src/executor.rs:785-813 | Stop answers an exit already there, else kills the running container with the programmed cause and code 137, else knows nothing |
| FakeRuntime.FakeExecutor.Signal | crates/coppice-agent/src/executor.rs:815-847 | A signal reaches only a running container, is recorded, and ends it exactly if it traps that signal |
| FakeRuntime.FakeExecutor.Finish | crates/coppice-agent/src/executor.rs:628-639 | A natural exit moves the container to the exited set and queues one event, or does nothing |
| FakeRuntime.FakeExecutor.Observe | crates/coppice-agent/src/executor.rs:849-877 | One programmed failure, or every container in id order, running ones aged by the clock |
| FakeRuntime.FakeExecutor.Reap | crates/coppice-agent/src/executor.rs:879-883 | Reaping forgets the exited container and is idempotent |
| FakeRuntime.FakeExecutor.Fork | crates/coppice-agent/src/executor.rs:610-615 | A restarted agent's handle shares the containers and starts with an empty exit queue of its own |
| FakeRuntime.FakeExecutor.NextExit | crates/coppice-agent/src/executor.rs:885-901 | Exits are taken in the order they were queued |
| AgentSession.Session.constructor | crates/coppice-agent/src/session.rs:154-192 | A session over a recovered journal starts in its watermark's epoch, unregistered, with nothing in flight |
| AgentSession.Session.HandleCommand | crates/coppice-agent/src/session.rs:384-419 | Memory, bytes, runtime and reports after a command are exactly the specified ones |
| AgentSession.Session.Admit | crates/coppice-agent/src/session.rs:345-378 | The fencing check journals a raised watermark before taking it, exactly as specified |
| AgentSession.Session.OnRegisterAccepted | crates/coppice-agent/src/session.rs:423-505 | Registration observes once, reports the set, queues spent evidence and re-arms watchdogs as specified |
| AgentSession.Session.LeaveInFlightOpen | crates/coppice-agent/src/session.rs:448-454 | The loop clears the outcome of exactly the in-flight, non-running, unjournaled entries |
| AgentSession.Session.HandleDuplicate | crates/coppice-agent/src/session.rs:510-529 | A duplicate is answered as specified and changes nothing |
| AgentSession.Session.HandleFresh | crates/coppice-agent/src/session.rs:531-560 | A fresh command is dispatched to its handler as specified |
| AgentSession.Session.RefusedAtDoor | crates/coppice-agent/src/session.rs:573-588 | The door refuses for an interruption, the agent's own drain, or an operator deadline whose notice time has come, in that order |
| AgentSession.Session.StartJob | crates/coppice-agent/src/session.rs:590-753 | Tombstone, then intent, then parsing, then the door, then launch, exactly as specified |
| AgentSession.Session.LaunchStart | crates/coppice-agent/src/session.rs:706-752 | The intent is written before the start is queued or refused at its own passed bound |
| AgentSession.Session.FinishStart | crates/coppice-agent/src/session.rs:762-823 | A finished start is reported, stopped, notified or failed as specified |
| AgentSession.Session.FailStart | crates/coppice-agent/src/session.rs:796-821 | A plan's refusal is tombstoned before the exit is recorded |
| AgentSession.Session.ReportStarted | crates/coppice-agent/src/session.rs:779-795 | A started attempt is armed and reported before its stop or notice |
| AgentSession.Session.StopJob | crates/coppice-agent/src/session.rs:827-865 | The abort tombstone is written first; then the known end is reported or the stop queued once |
| AgentSession.Session.TriggerMaxRuntime | crates/coppice-agent/src/session.rs:906-931 | The watchdog stops in place, and records only what the stop found |
| AgentSession.Session.HandleObservedExit | crates/coppice-agent/src/session.rs:935-973 | A watcher's exit is held, ignored or recorded as specified |
| AgentSession.Session.RecordExit | crates/coppice-agent/src/session.rs:1150-1168 | The exit is on disk before it is in memory |
| AgentSession.Session.JanitorSweep | crates/coppice-agent/src/session.rs:980-1001 | The loop removes exactly the exited, journaled, old enough containers, in observation order |
| AgentSession.Session.HeartbeatReport | crates/coppice-agent/src/session.rs:1069-1109 | The heartbeat's set is the accountability filter of one observation |
| AgentSession.Session.ReportCurrentStatus | crates/coppice-agent/src/session.rs:1113-1139 | Exit first, then tombstone, then Running |
| AgentSession.Session.OutstandingLiveWork | crates/coppice-agent/src/session.rs:1386-1393 | The filter lists exactly the intents without an exit, in id order |
| AgentSession.Session.ResetSession | crates/coppice-agent/src/session.rs:295-303 | Registration and sequence number are cleared; epoch and journal persist |
| AgentSession.Session.SetDraining | crates/coppice-agent/src/session.rs:274-279 | Only the announcement changes |
| AgentSession.Session.TakeQueued | crates/coppice-agent/src/session.rs:317-339 | Everything queued is handed over once and the queues are empty |
| AgentSession.Session.SetPlan | crates/coppice-agent/src/session/notice.rs:145-150 | The plan is on disk before it is in force, and every start in flight is re-bounded |
| AgentSession.Session.RefreshLaunchBounds | crates/coppice-agent/src/session/notice.rs:182-217 | Each start in flight gets the earlier of its own bound and its stop under the plan, remembering the plan's reason |
| AgentSession.Session.OnDrain | crates/coppice-agent/src/session/notice.rs:299-341 | The operator's deadline or its withdrawal, a held one changing nothing |
| AgentSession.Session.OnInterruption | crates/coppice-agent/src/session/notice.rs:352-391 | A later or stale deadline is ignored; otherwise journaled, then every live attempt is brought under it |
| AgentSession.Session.NoticesDue | crates/coppice-agent/src/session/notice.rs:397-423 | Exactly the started, unended, unstopped, unnotified allocations whose notice time has come, in id order |
| AgentSession.Session.NotifyUnderPlan | crates/coppice-agent/src/session/notice.rs:435-505 | Notify if due, finish an interrupted notice, or let an interruption shorten it, as specified |
| AgentSession.Session.Notify | crates/coppice-agent/src/session/notice.rs:507-519 | The notice intent is on disk before the signal |
| AgentSession.Session.SignalAndMark | crates/coppice-agent/src/session/notice.rs:521-564 | Signal, then mark on disk, then report |
| AgentSession.Session.PreemptJob | crates/coppice-agent/src/session/notice.rs:610-664 | One stop time per attempt, never later than the plan's |
| AgentSession.Session.ResumeNotices | crates/coppice-agent/src/session/notice.rs:680-713 | Every recovered notice is re-established and a past interruption retired |
| AgentSession.Session.StopsDue | crates/coppice-agent/src/session/notice.rs:726-757 | Exactly the tombstoned or marked allocations with nothing in flight whose stop is due, after any backoff |
| AgentSession.Session.BeginDueStops | crates/coppice-agent/src/session/notice.rs:752-777 | Each due stop is tombstoned unless it already is, then queued |
| AgentSession.Session.QueueStop | crates/coppice-agent/src/session/notice.rs:779-786 | A queued stop is marked in flight and its backoff cleared |
| AgentSession.Session.FinishStop | crates/coppice-agent/src/session/notice.rs:797-855 | The stop's answer, else the held exit, else retry or abandonment, as specified |
| AgentSession.Session.RunTimers | crates/coppice-agent/src/session/runner.rs:679-685 | Notices first, then stops, as specified |
| AgentSession.SpentContainers | crates/coppice-agent/src/session.rs:465-471 | The loop collects exactly the exited containers whose exit is journaled |
| AgentSession.WatchdogsFor | crates/coppice-agent/src/session.rs:480-500 | The loop arms exactly the running containers under a bounded intent with no journaled exit, each with what it has left |
| AgentSession.ClaimedContainers | crates/coppice-agent/src/session.rs:1075-1085 | The loop keeps exactly the running containers and the unjournaled exits of journaled intents |
| LaunchWait.GivesUpOnlyWhenReached | crates/coppice-agent/src/executor.rs:112-149 | In every interleaving the wait gives up only at an instant when that very bound is in force and reached |
| LaunchWait.FinishedStepIsHandedBack | crates/coppice-agent/src/executor.rs:128-133 | A step finished by the time a turn polls is handed back within three of the wait's own steps, and the wait is never stuck before, however the bound moves |
| LaunchWait.EndsOnceReached | crates/coppice-agent/src/executor.rs:120-148 | Once a bound that stops changing is reached the wait is never stuck and ends within eight steps of its own |
| LaunchWait.SetChangesIffDifferent | crates/coppice-agent/src/executor.rs:154-162 | Setting wakes a wait exactly when the bound differs |
| Watchdogs.RegistrationRearms | crates/coppice-agent/src/session.rs:473-500 | Every successful registration re-arms exactly the containers running under a bounded intent, with the budget left by the runtime's reading, anchored before it |
| Watchdogs.RegistrationArmsWithinBudget | crates/coppice-agent/src/session.rs:428-500 | At every registration of a run whose observation succeeds exactly the live bounded containers are armed, each no later than its start plus its bound or at once if that is past, and exactly then when the two clocks agree; the one assumption is that the anchor, read first, is not ahead of the runtime's reading |
| Watchdogs.BudgetHeldIff | crates/coppice-agent/src/session.rs:48-70 | For a container live under a bound at a registration and still running later, through any number of reconnects, the loop holds throughout a deadline no later than start plus bound, or than that registration if already overrun, if and only if the agent did not crash and no watchdog of the container was swallowed |
| Watchdogs.HandedOverWatchdogEndsIff | crates/coppice-agent/src/session.rs:906-933 | Over any run, a watchdog handed over for a container the runtime holds ends its attempt if and only if neither its start nor a stop is in flight; swallowed, its deadline is gone |
| Watchdogs.StartTimeIsFixed | crates/coppice-agent/src/executor.rs:765-783 | Over any run, crashes included, the start time of a started container never changes |
| Watchdogs.DeadlineIsKept | crates/coppice-agent/src/session/runner.rs:815-832 | A deadline once held stays held and is never postponed until its exit, its firing or a crash |
| Watchdogs.DeadlineWasArmed | crates/coppice-agent/src/session/runner.rs:825-831 | A deadline held is one some handler armed since the last crash: nothing else sets or tightens it |
| Watchdogs.FoldKeepsEarliest | crates/coppice-agent/src/session/runner.rs:815-831 | Folding keeps exactly the earliest deadline ever offered for an allocation |
| Watchdogs.FoldWatchdogs | crates/coppice-agent/src/session/runner.rs:825-832 | The loop computes the fold and drops what has ended |
| Pressure.BytesOverIsExact | crates/coppice-agent/src/pressure.rs:135-146 | For valid thresholds the target is non-zero exactly at High or above, freeing it gives Ok, one byte fewer does not, and it never exceeds the space used |
| Pressure.ClassifyIsExact | crates/coppice-agent/src/pressure.rs:59-75 | The level is at least High, and Critical, exactly at or above each mark, with no rounding |
| Pressure.ScaledFits | crates/coppice-agent/src/pressure.rs:64-70 | No product of a 64-bit size and a percentage leaves 128 bits |
| Selector.CompileNamesFirstForbidden | crates/coppice-api/src/events.rs:96-124 | A filter compiles exactly when no forbidden leaf occurs anywhere, and otherwise the first in reading order is named |
| Selector.CompiledMeansFilter | crates/coppice-api/src/events.rs:126-156 | The compiled selector matches a job exactly when the filter itself holds of its scope keys |
| Jwks.RateLimitHolds | crates/coppice-authn/src/jwks.rs:241-259 | However many requests arrive, N on-demand fetches inside a window of length L satisfy (N - 1) * minimum interval <= L |
| Jwks.JwksCache.RefreshForUnknownKid | crates/coppice-authn/src/jwks.rs:241-259 | A fetch runs exactly when the interval has elapsed, its stamp is the second clock reading, and a suppressed or failed one changes neither keys nor fetch time |
| Jwks.JwksCache.Fetch | crates/coppice-authn/src/jwks.rs:270-331 | A usable reply replaces the cache by the last usable entry per kid; any other reply changes nothing; every cached algorithm is asymmetric |
| Jwks.CollectKeys | crates/coppice-authn/src/jwks.rs:288-317 | The loop keeps, per kid, the last entry that has a supported asymmetric algorithm and decodes |
| Jwks.ServeAll | crates/coppice-authn/src/jwks.rs:241-259 | A run of requests fetches exactly at the permitted ones |
| Jwks.BackoffIsCappedDoublingIff | crates/coppice-authn/src/jwks.rs:165-187 | The delay after the (n + 1)-th failure in a row is min(base * 2^n, max) if and only if n > 0 or base <= max |
| Jwks.FirstDelayMayExceedCap | crates/coppice-authn/src/jwks.rs:165-187 | A base above the cap is slept once uncapped |
| Jwks.JwksCache.NextDelay | crates/coppice-authn/src/jwks.rs:167-187 | A success resets the backoff; a failure sleeps the current one and doubles it up to the cap |
| Jwks.DelaysOf | crates/coppice-authn/src/jwks.rs:161-200 | Over any sequence of results each failure's delay is the backoff of the failures right before it |

## Left out

- LaunchWait.GivesUpOnlyWhenReached: the wall clock and the timer advance together; a wall-clock step during a wait is not modelled.
- Watchdogs.BudgetHeldIff: the offset between the wall clock and the monotonic one is fixed; a backward wall-clock step between start and registration is outside its clock assumption.
- Watchdogs.DeadlineIsKept: the deadlines are a history of the run, folded with the event that armed them; a fold put off while no session is connected is not a separate step, and the system lets a watchdog fire at any time, due or not.
- LaunchRefusals.RefusedLaunchIsTold: a start failure programmed into the in-process runtime may name any bound; only refusals by the bound in force are claimed to be the plan's.
- AgentSession.Session.HeartbeatReport: capacity, usage and image-cache fields are not part of the modelled report.
- Accountability.RunningIsBacked: says nothing of whether the container still runs; a Running status of a journaled start is the agent's belief.
- FakeRuntime.FakeExecutor.Start: the pull gate is not part of this method; giving up at the bound while pulling is a step of the system and `LaunchWait`.
- AgentSession.Session.TriggerMaxRuntime: an executor error from the watchdog's stop is not modelled; the in-process runtime never returns one.
- AgentSession.Session.OnRegisterAccepted: the notice payload an ObservedSet entry repeats is not modelled.
- Handlers are atomic against runtime tasks: no start, stop or container exit happens between two effects of one handler, only between handlers.
- A crash inside the compaction of `open_locked` is not a step of its own: the rewrite leaves the old file or the new one, and `Framing.RecoveryIsIdempotent` recovers the same state from both.
- A session that goes on after a failed append: the live loop logs the error and keeps the session (runner.rs:286, 485, 513), where the model crashes. What is lost then is `Framing.AppendsBehindATornFrame`; no run theorem covers such a session.
- Parsing of ids, environment and resumption identity of a StartJob: the parse results are inputs.
- Image, command, limits and environment of a start: they affect no decision modelled here.
- A container created by a start whose agent crashed meanwhile: a crash ends starts in flight, as it does in process.
- A start or stop whose spawned work panics, and the joining of such work at shutdown.
- The Docker executor, telemetry stores, image cache and disk enforcer: a different runtime behind the same interface.
- gRPC, TLS, HTTP listeners, the reconnect backoff, certificate renewal and the interruption poller: transport around the modelled handlers.
- Health snapshot, usage sampling, metrics and log lines: written by the handlers and read by none.
- Overflow of the 32-bit start counter and of standard-library durations in the key cache's backoff.
- The key cache's jitter, HTTP statuses and discovery document: a fetch is its reply.
- Protobuf layout and the CRC polynomial: parameters of the framing.
- The coordinator, its replicated state and scheduler.
