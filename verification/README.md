# Cleanbot: models and proofs

A Dafny 4.11 model of the parts of the cleaning robot where a mistake would be expensive, with proofs of what they
promise. `dafny verify dfyconfig.toml` checks everything.

**Maintenance mode** (`PublisherEpoch`, `MaintenanceGate`, `ReadyProvenance`, `MaintenanceStore`, `MaintenanceRuntime`,
`RuntimeProvenance`, `CommandArbiter`, `ArbiterRuns`, `MaintenanceCoordinator`, `MaintenanceProtocol`,
`ProtocolProgress`). A durable generation counter, a fail-closed runtime, an evidence gate and an arbiter that forces
the brake, each as the class its source is, proved against a step function; then joined by a network that may lose,
duplicate, delay and reorder every message, with a manager that may die at any moment. The main result is that
"ready" for a generation means the vehicle is held, and stays held until that generation's release is durable.

**The update transaction** (`UpdateWorld`, `Updater`, `UpdateRecovery`, `UpdateWitnesses`). Apply, rollback and recovery
as imperative code over a world whose every effect may fail; a trace of effects and states is kept as a ghost, so that
"the process dies between any two effects" is a statement about every prefix of it.

**Serial and correction streams** (`WriteQueue`, `SerialWriter`, `LowerMachineNode`, `Deframing`, `StatusFrames`,
`CrcRegisters`, `Crc24q`, `Rtcm3`, `Ntrip`, `CorrectionPath`). A priority queue with coalescing and eviction under an
asynchronous writer, with conservation of batches and callbacks; streaming deframers as refinements of one parse of
the whole stream; CRC-24Q as a linear register; the path from an NTRIP response to checked RTCM frames.

**Planning, tracking and missions** (`CleaningModel`, `ChainSolver`, `RegionRecognizer`, `TaskPlan`, `Coverage`,
`PlannedLanes`, `Tracking`, `RtkKalmanFilter`, `MissionStateMachine`, `MissionCheckpoint`, `MissionMoments`,
`MissionWorker`). The grammar of recorded point sequences, the connector-chain solver, plan assembly, lane spacing, the
position filter, and mission progress through checkpoints and crashes.

## Form

An object whose methods update its fields is a class with those fields; `View()` gives its value and every method's
contract ties the new value to a function of the old one. Results about runs are lemmas about those functions; the table
below lists the results, not the methods whose contract is that they compute their function. The
updater and the mission worker are imperative throughout: their results are the contracts of the methods themselves,
with ghost fields for the trace of effects, for what of it failed and what it achieved, and for the segments really
completed with the moments each of them stands on.

Clocks, disk outcomes, incoming messages, operator decisions and service answers are parameters or inputs and may take
any value. Doubles are exact reals. Distances are any metric; polygon validity, crossing points, sweep angles and the
projection between coordinates and metres are parameters.

## What the code does not promise

Some expected properties are false of the code. The model keeps the code as it is, shows an input and gives the exact
condition.

- *Reserved source name.* The arbiter accepts upstream commands whose source is the gate's own name and relays them.
  The runtime takes such a command for the gate's brake, so "ready" can be shown while the arbiter holds nothing
  (`ReservedNameDefeatsTheGate`). An output bears that name exactly as `ReservedSourceExactly` says; the end-to-end
  results assume that no upstream command uses it (`NameKept`).
- *Re-fed samples.* A hardware sample cached before a maintenance request can become its first zero frame when it is
  fed again after the acknowledgement (`SampleFromBeforeTheRequestCounts`).
- *Idle before initialization.* One idle report at any time before `initialize` makes the restore fail and latches a fault
  (`RestoreSucceedsExactlyWhen`).
- *FAILED is not always true.* After an apply or a rollback the FAILED record names a release the link does not point
  at exactly when the link was moved once and either maintenance is still held, because it could not be moved back, or
  its directory sync failed and the move was taken for a failure (`ApplyStaged`, `RollBack`); then the vehicle may run
  the new release, given back, while the record names the old one. A settled recovery names the wrong release exactly in
  the second case (`RecoverInterrupted`). `UpdateWitnesses` gives such traces.
- *A rollback recovers two ways.* A rollback that dies while ROLLING_BACK is recovered forwards, from HEALTH_CHECK on
  backwards (`RollbackDiesRecoverably`).
- *Narrow write queues.* With a capacity of two a brake can be rejected (`NarrowQueueRejectsBrake`); three suffice.
- *Groups joined by name.* A model with several groups can be planned when the area one group ends with and the area
  the next begins with bear the same name (`SharedNameJoinsGroups`); exactly then (`GroupsAdjoinExactlyWhen`).
- *Loops.* Completed segments are counted across passes but checked against one, so a cleaning mission with several
  passes stops with a failed save at the first segment of its second pass
  (`ProgressIsRejectedExactlyAfterOnePass`). And a runtime that is found shutting down right after a pass was recorded
  reports the mission complete although passes are left (`Execute`, `PassesCanBeLeft`).

## Model

| member | source | states |
|---|---|---|
| `MaintenanceProtocol.ReadyHoldsTheVehicle` | src/cleanbot_control/src/command_arbiter_core.cpp:230-277 | over every run, with maintenance messages lost, duplicated, delayed and reordered and the manager restarted at any moment: once "ready" was shown for g, the arbiter core holds g and every output at every time is the zero-speed brake with request id g, then and until the release of g is durable |
| `MaintenanceProtocol.ReleasedForGood` | src/cleanbot_mission/src/maintenance_store.cpp:1367-1404 | once the release of g is durable, it stays so in every later state of the run and "ready" is never shown for g again: no generation is active twice |
| `MaintenanceProtocol.RunKeepsInv` | src/cleanbot_mission/src/maintenance_runtime.cpp:73-252 | every state of every run keeps the cross-component invariant: published states never claim more than the durable record granted, the arbiter has acted under every generation its gate commands name, and the runtime keeps its own invariant |
| `MaintenanceProtocol.StepKeepsInv` | src/cleanbot_control/src/command_arbiter_node.cpp:132-186 | each single step of manager, network or arbiter keeps that invariant and only advances the durable record |
| `MaintenanceProtocol.RunIsForward` | src/cleanbot_mission/src/maintenance_store.cpp:1305-1404 | along every run the durable record, the configuration and the arbiter's generation only move forward |
| `MaintenanceProtocol.ReachedMeansHeld` | src/cleanbot_control/src/command_arbiter_core.cpp:205-217 | an arbiter that ever reached generation g forces the brake of g at every time, for as long as g is the unreleased durable generation |
| `MaintenanceProtocol.GateNameMeansHeld` | src/cleanbot_control/src/command_arbiter_core.cpp:353-362 | an output under the gate's reserved source name is the gate's own brake of the generation the coordinator holds |
| `MaintenanceProtocol.ManagerCallKeepsInv` | src/cleanbot_mission/src/maintenance_runtime.cpp:73-361 | any runtime call, with any outcome of the disk, keeps the invariant |
| `MaintenanceProtocol.DeliverKeepsInv` | src/cleanbot_control/src/command_arbiter_node.cpp:132-161 | delivering any state message ever published, at any later time and any number of times, keeps the invariant |
| `MaintenanceProtocol.NodeInputKeepsInv` | src/cleanbot_control/src/command_arbiter_node.cpp:108-130 | commands, brush inputs and reconfigurations of the arbiter keep the invariant |
| `ProtocolProgress.UndisturbedRequestBecomesReady` | src/cleanbot_mission/src/maintenance_runtime.cpp:73-176 | the guarantee is not empty: from any start without inhibitor a run reaches "ready" for the next generation, held by the arbiter |
| `ProtocolProgress.ReservedNameDefeatsTheGate` | src/cleanbot_control/src/command_arbiter_core.cpp:140-190 | without the rule that no upstream command uses the reserved source name the end-to-end guarantee fails: a run reaches "ready" while the arbiter holds no maintenance state |
| `PublisherEpoch.EpochIdentifiesPublisher` | src/cleanbot_common/include/cleanbot_common/publisher_epoch_tracker.hpp:72-107 | over every run of observations, two accepted answers carry the same epoch exactly when they come from the same publisher, and epochs never go back |
| `PublisherEpoch.ObserveExtendsSessions` | src/cleanbot_common/include/cleanbot_common/publisher_epoch_tracker.hpp:72-107 | an accepted observation is of the newest session, opens at most one session, and any other answer changes nothing; a retired publisher is one seen before |
| `PublisherEpoch.StatusBySessions` | src/cleanbot_common/include/cleanbot_common/publisher_epoch_tracker.hpp:72-107 | invalid, retired and accepted by the sessions so far: the newest is accepted, an older one retired, a new one accepted while there is room |
| `ReadyProvenance.ReadyNeedsEvidence` | src/cleanbot_mission/src/maintenance_gate.cpp:83-230 | over every history, "ready" for g implies: g requested and not released since, mission idle, one safe brake commanded and never contradicted, its acknowledgement and no failure of it, and after both two safe zero frames of one session with increasing sequence numbers, newer than every earlier frame of it, with no unsafe, stale or invalid sample since |
| `ReadyProvenance.SampleCountsExactlyWhenNew` | src/cleanbot_mission/src/maintenance_gate.cpp:145-212 | once acknowledged, a safe zero sample changes the gate exactly when it is newer than everything fed since the request: re-feeding a sample never counts |
| `ReadyProvenance.EvidenceCanBeSupplied` | src/cleanbot_mission/src/maintenance_gate.cpp:83-230 | the chain of evidence is also enough: from any history, a new request, brake, acknowledgement (also before the brake) and two newer zero frames lead to "ready" |
| `ReadyProvenance.FailedBrakeIsNotReady` | src/cleanbot_mission/src/maintenance_gate.cpp:115-143 | a status REJECTED, TIMED_OUT, TRANSPORT_LOST or SUPERSEDED of the brake in force ends readiness, the phase names that failure, and nothing that comes later makes the gate ready before a new request |
| `ReadyProvenance.AcknowledgedExactlyBy` | src/cleanbot_mission/src/maintenance_gate.cpp:115-143 | the brake in force is acknowledged by a status SENT or ACKNOWLEDGED and by no other |
| `ReadyProvenance.OverflowsExactlyWhen` | src/cleanbot_mission/src/maintenance_gate.cpp:357-379 | the overflow is latched exactly by a seventeenth command's early status |
| `ReadyProvenance.InvHolds` | src/cleanbot_mission/src/maintenance_gate.cpp:24-442 | what the gate's fields say about the history of calls holds after every history |
| `MaintenanceGates.ObservationsKeepOpening` | src/cleanbot_mission/src/maintenance_gate.cpp:83-212 | no observation changes which generation is open, or whether one is |
| `MaintenanceStores.TransactionsAdvance` | src/cleanbot_mission/src/maintenance_store.cpp:1057-1208 | with every failure of the disk, before or after the commit: a transaction leaves a valid record, only advances it, reports "committed" exactly when the durable record changed, and a returned record is the durable one |
| `MaintenanceStores.ActivatedExactlyWhen` | src/cleanbot_mission/src/maintenance_store.cpp:1305-1364 | a request is granted exactly when the disk works, nothing is held and a generation is left; the record is replaced exactly when the disk comes that far |
| `MaintenanceStores.ReleasedExactlyWhen` | src/cleanbot_mission/src/maintenance_store.cpp:1367-1404 | a release is granted exactly by the generation and the requester that hold it on a working disk, and then nothing is held |
| `MaintenanceRuntimes.FailClosed` | src/cleanbot_mission/src/maintenance_runtime.cpp:493-681 | over every sequence of calls and every disk outcome: admission is open only if initialized, unfaulted and without durable inhibitor; a "ready" snapshot names the durable generation; while operational the gate's last generation is the durable one |
| `MaintenanceRuntimes.FaultIsSticky` | src/cleanbot_mission/src/maintenance_runtime.cpp:650-681 | once a store fault is latched no later sequence of calls changes anything, and admission stays closed |
| `MaintenanceRuntimes.FaultFreezes` | src/cleanbot_mission/src/maintenance_runtime.cpp:599-613 | a faulted runtime refuses every transition and changes neither itself nor the durable record |
| `MaintenanceRuntimes.StepInv` | src/cleanbot_mission/src/maintenance_runtime.cpp:27-361 | every call keeps the runtime's invariant against the durable record and never clears a fault |
| `MaintenanceRuntimes.AfterInv` | src/cleanbot_mission/src/maintenance_runtime.cpp:27-361 | the invariant holds after every sequence of calls |
| `MaintenanceRuntimes.EnableInv` | src/cleanbot_mission/src/maintenance_runtime.cpp:73-176 | enabling: accepted means operational with the gate open; whenever the record changed, even with an error after the commit, the gate has opened for the committed generation |
| `MaintenanceRuntimes.DisableInv` | src/cleanbot_mission/src/maintenance_runtime.cpp:178-252 | disabling: accepted means the gate is closed and the release is durable |
| `MaintenanceRuntimes.HealthyCallsAreAccepted` | src/cleanbot_mission/src/maintenance_runtime.cpp:73-252 | on a working disk maintenance can be entered and left: enabling is accepted exactly where nothing is held or the same requester holds it, disabling exactly by generation and requester, and then admission is open again |
| `MaintenanceRuntimes.FaultExactlyWhen` | src/cleanbot_mission/src/maintenance_runtime.cpp:73-252 | enabling or disabling latches the fault exactly when the disk fails in something the transaction asks of it, before or after the commit |
| `MaintenanceRuntimes.RestoreSucceedsExactlyWhen` | src/cleanbot_mission/src/maintenance_runtime.cpp:27-70 | after any calls that came before it, the first initialization succeeds if and only if the disk worked and no earlier call reported the mission idle |
| `MaintenanceRuntimes.SampleFromBeforeTheRequestCounts` | src/cleanbot_mission/src/maintenance_runtime.cpp:343-361 | a sample received before the request can serve as the first zero frame when it is re-fed after the acknowledgement |
| `RuntimeProvenance.ReadySnapshotNeedsEvidence` | src/cleanbot_mission/src/maintenance_runtime.cpp:526-576 | a published "ready" has the whole chain of evidence in what the runtime's calls fed the gate, in the order of the calls |
| `RuntimeProvenance.CallFeeds` | src/cleanbot_mission/src/maintenance_runtime.cpp:255-361 | each call changes the gate by exactly the event it feeds, and leaves to be fed again exactly the last sample of an accepted publisher |
| `RuntimeProvenance.GateHistory` | src/cleanbot_mission/src/maintenance_runtime.cpp:255-361 | after every sequence of calls the gate is what those calls fed it, in their order: observations as given, requests by the enables that committed them, and on a refresh the last accepted sample with its freshness at that time |
| `MaintenanceCoordinator.CoreFollowsCoordinator` | src/cleanbot_control/src/command_arbiter_node.cpp:132-232 | after every sequence of inputs, reconfigurations included, the arbiter core holds what the coordinator accepted, and while that is active every output is its brake |
| `MaintenanceCoordinator.AcceptedMeansHeld` | src/cleanbot_control/src/command_arbiter_core.cpp:62-133 | an accepted maintenance message has a non-zero generation and is then what the coordinator holds; a rejected one changes nothing |
| `MaintenanceCoordinator.AcceptedExactlyWhen` | src/cleanbot_control/src/command_arbiter_core.cpp:62-105 | what is accepted, by the publishers heard so far: the newest, or a new one there is room for, entering with a newer generation, repeating or leaving the current one; a nameless one only before any other and only to enter |
| `MaintenanceCoordinator.StepKeepsInStep` | src/cleanbot_control/src/command_arbiter_node.cpp:178-232 | each input keeps coordinator and core in step |
| `MaintenanceCoordinator.ConfiguredExactlyWhen` | src/cleanbot_control/src/command_arbiter_node.cpp:212-232 | the node is configured once, and anew only initially; then it starts without commands and with the maintenance state held |
| `CommandArbiter.GateForcesTheBrake` | src/cleanbot_control/src/command_arbiter_core.cpp:140-277 | an active gate brakes with its generation, is left alone by commands, and accepts none but emergency stops |
| `CommandArbiter.ReservedSourceExactly` | src/cleanbot_control/src/command_arbiter_core.cpp:230-277 | an output bears the reserved name exactly when the gate is active or the selected command was sent under that name |
| `CommandArbiter.ReservedSourceIsNotRejected` | src/cleanbot_control/src/command_arbiter_core.cpp:140-190 | a manual command under the reserved name is accepted and relayed as if it were the gate's |
| `CommandArbiter.MaintenanceWipesOrKeeps` | src/cleanbot_control/src/command_arbiter_core.cpp:205-217 | a maintenance change wipes every slot, the operator mode and the brush; no change wipes nothing |
| `CommandArbiter.MaintenanceAcceptedExactlyWhen` | src/cleanbot_control/src/command_arbiter_core.cpp:14-56 | maintenance is entered with a generation newer than any before, repeated with the current one, left with that alone; anything else changes nothing |
| `CommandArbiter.HighestLiveSourceIsObeyed` | src/cleanbot_control/src/command_arbiter_core.cpp:240-275 | without gate and stop, the live source no live source outranks (emergency, safety, manual, mission, vision) is the output: its brake with everything at zero, or its motion with the brush as set |
| `CommandArbiter.LiveSafetyBrakeStops` | src/cleanbot_control/src/command_arbiter_core.cpp:240-275 | a live safety brake stops the vehicle unless a live emergency command precedes it |
| `ArbiterRuns.FirstStandingCommandIsObeyed` | src/cleanbot_control/src/command_arbiter_core.cpp:140-277 | over every run: with no gate and no stop, the output is the accepted, unrevoked command within its lease whose source comes first in the fixed order, with the brush as it was last set |
| `ArbiterRuns.NobodyStandingOnlyBrushes` | src/cleanbot_control/src/command_arbiter_core.cpp:252-262 | with no standing command the vehicle brakes, or stands and brushes as it was last told |
| `ArbiterRuns.LiveExactlyWhenStanding` | src/cleanbot_control/src/command_arbiter_core.cpp:298-310 | a source is live exactly when the history holds an accepted command of it, within its lease, that no later command of it, stop, maintenance change or operator taking over has revoked |
| `ArbiterRuns.MotionHasProvenance` | src/cleanbot_control/src/command_arbiter_core.cpp:140-277 | over every run, non-zero motion is such a command, no brake, and no source before its own has one; no gate is active and no stop latched |
| `ArbiterRuns.AcceptedExactlyWhen` | src/cleanbot_control/src/command_arbiter_core.cpp:140-190 | what is accepted, by the history: emergency stops always, under the gate nothing else, under a stop an operator's newer intent, else all but a command without intent of an operator who is not in charge |
| `ArbiterRuns.BrushHasProvenance` | src/cleanbot_control/src/command_arbiter_core.cpp:192-277 | a turning brush stands on the last brush input that counted, after the last stop and the last maintenance change, clamped to -100 to 100 |
| `ArbiterRuns.StopEndsOnlyByNewerIntent` | src/cleanbot_control/src/command_arbiter_core.cpp:140-190 | a latched stop ends only by an operator-intent command newer than every stop so far |
| `ArbiterRuns.NewerIntentEndsTheStop` | src/cleanbot_control/src/command_arbiter_core.cpp:160-190 | and outside maintenance such a command does end it and puts its operator in charge |
| `ArbiterRuns.BoundariesCoverEveryStop` | src/cleanbot_control/src/command_arbiter_core.cpp:140-190 | the stop boundary is at least the identifier and the stamp of every stop of the run |
| `ArbiterRuns.OneOperatorAtATime` | src/cleanbot_control/src/command_arbiter_core.cpp:168-185 | while an operator is in charge no other operator source has a standing command |
| `ArbiterRuns.AfterInv` | src/cleanbot_control/src/command_arbiter_core.cpp:140-277 | the run invariant behind these holds after every run |
| `UpdateRecovery.ApplySurvivesCrashes` | deployment/updater/cleanbot_updater.py:2384-2523 | an apply that dies anywhere, any number of recoveries that die anywhere, then one that succeeds: the link and the recorded current release are the release the apply started from |
| `UpdateRecovery.ApplyDiesRecoverably` | deployment/updater/cleanbot_updater.py:1614-1920 | wherever an apply dies, a record in an interrupted phase has the starting release as its recovery target, an idle record names what the link points at, and the link is the old or the new release |
| `UpdateRecovery.RollbackSurvivesCrashes` | deployment/updater/cleanbot_updater.py:2047-2358 | the same for a rollback: recovery ends at the previous release if the process died in ROLLING_BACK and at the starting one if it died in HEALTH_CHECK |
| `UpdateRecovery.RollbackDiesRecoverably` | deployment/updater/cleanbot_updater.py:2047-2358 | wherever a rollback dies, the record says which of the two recovery goes to |
| `UpdateRecovery.RecoveryKeepsOrSettles` | deployment/updater/cleanbot_updater.py:2384-2611 | wherever a recovery dies, the record is as found or settled to what the link points at; after a switch taken for a failure it may be settled to what the link pointed at before |
| `UpdateRecovery.InterruptedIsUnchanged` | deployment/updater/cleanbot_updater.py:2384-2611 | while recoveries keep dying unsettled the record does not change |
| `UpdateRecovery.SettledStaysSettled` | deployment/updater/cleanbot_updater.py:2384-2400 | after a settled recovery later recoveries have no effects |
| `Updater.ApplyStaged` | deployment/updater/cleanbot_updater.py:1561-1920 | for every combination of effect failures: maintenance given back only if the service was never disturbed or confirmed since; service disturbed only under confirmed maintenance; link switched only while stopped; every state recoverable; a FAILED record differs from the link exactly when the link was moved once and maintenance is still held or that move was taken for a failure; success exactly when nothing fails, by the thirteen steps in order; a failure after the move is answered at once by ROLLING_BACK, stop and the switch back; with one failure in all the apply ends undone, running and given back |
| `Updater.RollBack` | deployment/updater/cleanbot_updater.py:2047-2358 | the same for a rollback: guarantees, exact condition of a wrong FAILED record, exactly which states are rejected, its steps in order, turning back at once, undone after one failure |
| `UpdateWitnesses.FailedApplyCanKeepTheNewLink` | deployment/updater/cleanbot_updater.py:1735-1920 | a trace of effects of an apply that keeps every guarantee and ends with FAILED naming the old release, the link at the new one and maintenance held |
| `UpdateWitnesses.FailedRollbackCanKeepThePreviousLink` | deployment/updater/cleanbot_updater.py:2200-2358 | the same for a rollback |
| `Updater.RecoverInterrupted` | deployment/updater/cleanbot_updater.py:2362-2611 | the same for a recovery, which starts a stopped service again at once; success ends settled at the target; a settled record misnames the link exactly after a switch taken for a failure; after one failure the service runs, and maintenance stays exactly when the running release was not confirmed |
| `UpdateWitnesses.FailedApplyCanRunTheNewRelease` | deployment/updater/cleanbot_updater.py:1102-1141 | a trace of an apply whose first switch replaces the link but fails its directory sync: every guarantee is kept, the new release runs with maintenance given back, and FAILED names the old one |
| `UpdateWitnesses.RecoveryCanMisnameTheLink` | deployment/updater/cleanbot_updater.py:2439-2611 | the same for a recovery from any interrupted record whose link is not yet at the target |
| `Updater.RestoreAfterApply` | deployment/updater/cleanbot_updater.py:1735-1921 | a failed apply takes the way back from a reported switch, restarts a stopped service otherwise, stays put where nothing is known to go back to, and where nothing more fails ends undone |
| `Updater.RestoreAfterRollback` | deployment/updater/cleanbot_updater.py:2200-2358 | a failed rollback turns back or restarts the service, and where nothing more fails ends undone |
| `Updater.RetryReady` | deployment/updater/cleanbot_updater.py:1543-1557 | a positive answer is that of the last check, which alone succeeded; a negative one follows failed checks only |
| `Updater.RetryHealth` | deployment/updater/cleanbot_updater.py:1543-1557 | the same for health checks |
| `UpdateWorlds.GuardMeansGuarded` | deployment/updater/cleanbot_updater.py:1631-1905 | what the monitor remembers about releases holds of the whole trace of effects |
| `UpdateWorlds.ShelterMeansSheltered` | deployment/updater/cleanbot_updater.py:1631-1905 | what the monitor remembers about shelter holds of the whole trace |
| `UpdateWorlds.OfflineMeansOffline` | deployment/updater/cleanbot_updater.py:1631-1905 | what the monitor remembers about switching holds of the whole trace |
| `UpdateWorlds.CountMeans` | deployment/updater/cleanbot_updater.py:1543-1557 | what is counted as a failure is an effect that failed and was not a check retried right away, and which one came first is remembered |
| `UpdateWorlds.World.Switch` | deployment/updater/cleanbot_updater.py:1102-1141 | the link is left alone, or replaced and reported, or replaced although the call fails |
| `UpdateWorlds.World.WriteState` | deployment/updater/cleanbot_updater.py:1045-1085 | the record is replaced on success; a failed write leaves it or has replaced it |
| `UpdateWorlds.KeptMeansEveryPoint` | deployment/updater/cleanbot_updater.py:1614-1920 | every state the world went through is one the operation allows |
| `WriteQueue.EnqueueKeeps` | src/cleanbot_hardware/src/write_queue.cpp:35-94 | an enqueue behind a pinned head keeps the head, the priority order with first-in-first-out, the capacity and keys waiting at most once; nothing is lost: old items and the new one are the new queue plus the superseded and the evicted; a refusal changes nothing |
| `WriteQueue.AcceptedExactlyWhen` | src/cleanbot_hardware/src/write_queue.cpp:35-94 | exactly when a batch is accepted: room, a batch of the same key waiting, or one that may be evicted |
| `SerialWriter.RunKeepsInv` | src/cleanbot_hardware/src/lower_machine_serial.cpp:174-262 | after every run: writing exactly while the queue is non-empty and connected, the active batch is the head, the tail sorted and within capacity, and every accepted batch is waiting or has exactly one fate, with its callback fired exactly once |
| `SerialWriter.StepKeepsInv` | src/cleanbot_hardware/src/lower_machine_serial.cpp:174-262 | each step keeps that invariant |
| `SerialWriter.HeadIsPinned` | src/cleanbot_hardware/src/lower_machine_serial.cpp:174-231 | nothing but its own completion or a transport error moves the batch being written |
| `SerialWriter.RefusalChangesNothing` | src/cleanbot_hardware/src/lower_machine_serial.cpp:174-214 | a refused batch leaves queue and transport as they were and fires at most its own refusal |
| `SerialWriter.DiscardingSettles` | src/cleanbot_hardware/src/lower_machine_serial.cpp:252-262 | a transport reset discards every waiting batch, and each of them once |
| `SerialWriter.FatesByInput` | src/cleanbot_hardware/src/lower_machine_serial.cpp:216-262 | a batch is written exactly when the write of it at the head is reported as completed, and discarded exactly when the transport breaks while it is queued |
| `SerialWriter.LinkByInput` | src/cleanbot_hardware/src/lower_machine_serial.cpp:40-262 | the link is open from its opening until it breaks, a break asks for another attempt unless it is a shutdown, and a write it cuts off stays to be reported |
| `LowerMachineNode.BrakeIsNeverRejected` | src/cleanbot_hardware/src/lower_machine_node.cpp:80-116 | with the node's priorities and keys and a capacity of three or more, a brake is accepted in every connected state and waits behind at most two batches |
| `LowerMachineNode.NarrowQueueRejectsBrake` | src/cleanbot_hardware/src/lower_machine_node.cpp:101-116 | with capacity two a reachable state rejects a brake: the bound of three is needed |
| `LowerMachineNode.SafetyNeverFallsBack` | src/cleanbot_hardware/src/write_queue.cpp:35-94 | a waiting safety batch is never evicted and never moved back; only a batch of its own key replaces it |
| `LowerMachineNode.RunIsDisciplined` | src/cleanbot_hardware/src/lower_machine_node.cpp:316-327 | in every run of the node, safety batches wait only under the brake or the reconnect-stop key |
| `LowerMachineNode.CarriedOutIsNeverSuperseded` | src/cleanbot_hardware/src/lower_machine_node.cpp:84-116 | over every run: a charge, distance, rotation or mode command is never superseded by what is sent after it |
| `LowerMachineNode.MotionWaitsBehind` | src/cleanbot_hardware/src/lower_machine_node.cpp:101-116 | in every run of the node no motion waits before a command that is to be carried out |
| `Deframing.ChunkingDoesNotMatter` | src/cleanbot_hardware/src/frame_buffer.cpp:16-55 | draining after every chunk gives the frames, the residue and the rejects of one parse of the whole stream |
| `Deframing.ParseInParts` | src/cleanbot_hardware/src/frame_buffer.cpp:25-55 | parsing a stream in two parts, the second after the first one's residue, is parsing it at once |
| `Deframing.FramesComeBack` | src/cleanbot_hardware/src/frame_buffer.cpp:25-55 | a concatenation of frames parses to exactly those frames with nothing left |
| `Deframing.OnlyFramesComeOut` | src/cleanbot_hardware/src/frame_buffer.cpp:25-55 | whatever the input, only well-formed frames come out |
| `StatusFrames.DeframingRefinesParse` | src/cleanbot_hardware/src/lower_machine_serial.cpp:150-171 | with reads of at most 256 bytes and a drain after each the frames are those of one parse of the whole stream, and the residue stays below one frame, so trimming never fires |
| `StatusFrames.FramesAreDelivered` | src/cleanbot_hardware/src/frame_buffer.cpp:16-55 | frames sent back to back arrive unchanged and in order, however they are chunked |
| `StatusFrames.FramesAndResidue` | src/cleanbot_hardware/src/frame_buffer.cpp:25-55 | what is left is shorter than a frame and every frame is well formed |
| `StatusFrames.TrimmedKeepsTheNewest` | src/cleanbot_hardware/src/frame_buffer.cpp:60-83 | too much data is cut to the newest bytes from the last possible start of a frame on, or to the capacity |
| `StatusFrames.FrameBuffer.Pop` | src/cleanbot_hardware/src/frame_buffer.cpp:25-55 | one pop advances the parse of what is buffered by one frame |
| `Crc24q.CrcIsLinear` | src/cleanbot_rtk/src/rtcm3_frame_buffer.cpp:95-109 | the checksum of the bytewise sum of equally long messages is the sum of their checksums |
| `Crc24q.RemainderIsZeroExactlyWhen` | src/cleanbot_rtk/src/rtcm3_frame_buffer.cpp:95-109 | a message followed by three bytes has checksum zero exactly when they are its checksum |
| `Crc24q.BurstsAreDetected` | src/cleanbot_rtk/src/rtcm3_frame_buffer.cpp:95-109 | messages that differ only inside three consecutive bytes never share a checksum |
| `Crc24q.CrcIsTheRegister` | src/cleanbot_rtk/src/rtcm3_frame_buffer.cpp:95-109 | the masked result is the shift register, which never leaves 24 bits |
| `Crc24q.Compute` | src/cleanbot_rtk/src/rtcm3_frame_buffer.cpp:95-109 | the nested loops over bytes and bits compute it |
| `CrcRegisters.RegisterIsAdditive` | src/cleanbot_rtk/src/rtcm3_frame_buffer.cpp:95-109 | any additive shift register is additive in state and message |
| `CrcRegisters.SameRegisterSameWord` | src/cleanbot_rtk/src/rtcm3_frame_buffer.cpp:95-109 | any faithful register told two three-symbol bursts apart unless their words agree |
| `Rtcm3.FrameExactlyWhenWellFormed` | src/cleanbot_rtk/src/rtcm3_frame_buffer.cpp:36-81 | exactly the frames with preamble, reserved bits zero, announced length and matching checksum are taken (section 4 of RTCM 10403.x) |
| `Rtcm3.DeframingRefinesParse` | src/cleanbot_rtk/src/rtcm3_frame_buffer.cpp:23-81 | with a buffer of 1028 bytes plus one chunk, frames, residue and rejects are those of one parse of the whole stream |
| `Rtcm3.FramesAndResidue` | src/cleanbot_rtk/src/rtcm3_frame_buffer.cpp:36-81 | every frame that comes out is well formed and the residue is shorter than the longest frame |
| `Rtcm3.EncodedIsWellFormed` | src/cleanbot_rtk/src/rtcm3_frame_buffer.cpp:36-81 | every payload of up to 1023 bytes, framed, is a frame that carries it |
| `Rtcm3.Rtcm3FrameBuffer.Pop` | src/cleanbot_rtk/src/rtcm3_frame_buffer.cpp:36-81 | one pop advances the parse by one frame and counts exactly the rejects on the way |
| `Rtcm3.Rtcm3FrameBuffer.Drain` | src/cleanbot_rtk/src/rtk_node.cpp:87-103 | popping until nothing comes is the parse of the buffer, and it ends |
| `Ntrip.ResponseIsJudgedAsAWhole` | src/cleanbot_rtk/src/ntrip_protocol.cpp:102-165 | however a response is chunked, state and payload are those of the whole response |
| `Ntrip.AppendReflects` | src/cleanbot_rtk/src/ntrip_protocol.cpp:102-165 | each chunk moves the parser to the verdict on everything so far, once rejected or accepted for good |
| `Ntrip.AcceptedHeaderPassesTheRest` | src/cleanbot_rtk/src/ntrip_protocol.cpp:102-165 | after an accepted header within the limit everything else is payload |
| `CorrectionPath.FramesArriveUnchanged` | src/cleanbot_rtk/src/rtk_node.cpp:87-103 | an accepted header followed by any valid frames, in any chunks: exactly those frames in order, nothing left, no checksum error |
| `CorrectionPath.PathRefinesParse` | src/cleanbot_rtk/src/rtk_node.cpp:87-103 | parser and frame buffer together are one parse of the response's payload |
| `CorrectionPath.OnlyCheckedFrames` | src/cleanbot_rtk/src/rtk_node.cpp:87-103 | for any input, only frames with matching checksums are passed on, and none before the response is accepted |
| `CorrectionPath.CorrectionReceiver.OnBytes` | src/cleanbot_rtk/src/rtk_node.cpp:87-103 | the handler passes on exactly the frames completed by its chunk |
| `ChainSolver.ResolveSubAreaChain` | src/cleanbot_modeling/src/task_plan_builder.cpp:92-181 | with two areas or more the solver succeeds exactly when the confirmed connectors form one directed path through all uniquely named areas, and returns it as a permutation; one area needs no connector, none is refused |
| `ChainSolver.ChainIsUnique` | src/cleanbot_modeling/src/task_plan_builder.cpp:92-181 | there is at most one such path |
| `ChainSolver.PathsAgree` | src/cleanbot_modeling/src/task_plan_builder.cpp:123-181 | two paths with the same edges agree from their first area on |
| `ChainSolver.BuildGraph` | src/cleanbot_modeling/src/task_plan_builder.cpp:123-143 | the graph built is that of all connectors, or there is no path |
| `ChainSolver.FindRoot` | src/cleanbot_modeling/src/task_plan_builder.cpp:147-162 | the root found is the only area without incoming edge |
| `ChainSolver.Walk` | src/cleanbot_modeling/src/task_plan_builder.cpp:163-181 | following the edges from the root yields the path, or there is none |
| `ChainSolver.IndexAreas` | src/cleanbot_modeling/src/task_plan_builder.cpp:114-121 | areas are indexed exactly when their names differ |
| `RegionRecognizer.Segment` | src/cleanbot_modeling/src/region_recognizer.cpp:314-365 | the cursor loop gets through exactly on sequences of boundary runs of four or more separated by pairs of connector points, and cuts them where they are |
| `RegionRecognizer.LanguageUnfolds` | src/cleanbot_modeling/src/region_recognizer.cpp:314-365 | that language, defined by its layouts, is read off run by run |
| `RegionRecognizer.ReadPiece` | src/cleanbot_modeling/src/region_recognizer.cpp:320-360 | one step of the loop reads a run and a pair, or the language is left |
| `RegionRecognizer.RecognizedSolvesInOrder` | src/cleanbot_modeling/src/region_recognizer.cpp:415-472 | a recognized and confirmed group solves to its areas in the order they were recorded |
| `RegionRecognizer.UnconfirmedIsRefused` | src/cleanbot_modeling/src/region_recognizer.cpp:415-472 | an unconfirmed group of several areas never solves |
| `RegionRecognizer.RecognizeGroup` | src/cleanbot_modeling/src/region_recognizer.cpp:314-490 | recognition succeeds exactly when the points have a layout of runs and pairs that the geometry accepts, and then yields that layout's group: one area per run with its points in the arranged order, one connector per pair between its two points, all confirmed or none; it fails before the geometry exactly outside the language |
| `RegionRecognizer.RecognizedPointByPoint` | src/cleanbot_modeling/src/region_recognizer.cpp:314-475 | point by point: runs of four boundary points or more alternate with two connection points, area i holds the points of run i, connector i starts and ends at the points of pair i, and all of it is confirmed exactly if every boundary is certain enough |
| `RegionRecognizer.LayoutIsUnique` | src/cleanbot_modeling/src/region_recognizer.cpp:314-365 | no sequence of points has two layouts |
| `RegionRecognizer.RecognizedOneWay` | src/cleanbot_modeling/src/region_recognizer.cpp:366-490 | points and geometry determine the recognized group |
| `RegionRecognizer.AreaIdsDiffer` | src/cleanbot_modeling/src/region_recognizer.cpp:366-415 | generated area names differ |
| `TaskPlan.BuildTaskPlan` | src/cleanbot_modeling/src/task_plan_builder.cpp:290-514 | a plan is returned exactly when the model is confirmed, named, has groups, an origin and a speed, and a way leads through all its areas; the odd-lane error never occurs |
| `PlannedLanes.PlannerCovers` | src/cleanbot_modeling/src/task_plan_builder.cpp:385-405 | the lanes of an area, where the coverage planner gives any, are never none and never odd in number |
| `PlannedLanes.BuildPlanOverCoverage` | src/cleanbot_modeling/src/task_plan_builder.cpp:290-508 | over the planner's lanes a plan is returned exactly when there is a way through all areas, and its lane count is even |
| `TaskPlan.PlanBuilder.AppendLane` | src/cleanbot_modeling/src/task_plan_builder.cpp:412-493 | a lane is entered exactly when its area adjoins the last one; direct within an area, over the connector's points between areas |
| `TaskPlan.PlanBuilder.AppendVisit` | src/cleanbot_modeling/src/task_plan_builder.cpp:408-494 | all lanes of an area are driven, every second one backwards |
| `TaskPlan.PlanBuilder.AppendGroup` | src/cleanbot_modeling/src/task_plan_builder.cpp:353-495 | all areas of a group are visited in chain order, or no way through the group adjoins what was done |
| `TaskPlan.NextAreaIsApproached` | src/cleanbot_modeling/src/task_plan_builder.cpp:412-465 | from one area to the next the plan leads from the end of the last lane to the start point of a confirmed connector, along it to its end point and on to the first lane, leaving out legs that lead nowhere |
| `TaskPlan.NextLaneIsApproached` | src/cleanbot_modeling/src/task_plan_builder.cpp:412-418 | within an area a lane is approached straight from the end of the one before |
| `TaskPlan.VisitedInThisOrder` | src/cleanbot_modeling/src/task_plan_builder.cpp:359-376 | the visits to a group are determined by the group |
| `TaskPlan.NoTour` | src/cleanbot_modeling/src/task_plan_builder.cpp:353-495 | where assembling ends in an error no other tour exists |
| `TaskPlan.GroupsAdjoinExactlyWhen` | src/cleanbot_modeling/src/task_plan_builder.cpp:419-435 | one group is entered from another exactly when the adjoining areas bear the same name |
| `TaskPlan.UniqueNamesMeanOneGroup` | src/cleanbot_modeling/src/task_plan_builder.cpp:419-435 | with area names unique in the model a plan comes from exactly one group |
| `TaskPlan.PlanHasOneGroupUnlessNamesAreShared` | src/cleanbot_modeling/src/task_plan_builder.cpp:419-435 | every further group of a planned model begins with the area name the one before ended with |
| `TaskPlan.SharedNameJoinsGroups` | src/cleanbot_modeling/src/task_plan_builder.cpp:419-435 | two groups with one area of the same name each are joined without a connector |
| `Coverage.PlanCoverage` | src/cleanbot_modeling/src/coverage_planner.cpp:160-280 | exactly which failure occurs when, over the extent the polygon has; a layout returned is the first usable one, has an even number of distinct lanes, at least the minimum overlap, and every offset of the area within half a brush of a sweep line |
| `Coverage.AnswerIsUnique` | src/cleanbot_modeling/src/coverage_planner.cpp:160-280 | the polygon determines its extent, and with brush and overlap the whole answer |
| `Coverage.EveryCountKeepsTheSpacing` | src/cleanbot_modeling/src/coverage_planner.cpp:219-232 | every line count tried gives a positive spacing of at most brush minus overlap, so a count is never skipped for its spacing |
| `Coverage.EveryOffsetIsSwept` | src/cleanbot_modeling/src/coverage_planner.cpp:195-229 | narrow or wide, every offset between the polygon's extremes is within half a brush of some line, whatever count is tried |
| `Coverage.NaturalCountIsLeast` | src/cleanbot_modeling/src/coverage_planner.cpp:209-217 | in a wide area the natural count is the least number of lines that keeps the spacing |
| `Coverage.OutermostLinesTouchTheEdges` | src/cleanbot_modeling/src/coverage_planner.cpp:209-217 | in a wide area the outermost brush strokes end exactly at the edges |
| `Coverage.TooNarrowExactlyWhen` | src/cleanbot_modeling/src/coverage_planner.cpp:199-208 | exactly which areas are too narrow for two lanes |
| `Coverage.BuildLanes` | src/cleanbot_modeling/src/coverage_planner.cpp:113-146 | lanes are the pairs of neighbouring crossings of the sweep lines, numbered from one, those within the tolerance left out |
| `Coverage.TryLineCounts` | src/cleanbot_modeling/src/coverage_planner.cpp:219-280 | the first usable of the eleven line counts is taken, and failure means none is usable |
| `Tracking.RunStaysSound` | src/cleanbot_control/src/tracking_core.cpp:78-197 | over every run of samples and resets the position-speed covariance of each axis stays positive definite, also where the determinant is clamped |
| `Tracking.FilteredLiesBetween` | src/cleanbot_control/src/tracking_core.cpp:168-185 | from every sound filter, and so after every run, the next filtered coordinate lies strictly between prediction and measurement on each axis, unless they coincide |
| `Tracking.OnCourseStaysOnCourse` | src/cleanbot_control/src/tracking_core.cpp:112-133 | a sample found where position and speed lead after the elapsed time, clamped as the code does, moves the filter exactly there and keeps both speeds |
| `Tracking.SampleIsWeighed` | src/cleanbot_control/src/tracking_core.cpp:112-193 | with the clamp idle the new position is the mean of where the speed leads and what was measured, weighted by each other's variance, and speed and covariance follow the textbook filter |
| `Tracking.FurtherSamplePullsFurther` | src/cleanbot_control/src/tracking_core.cpp:112-185 | clamped or not, a sample further ahead gives a larger position, and a larger or smaller speed by the sign of the predicted covariance; the other axis does not see it |
| `Tracking.RunIsAsGoodAsTheSensor` | src/cleanbot_control/src/tracking_core.cpp:155-197 | where the clamp is idle (squared measurement noise at least 1e-9) no position is ever known worse than one measurement |
| `Tracking.PredictionStaysDefinite` | src/cleanbot_control/src/tracking_core.cpp:122-155 | predicting keeps an axis positive definite |
| `Tracking.CorrectionStaysDefinite` | src/cleanbot_control/src/tracking_core.cpp:155-197 | a correction scales the determinant by one minus the gain and lowers the variance |
| `Tracking.WeightIsSmall` | src/cleanbot_control/src/tracking_core.cpp:157-177 | clamped or not, the gain stays strictly between zero and one |
| `RtkKalmanFilters.RtkKalmanFilter2D.Update` | src/cleanbot_control/src/tracking_core.cpp:92-197 | the array loops keep the covariance symmetric and the axes uncoupled, and compute the two-axis filter |
| `MissionWorkers.MissionThroughCrashes` | src/cleanbot_mission/src/mission_manager_node.cpp:743-886 | through any number of process deaths and recoveries: completed segments start at the first and never skip or go back, each is earned by moments of its own, the stored checkpoint is valid and in step with them, and a mission that ends complete completed every segment |
| `MissionWorkers.MissionWorker.Execute` | src/cleanbot_mission/src/mission_manager_node.cpp:743-886 | wherever it ends, nothing was done and the file is untouched or the file tells where to go on; every completed segment was begun and completed in operational moments of its own after a successful preflight, and turned for where it asks; a one-pass mission fails or is cancelled only if something disturbed it; success means every segment once |
| `MissionWorkers.MissionWorker.Recover` | src/cleanbot_mission/src/mission_manager_node.cpp:1285-1493 | recovery goes on at the marked segment, repeats nothing after it and skips nothing; a cleaning mission is first brought back to where it goes on, and its first segment replanned; what is completed is earned; success means every segment was completed |
| `MissionWorkers.MissionWorker.RunPass` | src/cleanbot_mission/src/mission_manager_node.cpp:795-872 | each completed segment is earned, and recorded before the next begins; a first pass breaks off only where something disturbed it |
| `MissionWorkers.MissionWorker.RecordSegment` | src/cleanbot_mission/src/mission_manager_node.cpp:848-862 | between completion and record only the completed segment is unrecorded |
| `MissionWorkers.MissionWorker.EnsureOperational` | src/cleanbot_mission/src/mission_manager_node.cpp:1525-1556 | the step goes on exactly when the next moment is not cancelling, faulted, without hardware, paused or without fix; cancelling cancels, a fault or missing hardware fails, and a pause or lost fix ends only by a moment without it |
| `MissionWorkers.MissionWorker.AttemptTracking` | src/cleanbot_mission/src/mission_manager_node.cpp:1810-1961 | a segment is completed exactly when an operational moment is followed by a status of its own attempt's generation or an edge at the target; otherwise the attempt ends where a moment is not operational, blocks or meets an edge |
| `MissionWorkers.MissionWorker.ExecuteTurn` | src/cleanbot_mission/src/mission_manager_node.cpp:1726-1805 | a turn succeeds exactly when an operational moment is followed by the completion of its own request |
| `MissionWorkers.MissionWorker.AttemptSegment` | src/cleanbot_mission/src/mission_manager_node.cpp:795-846 | a completed segment was begun in an operational moment, replanned and turned for where that is asked, and completed by its own attempt |
| `MissionWorkers.OnePassAtOnce` | src/cleanbot_mission/src/mission_manager_node.cpp:743-886 | a pass without a crash completes each segment once |
| `MissionWorkers.PassesCanBeLeft` | src/cleanbot_mission/src/mission_manager_node.cpp:874-886 | a mission of several passes does come to a valid record between two of them, where a shutdown makes it look complete |
| `MissionCheckpoints.ProgressIsRejectedExactlyAfterOnePass` | src/cleanbot_mission/src/mission_checkpoint.cpp:58-70 | the check rejects a mission's own progress exactly in its second pass: a looped mission stops at the record of the first segment of pass two |
| `MissionCheckpoints.OnlyTheFirstPassEnds` | src/cleanbot_mission/src/mission_checkpoint.cpp:58-70 | a valid record at the end of a pass is at the end of the first |
| `MissionCheckpoints.OrderlyAdvancesByAtMostOne` | src/cleanbot_mission/src/mission_manager_node.cpp:848-862 | numbered through the passes, completed segments start at zero and advance by zero or one |
| `MissionCheckpoints.EndOfPassCoversEverySegment` | src/cleanbot_mission/src/mission_manager_node.cpp:743-886 | a log that reached the end of the pass contains every segment |
| `MissionStateMachines.SegmentMovesOnlyOnItsOwnCompletion` | src/cleanbot_mission/src/mission_state_machine.cpp:11-83 | over every sequence of calls the segment moves only at a start, or by one when the awaited generation completes |
| `MissionStateMachines.CompleteExactlyWhenAllSegmentsAre` | src/cleanbot_mission/src/mission_state_machine.cpp:70-83 | a mission is complete exactly when every segment from its start on was completed |
| `MissionStateMachines.RunIsSound` | src/cleanbot_mission/src/mission_state_machine.cpp:11-169 | a completion is awaited exactly while turning or tracking |
| `MissionStateMachines.PauseIsLeftBy` | src/cleanbot_mission/src/mission_state_machine.cpp:75-130 | a pause is left only by resuming, cancelling or failing, and a mission that is over only by a new start |

## Left out

- Allocation failures (the `catch (...)` paths) and `initializeGenesis`; a power loss that undoes a replacement whose
  directory sync had failed: a process dies here, its disk does not.
- Message texts, `last_error`, the free text of phases and codes: phases and codes are enumerations.
- Strings are sequences of characters; byte limits on requester and reason are limits on their length.
- 64-bit counters are naturals with their limits where the code checks them; wrap-around of request identifiers,
  tracking generations and 32-bit segment counts is not modelled.
- ROS topics, services, actions, quality of service, Boost.Asio, MQTT, HTTP, systemd, tar, OpenSSL and download: only
  their outcomes appear.
- Locks and threads: every callback runs as one step.
- SerialWriter.LowerMachineSerial.OnWrite: assumes that the completion of a cancelled write is delivered before the
  reconnect timer opens the port again, as the executor delivers them; starting the object again after a stop is not
  modelled.
- MaintenanceProtocol.ReadyHoldsTheVehicle: assumes that no upstream command uses the gate's reserved source name,
  because without that it is false; one arbiter incarnation and one store writer.
- Updater.ApplyStaged: that a FAILED record matches the link is stated with its exact exception, because the code does
  not promise more; releases are compared by identity, not by path.
- UpdateWorlds.World.Switch: what it reports to have replaced may be wrong, and the results on apply assume it is right.
- RegionRecognizer.RecognizeGroup: points arrive sorted by sequence; duplicate points, polygon order, area, connector
  length and crossing conditions are one parameter each.
- TaskPlan.BuildTaskPlan: headings, coordinates, hashes and identifiers of segments are not modelled; missing boundary
  points, sweep angle and coverage failures are one answer of the `lanes` parameter, which `PlannedLanes` fills with the
  coverage planner's answer.
- Coverage.PlanCoverage: non-finite inputs do not exist among reals; that the lanes of one line fill it is left to the
  crossing points.
- Tracking.RunStaysSound: exact reals, so rounding is not covered; the straight-line controller is left out.
- MissionWorkers.MissionWorker.Execute: that a shutdown between passes happens is an input, so the run itself is not
  exhibited, only the record it leaves; brush, feedback and published targets are left out; waypoint missions and the
  first run of a return home are not modelled, recovering one is; the choice between two checkpoint files is left to
  the caller.
- Ntrip.NtripResponseParser.Append: building requests and base64 are left out.
- LowerMachineNode.BrakeIsNeverRejected: encoding of commands and repetition of frames are a non-empty byte sequence;
  special frames and completion tracking are left out.
- Configuration registry, SQLite repositories, JSON codecs, vehicle state, joystick and service mapping: easy members.
