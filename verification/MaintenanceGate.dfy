/**
 The maintenance gate: it reports "ready" for a generation only on evidence.  `State` and the
 functions on it say what each observation does; the class `MaintenanceGate` does it in place.
 */
module MaintenanceGates {
  import opened Wrappers

  /** The source name that only the arbiter's maintenance output carries. */
  const GATE_SOURCE := "maintenance_gate"

  const PENDING_STATUS_CAPACITY: nat := 16

  const STATE_SENT: nat := 1
  const STATE_ACKNOWLEDGED: nat := 2
  const STATE_REJECTED: nat := 3
  const STATE_TIMED_OUT: nat := 4
  const STATE_TRANSPORT_LOST: nat := 7
  const STATE_SUPERSEDED: nat := 8

  datatype FinalCommand = FinalCommand(
    generation: nat, requestId: nat, commandId: nat, source: string,
    active: bool, brake: bool, xSpeed: int, zSpeed: int, brushSpeed: int)

  datatype CommandStatus = CommandStatus(
    generation: nat, requestId: nat, commandId: nat, source: string, state: nat)

  datatype Hardware = Hardware(
    epoch: nat, sequence: nat, isFresh: bool, connected: bool, xSpeed: int, zSpeed: int, brushSpeed: int)

  datatype BrakeFailure =
    NoFailure | Rejected | TimedOut | TransportLost | Superseded | CorrelationOverflow

  datatype PendingStatus = PendingStatus(acknowledged: bool, failure: BrakeFailure)

  /** What the hardware frames have confirmed since the brake was acknowledged. */
  datatype Confirmation = Confirmation(
    sampleObserved: bool, isFresh: bool, linearZero: bool, angularZero: bool, brushOff: bool, zeroFrames: nat)

  const UNCONFIRMED := Confirmation(false, false, false, false, false, 0)

  datatype State = State(
    pristine: bool, active: bool, generation: nat, lastGeneration: nat, missionIdle: bool,
    commandApplied: bool, commandId: nat, acknowledged: bool, failure: BrakeFailure,
    pending: map<nat, PendingStatus>, confirmation: Confirmation,
    publisherEpoch: Option<nat>, lastSequence: Option<nat>)

  const INITIAL := State(true, false, 0, 0, false, false, 0, false, NoFailure, map[], UNCONFIRMED, None, None)

  predicate Matches(generation: nat, requestId: nat, source: string, current: nat) {
    generation == current && requestId == current && source == GATE_SOURCE
  }

  predicate SafeBrake(c: FinalCommand) {
    && c.active && c.brake && c.commandId != 0
    && c.xSpeed == 0 && c.zSpeed == 0 && c.brushSpeed == 0
  }

  predicate SafeZero(h: Hardware) {
    h.isFresh && h.connected && h.xSpeed == 0 && h.zSpeed == 0 && h.brushSpeed == 0
  }

  function FailureForState(state: nat): BrakeFailure {
    if state == STATE_REJECTED then Rejected
    else if state == STATE_TIMED_OUT then TimedOut
    else if state == STATE_TRANSPORT_LOST then TransportLost
    else if state == STATE_SUPERSEDED then Superseded
    else NoFailure
  }

  predicate AcknowledgingState(state: nat) {
    state == STATE_SENT || state == STATE_ACKNOWLEDGED
  }

  function ClearEvidence(s: State): State {
    s.(commandApplied := false, commandId := 0, acknowledged := false, failure := NoFailure,
       pending := map[], confirmation := UNCONFIRMED, publisherEpoch := None, lastSequence := None)
  }

  function LatchFailure(s: State, failure: BrakeFailure): State {
    s.(failure := failure, acknowledged := false, pending := map[], confirmation := UNCONFIRMED)
  }

  function Acknowledge(s: State): State {
    if s.acknowledged then s else s.(acknowledged := true, confirmation := UNCONFIRMED)
  }

  /** The one-shot restore; None when the gate rejects it. */
  function Restored(s: State, lastGeneration: nat, activeGeneration: Option<nat>, missionIdle: bool): Option<State> {
    if !s.pristine || (activeGeneration.Some? && (lastGeneration == 0 || activeGeneration.value != lastGeneration))
    then None
    else
      Some(ClearEvidence(s.(pristine := false, active := activeGeneration.Some?,
                            generation := if activeGeneration.Some? then activeGeneration.value else 0,
                            lastGeneration := lastGeneration, missionIdle := missionIdle)))
  }

  function Requested(s: State, generation: nat, missionIdle: bool): Option<State> {
    if generation == 0 || generation <= s.lastGeneration then None
    else
      Some(ClearEvidence(s.(pristine := false, active := true, generation := generation,
                            lastGeneration := generation, missionIdle := missionIdle)))
  }

  function Released(s: State, generation: nat): Option<State> {
    if !s.active || generation != s.generation then None
    else Some(ClearEvidence(s.(active := false, generation := 0, missionIdle := false)))
  }

  function MissionIdleSet(s: State, missionIdle: bool): State {
    s.(pristine := s.pristine && missionIdle == s.missionIdle, missionIdle := missionIdle)
  }

  function PendingApplied(s: State, commandId: nat): State {
    if commandId !in s.pending then s
    else
      var status := s.pending[commandId];
      var s1 := s.(pending := s.pending - {commandId});
      if status.failure != NoFailure then LatchFailure(s1, status.failure)
      else if status.acknowledged then Acknowledge(s1)
      else s1
  }

  function FinalCommandObserved(s: State, c: FinalCommand): State {
    if !s.active || s.failure != NoFailure || !Matches(c.generation, c.requestId, c.source, s.generation) then s
    else if !SafeBrake(c) then
      s.(commandApplied := false, commandId := 0, acknowledged := false, confirmation := UNCONFIRMED)
    else
      var changed := !s.commandApplied || c.commandId != s.commandId;
      var s1 := if changed
                then s.(commandApplied := true, commandId := c.commandId,
                        acknowledged := false, confirmation := UNCONFIRMED)
                else s;
      PendingApplied(s1, c.commandId)
  }

  function StatusRemembered(s: State, commandId: nat, acknowledged: bool, failure: BrakeFailure): State {
    if commandId !in s.pending && |s.pending| >= PENDING_STATUS_CAPACITY then
      LatchFailure(s, CorrelationOverflow)
    else
      var before := if commandId in s.pending then s.pending[commandId] else PendingStatus(false, NoFailure);
      var after := if failure != NoFailure then PendingStatus(false, failure)
                   else if acknowledged && before.failure == NoFailure then PendingStatus(true, NoFailure)
                   else before;
      s.(pending := s.pending[commandId := after])
  }

  function CommandStatusObserved(s: State, status: CommandStatus): State {
    if !s.active || s.failure != NoFailure
       || !Matches(status.generation, status.requestId, status.source, s.generation)
       || status.commandId == 0
    then s
    else
      var acknowledged := AcknowledgingState(status.state);
      var failure := FailureForState(status.state);
      if !acknowledged && failure == NoFailure then s
      else if s.commandApplied && status.commandId == s.commandId then
        if failure != NoFailure then LatchFailure(s, failure) else Acknowledge(s)
      else StatusRemembered(s, status.commandId, acknowledged, failure)
  }

  predicate NewerThan(sequence: nat, last: Option<nat>) {
    last.None? || last.value < sequence
  }

  function SequenceSeen(s: State, sequence: nat): State {
    if NewerThan(sequence, s.lastSequence) then s.(lastSequence := Some(sequence)) else s
  }

  /** A newer publisher epoch starts its own confirmation and its own frame sequence. */
  function SessionEntered(s: State, epoch: nat): State {
    if s.publisherEpoch == Some(epoch) then s
    else s.(confirmation := UNCONFIRMED, publisherEpoch := Some(epoch), lastSequence := None)
  }

  /** What a sample of the current session adds once the brake is acknowledged. */
  function SampleJudged(s: State, h: Hardware): State {
    if !SafeZero(h) then
      SequenceSeen(s.(confirmation := Confirmation(true, h.isFresh && h.connected, h.xSpeed == 0,
                                                   h.zSpeed == 0, h.brushSpeed == 0, 0)),
                   h.sequence)
    else if !NewerThan(h.sequence, s.lastSequence) then s
    else
      s.(confirmation := Confirmation(true, true, true, true, true, Min(2, s.confirmation.zeroFrames + 1)),
         lastSequence := Some(h.sequence))
  }

  function HardwareObserved(s: State, h: Hardware): State {
    if !s.active || s.failure != NoFailure then s
    else if h.epoch == 0 then
      s.(confirmation := UNCONFIRMED.(sampleObserved := s.acknowledged))
    else if s.publisherEpoch.Some? && h.epoch < s.publisherEpoch.value then s
    else
      var s1 := SessionEntered(s, h.epoch);
      if s1.acknowledged then SampleJudged(s1, h) else SequenceSeen(s1, h.sequence)
  }

  predicate Ready(s: State) {
    && s.active && s.missionIdle && s.commandApplied && s.acknowledged && s.failure == NoFailure
    && s.confirmation.sampleObserved && s.confirmation.isFresh && s.confirmation.linearZero
    && s.confirmation.angularZero && s.confirmation.brushOff && s.confirmation.zeroFrames >= 2
  }

  datatype Phase =
    Inactive | BrakeFailed(failure: BrakeFailure) | MissionBusy | WaitingForCommandGate | WaitingForBrakeAck
    | HardwareSamplePending | HardwareNotFresh | HardwareNotStopped | BrushNotOff
    | HardwareConfirmationPending | GateReady

  datatype Snapshot = Snapshot(
    generation: nat, gateActive: bool, missionIdle: bool, commandGateApplied: bool, brakeAcknowledged: bool,
    confirmation: Confirmation, ready: bool, phase: Phase)

  function PhaseOf(s: State): Phase {
    if !s.active then Inactive
    else if s.failure != NoFailure then BrakeFailed(s.failure)
    else if !s.missionIdle then MissionBusy
    else if !s.commandApplied then WaitingForCommandGate
    else if !s.acknowledged then WaitingForBrakeAck
    else if !s.confirmation.sampleObserved then HardwareSamplePending
    else if !s.confirmation.isFresh then HardwareNotFresh
    else if !s.confirmation.linearZero || !s.confirmation.angularZero then HardwareNotStopped
    else if !s.confirmation.brushOff then BrushNotOff
    else if s.confirmation.zeroFrames < 2 then HardwareConfirmationPending
    else GateReady
  }

  /** The diagnosis chain reaches its last case exactly when every readiness condition holds. */
  function SnapshotOf(s: State): (r: Snapshot)
    ensures r.ready <==> r.phase.GateReady?
    ensures r.ready ==> r.gateActive && r.missionIdle
  {
    Snapshot(s.generation, s.active, s.missionIdle, s.commandApplied, s.acknowledged, s.confirmation,
             Ready(s), PhaseOf(s))
  }

  // ---------------------------------------------------------------------------------------------
  // Whole runs
  // ---------------------------------------------------------------------------------------------

  datatype Event =
    | Restore(lastGeneration: nat, activeGeneration: Option<nat>, idle: bool)
    | Request(generation: nat, idle: bool)
    | Release(generation: nat)
    | Idle(idle: bool)
    | Final(command: FinalCommand)
    | Status(status: CommandStatus)
    | Frame(hardware: Hardware)

  function OrElse(next: Option<State>, s: State): State { if next.Some? then next.value else s }

  function Step(s: State, e: Event): State {
    match e
    case Restore(last, active, idle) => OrElse(Restored(s, last, active, idle), s)
    case Request(g, idle) => OrElse(Requested(s, g, idle), s)
    case Release(g) => OrElse(Released(s, g), s)
    case Idle(idle) => MissionIdleSet(s, idle)
    case Final(c) => FinalCommandObserved(s, c)
    case Status(status) => CommandStatusObserved(s, status)
    case Frame(h) => HardwareObserved(s, h)
  }

  function After(history: seq<Event>): State {
    if history == [] then INITIAL
    else var last := |history| - 1; Step(After(history[..last]), history[last])
  }

  predicate SameOpening(s: State, s': State) {
    && s'.pristine == s.pristine && s'.active == s.active && s'.missionIdle == s.missionIdle
    && s'.generation == s.generation && s'.lastGeneration == s.lastGeneration
  }

  /** Observations never open, close or renumber the gate. */
  lemma FinalKeepsOpening(s: State, c: FinalCommand)
    ensures SameOpening(s, FinalCommandObserved(s, c))
  {
  }

  lemma StatusKeepsOpening(s: State, status: CommandStatus)
    ensures SameOpening(s, CommandStatusObserved(s, status))
  {
  }

  lemma FrameKeepsOpening(s: State, h: Hardware)
    ensures SameOpening(s, HardwareObserved(s, h))
  {
    if h.epoch != 0 {
      var s1 := SessionEntered(s, h.epoch);
      assert SameOpening(s, s1);
      assert SameOpening(s1, SampleJudged(s1, h));
      assert SameOpening(s1, SequenceSeen(s1, h.sequence));
    }
  }

  lemma ObservationsKeepOpening(s: State, e: Event)
    requires e.Final? || e.Status? || e.Frame?
    ensures SameOpening(s, Step(s, e))
  {
    match e {
      case Final(c) => FinalKeepsOpening(s, c);
      case Status(status) => StatusKeepsOpening(s, status);
      case Frame(h) => FrameKeepsOpening(s, h);
    }
  }

  // ---------------------------------------------------------------------------------------------
  // The object
  // ---------------------------------------------------------------------------------------------

  class MaintenanceGate {
    var pristine: bool
    var active: bool
    var generation: nat
    var lastGeneration: nat
    var missionIdle: bool
    var commandGateApplied: bool
    var currentCommandId: nat
    var brakeAcknowledged: bool
    var brakeFailure: BrakeFailure
    var pendingCommandStatuses: map<nat, PendingStatus>
    var hardwareSampleObserved: bool
    var hardwareFresh: bool
    var linearSpeedZero: bool
    var angularSpeedZero: bool
    var brushOff: bool
    var consecutiveZeroFrames: nat
    var publisherEpoch: Option<nat>
    var lastFrameSequence: Option<nat>

    constructor ()
      ensures View() == INITIAL
    {
      pristine, active, generation, lastGeneration, missionIdle := true, false, 0, 0, false;
      commandGateApplied, currentCommandId, brakeAcknowledged, brakeFailure := false, 0, false, NoFailure;
      pendingCommandStatuses := map[];
      hardwareSampleObserved, hardwareFresh, linearSpeedZero, angularSpeedZero := false, false, false, false;
      brushOff, consecutiveZeroFrames, publisherEpoch, lastFrameSequence := false, 0, None, None;
    }

    ghost function View(): State
      reads this
    {
      State(pristine, active, generation, lastGeneration, missionIdle, commandGateApplied, currentCommandId,
            brakeAcknowledged, brakeFailure, pendingCommandStatuses,
            Shown(), publisherEpoch, lastFrameSequence)
    }

    ghost function Shown(): Confirmation
      reads this`hardwareSampleObserved, this`hardwareFresh, this`linearSpeedZero, this`angularSpeedZero
      reads this`brushOff, this`consecutiveZeroFrames
    {
      Confirmation(hardwareSampleObserved, hardwareFresh, linearSpeedZero, angularSpeedZero, brushOff,
                   consecutiveZeroFrames)
    }

    method ResetHardwareConfirmation()
      modifies this
      ensures View() == old(View()).(confirmation := UNCONFIRMED)
    {
      SetConfirmation(UNCONFIRMED);
    }

    method ResetEvidence()
      modifies this
      ensures View() == ClearEvidence(old(View()))
    {
      commandGateApplied, currentCommandId, brakeAcknowledged, brakeFailure := false, 0, false, NoFailure;
      pendingCommandStatuses := map[];
      ResetHardwareEvidence();
    }

    method ResetHardwareEvidence()
      modifies this
      ensures View() == old(View()).(confirmation := UNCONFIRMED, publisherEpoch := None, lastSequence := None)
    {
      ResetHardwareConfirmation();
      publisherEpoch, lastFrameSequence := None, None;
    }

    method LatchBrakeFailure(failure: BrakeFailure)
      modifies this
      ensures View() == LatchFailure(old(View()), failure)
    {
      brakeFailure, brakeAcknowledged, pendingCommandStatuses := failure, false, map[];
      ResetHardwareConfirmation();
    }

    method AcknowledgeCurrentCommand()
      modifies this
      ensures View() == Acknowledge(old(View()))
    {
      if !brakeAcknowledged {
        brakeAcknowledged := true;
        ResetHardwareConfirmation();
      }
    }

    method RestorePersistentState(last: nat, activeGeneration: Option<nat>, idle: bool) returns (ok: bool)
      modifies this
      ensures ok == Restored(old(View()), last, activeGeneration, idle).Some?
      ensures View() == OrElse(Restored(old(View()), last, activeGeneration, idle), old(View()))
    {
      var invalid := activeGeneration.Some? && (last == 0 || activeGeneration.value != last);
      if !pristine || invalid {
        return false;
      }
      pristine := false;
      active := activeGeneration.Some?;
      generation := if active then activeGeneration.value else 0;
      lastGeneration := last;
      missionIdle := idle;
      ResetEvidence();
      return true;
    }

    method RequestGeneration(requested: nat, idle: bool) returns (ok: bool)
      modifies this
      ensures ok == Requested(old(View()), requested, idle).Some?
      ensures View() == OrElse(Requested(old(View()), requested, idle), old(View()))
    {
      if requested == 0 || requested <= lastGeneration {
        return false;
      }
      pristine, active, generation, lastGeneration, missionIdle := false, true, requested, requested, idle;
      ResetEvidence();
      return true;
    }

    method ReleaseGeneration(released: nat) returns (ok: bool)
      modifies this
      ensures ok == Released(old(View()), released).Some?
      ensures View() == OrElse(Released(old(View()), released), old(View()))
    {
      if !active || released != generation {
        return false;
      }
      active, generation, missionIdle := false, 0, false;
      ResetEvidence();
      return true;
    }

    method SetMissionIdle(idle: bool)
      modifies this
      ensures View() == MissionIdleSet(old(View()), idle)
    {
      if idle != missionIdle {
        pristine := false;
      }
      missionIdle := idle;
    }

    method ApplyPendingStatus(commandId: nat)
      modifies this
      ensures View() == PendingApplied(old(View()), commandId)
    {
      if commandId !in pendingCommandStatuses {
        return;
      }
      var status := pendingCommandStatuses[commandId];
      pendingCommandStatuses := pendingCommandStatuses - {commandId};
      if status.failure != NoFailure {
        LatchBrakeFailure(status.failure);
      } else if status.acknowledged {
        AcknowledgeCurrentCommand();
      }
    }

    method ObserveFinalCommand(command: FinalCommand)
      modifies this
      ensures View() == FinalCommandObserved(old(View()), command)
    {
      if !active || brakeFailure != NoFailure
         || !Matches(command.generation, command.requestId, command.source, generation)
      {
        return;
      }
      if !SafeBrake(command) {
        commandGateApplied, currentCommandId, brakeAcknowledged := false, 0, false;
        ResetHardwareConfirmation();
        return;
      }
      var changed := !commandGateApplied || command.commandId != currentCommandId;
      commandGateApplied := true;
      if changed {
        currentCommandId := command.commandId;
        brakeAcknowledged := false;
        ResetHardwareConfirmation();
      }
      ApplyPendingStatus(command.commandId);
    }

    method RememberPendingStatus(commandId: nat, acknowledged: bool, failure: BrakeFailure)
      modifies this
      ensures View() == StatusRemembered(old(View()), commandId, acknowledged, failure)
    {
      if commandId !in pendingCommandStatuses {
        if |pendingCommandStatuses| >= PENDING_STATUS_CAPACITY {
          LatchBrakeFailure(CorrelationOverflow);
          return;
        }
        pendingCommandStatuses := pendingCommandStatuses[commandId := PendingStatus(false, NoFailure)];
      }
      if failure != NoFailure {
        pendingCommandStatuses := pendingCommandStatuses[commandId := PendingStatus(false, failure)];
      } else if acknowledged && pendingCommandStatuses[commandId].failure == NoFailure {
        pendingCommandStatuses := pendingCommandStatuses[commandId := PendingStatus(true, NoFailure)];
      }
      assert pendingCommandStatuses == StatusRemembered(old(View()), commandId, acknowledged, failure).pending;
    }

    method ObserveCommandStatus(status: CommandStatus)
      modifies this
      ensures View() == CommandStatusObserved(old(View()), status)
    {
      if !active || brakeFailure != NoFailure
         || !Matches(status.generation, status.requestId, status.source, generation) || status.commandId == 0
      {
        return;
      }
      var acknowledged := AcknowledgingState(status.state);
      var failure := FailureForState(status.state);
      if !acknowledged && failure == NoFailure {
        return;
      }
      if commandGateApplied && status.commandId == currentCommandId {
        if failure != NoFailure {
          LatchBrakeFailure(failure);
        } else {
          AcknowledgeCurrentCommand();
        }
        return;
      }
      RememberPendingStatus(status.commandId, acknowledged, failure);
    }

    method SeeSequence(sequence: nat)
      modifies this`lastFrameSequence
      ensures View() == SequenceSeen(old(View()), sequence)
    {
      if NewerThan(sequence, lastFrameSequence) {
        lastFrameSequence := Some(sequence);
      }
    }

    method EnterSession(epoch: nat)
      modifies this
      ensures View() == SessionEntered(old(View()), epoch)
    {
      if publisherEpoch != Some(epoch) {
        ResetHardwareConfirmation();
        publisherEpoch, lastFrameSequence := Some(epoch), None;
      }
    }

    method SetConfirmation(c: Confirmation)
      modifies this
      ensures View() == old(View()).(confirmation := c)
    {
      hardwareSampleObserved, hardwareFresh := c.sampleObserved, c.isFresh;
      linearSpeedZero, angularSpeedZero, brushOff := c.linearZero, c.angularZero, c.brushOff;
      consecutiveZeroFrames := c.zeroFrames;
    }

    method JudgeSample(hardware: Hardware)
      modifies this
      ensures View() == SampleJudged(old(View()), hardware)
    {
      if !SafeZero(hardware) {
        SetConfirmation(Confirmation(true, hardware.isFresh && hardware.connected, hardware.xSpeed == 0,
                                     hardware.zSpeed == 0, hardware.brushSpeed == 0, 0));
        SeeSequence(hardware.sequence);
        return;
      }
      if !NewerThan(hardware.sequence, lastFrameSequence) {
        return;
      }
      SetConfirmation(Confirmation(true, true, true, true, true, Min(2, consecutiveZeroFrames + 1)));
      lastFrameSequence := Some(hardware.sequence);
    }

    method ObserveHardware(hardware: Hardware)
      modifies this
      ensures View() == HardwareObserved(old(View()), hardware)
    {
      if !active || brakeFailure != NoFailure {
        return;
      }
      if hardware.epoch == 0 {
        ResetHardwareConfirmation();
        hardwareSampleObserved := brakeAcknowledged;
        return;
      }
      if publisherEpoch.Some? && hardware.epoch < publisherEpoch.value {
        return;
      }
      EnterSession(hardware.epoch);
      if brakeAcknowledged {
        JudgeSample(hardware);
      } else {
        SeeSequence(hardware.sequence);
      }
    }

    method TakeSnapshot() returns (r: Snapshot)
      ensures r == SnapshotOf(View())
    {
      var phase :=
        if !active then Inactive
        else if brakeFailure != NoFailure then BrakeFailed(brakeFailure)
        else if !missionIdle then MissionBusy
        else if !commandGateApplied then WaitingForCommandGate
        else if !brakeAcknowledged then WaitingForBrakeAck
        else if !hardwareSampleObserved then HardwareSamplePending
        else if !hardwareFresh then HardwareNotFresh
        else if !linearSpeedZero || !angularSpeedZero then HardwareNotStopped
        else if !brushOff then BrushNotOff
        else if consecutiveZeroFrames < 2 then HardwareConfirmationPending
        else GateReady;
      var ready := active && missionIdle && commandGateApplied && brakeAcknowledged
                   && brakeFailure == NoFailure && hardwareSampleObserved && hardwareFresh
                   && linearSpeedZero && angularSpeedZero && brushOff && consecutiveZeroFrames >= 2;
      return Snapshot(generation, active, missionIdle, commandGateApplied, brakeAcknowledged,
                      Confirmation(hardwareSampleObserved, hardwareFresh, linearSpeedZero, angularSpeedZero,
                                   brushOff, consecutiveZeroFrames),
                      ready, phase);
    }
  }
}
