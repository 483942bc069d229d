/**
 The command arbiter: it selects the one command the vehicle obeys.  A maintenance gate overrides
 everything, then the software stop latch, then the fixed order of sources.
 */
module CommandArbiter {
  import opened Wrappers
  import opened MaintenanceGates

  datatype Source = Emergency | Safety | Manual | Mission | Vision

  predicate OperatorSource(source: Source) {
    source.Manual? || source.Mission? || source.Vision?
  }

  /** How long a command of each operator source stays valid; 0 means for ever. */
  datatype Parameters = Parameters(manualLease: nat, missionLease: nat, visionLease: nat)

  function Lease(parameters: Parameters, source: Source): nat {
    match source
    case Emergency => 0
    case Safety => 0
    case Manual => parameters.manualLease
    case Mission => parameters.missionLease
    case Vision => parameters.visionLease
  }

  datatype Command = Command(
    stamp: nat, commandId: nat, requestId: nat, source: string, priority: nat, active: bool,
    operatorIntent: bool, status: nat, xSpeed: int, zSpeed: int, steeringOffset: int, brushSpeed: int,
    targetDistance: int, targetRotation: int, heading: real, brake: bool, charge: bool)

  const NO_COMMAND :=
    Command(0, 0, 0, "", 0, false, false, 0, 0, 0, 0, 0, 0, 0, 0.0, false, false)

  datatype Slot = Slot(command: Command, receivedAt: nat, present: bool)

  const EMPTY_SLOT := Slot(NO_COMMAND, 0, false)

  // ---------------------------------------------------------------------------------------------
  // The maintenance state the arbiter holds
  // ---------------------------------------------------------------------------------------------

  datatype Cache = Cache(hasState: bool, active: bool, generation: nat)

  const NO_CACHE := Cache(false, false, 0)

  function CacheUpdated(c: Cache, active: bool, generation: nat): (Cache, bool) {
    if generation == 0 then (c, false)
    else if active then
      if c.hasState && c.active && generation == c.generation then (c, true)
      else if c.hasState && generation <= c.generation then (c, false)
      else (Cache(true, true, generation), true)
    else if !c.hasState || !c.active || generation != c.generation then (c, false)
    else (c.(active := false), true)
  }

  class MaintenanceGateCache {
    var hasState: bool
    var active: bool
    var generation: nat

    constructor ()
      ensures View() == NO_CACHE
    {
      hasState, active, generation := false, false, 0;
    }

    constructor Clone(other: MaintenanceGateCache)
      ensures View() == other.View()
    {
      hasState, active, generation := other.hasState, other.active, other.generation;
    }

    ghost function View(): Cache
      reads this
    {
      Cache(hasState, active, generation)
    }

    method Update(activate: bool, newGeneration: nat) returns (accepted: bool)
      modifies this
      ensures (View(), accepted) == CacheUpdated(old(View()), activate, newGeneration)
    {
      if newGeneration == 0 {
        return false;
      }
      if activate {
        if hasState && active && newGeneration == generation {
          return true;
        }
        if hasState && newGeneration <= generation {
          return false;
        }
        hasState, active, generation := true, true, newGeneration;
        return true;
      }
      if !hasState || !active || newGeneration != generation {
        return false;
      }
      active := false;
      return true;
    }
  }

  // ---------------------------------------------------------------------------------------------
  // The core
  // ---------------------------------------------------------------------------------------------

  datatype Slots = Slots(emergency: Slot, safety: Slot, manual: Slot, mission: Slot, vision: Slot)

  const EMPTY_SLOTS := Slots(EMPTY_SLOT, EMPTY_SLOT, EMPTY_SLOT, EMPTY_SLOT, EMPTY_SLOT)

  datatype Core = Core(
    slots: Slots, stopped: bool, stopId: nat, stopStamp: nat,
    operatorMode: Option<Source>, brushEnabled: bool, brushSpeed: int, gate: Cache)

  const INITIAL_CORE := Core(EMPTY_SLOTS, false, 0, 0, None, false, 0, NO_CACHE)

  function SlotOf(slots: Slots, source: Source): Slot {
    match source
    case Emergency => slots.emergency
    case Safety => slots.safety
    case Manual => slots.manual
    case Mission => slots.mission
    case Vision => slots.vision
  }

  function WithSlot(slots: Slots, source: Source, slot: Slot): Slots {
    match source
    case Emergency => slots.(emergency := slot)
    case Safety => slots.(safety := slot)
    case Manual => slots.(manual := slot)
    case Mission => slots.(mission := slot)
    case Vision => slots.(vision := slot)
  }

  function Absent(slot: Slot): Slot { slot.(present := false) }

  function OperatorsCleared(slots: Slots): Slots {
    slots.(manual := Absent(slots.manual), mission := Absent(slots.mission), vision := Absent(slots.vision))
  }

  function AllCleared(slots: Slots): Slots {
    OperatorsCleared(slots).(emergency := Absent(slots.emergency), safety := Absent(slots.safety))
  }

  predicate EmergencyStop(source: Source, command: Command) {
    source.Emergency? && command.active && command.brake
  }

  /** The command is newer than the stop boundary: by stamp when both sides have one, else by id. */
  predicate NewerThanStop(command: Command, stopId: nat, stopStamp: nat) {
    if stopStamp != 0 && command.stamp != 0 then command.stamp > stopStamp
    else command.commandId != 0 && command.commandId > stopId
  }

  function StopLatched(c: Core, command: Command): Core {
    c.(stopId := Max(c.stopId, command.commandId), stopStamp := Max(c.stopStamp, command.stamp), stopped := true,
       brushEnabled := false, brushSpeed := 0, operatorMode := None, slots := AllCleared(c.slots))
  }

  function OperatorTakesOver(c: Core, source: Source): Core {
    c.(stopped := false, slots := OperatorsCleared(c.slots), operatorMode := Some(source))
  }

  function Updated(c: Core, source: Source, command: Command, now: nat): (Core, bool) {
    if EmergencyStop(source, command) then (StopLatched(c, command), true)
    else if c.gate.active then (c, false)
    else if !command.active then (c.(slots := WithSlot(c.slots, source, Absent(SlotOf(c.slots, source)))), true)
    else if c.stopped && !(OperatorSource(source) && command.operatorIntent
                           && NewerThanStop(command, c.stopId, c.stopStamp))
    then (c, false)
    else if !c.stopped && OperatorSource(source) && !command.operatorIntent
            && c.operatorMode.Some? && c.operatorMode.value != source
    then (c, false)
    else
      var c1 := if OperatorSource(source) && command.operatorIntent then OperatorTakesOver(c, source) else c;
      (c1.(slots := WithSlot(c1.slots, source, Slot(command, now, true))), true)
  }

  function BrushSet(c: Core, enabled: bool, speed: int, operatorIntent: bool): Core {
    if c.gate.active || (!operatorIntent && c.stopped) then c
    else c.(brushEnabled := enabled, brushSpeed := if enabled then Max(-100, Min(100, speed)) else 0)
  }

  function MaintenanceSet(c: Core, active: bool, generation: nat): (Core, bool) {
    var changed := active != c.gate.active || generation != c.gate.generation;
    var (gate, accepted) := CacheUpdated(c.gate, active, generation);
    if !accepted then (c, false)
    else if !changed then (c.(gate := gate), true)
    else
      (c.(gate := gate, slots := AllCleared(c.slots), operatorMode := None,
          brushEnabled := false, brushSpeed := 0),
       true)
  }

  /**
   Generations are counted from one. Maintenance is entered with a generation newer than any before, repeated with the
   one it is in, and left with that alone; any other message is refused and changes nothing.
   */
  lemma MaintenanceAcceptedExactlyWhen(c: Core, active: bool, generation: nat)
    requires c.gate.hasState || c.gate == NO_CACHE
    ensures
      var (c', accepted) := MaintenanceSet(c, active, generation);
      var current := c.gate.active && generation == c.gate.generation;
      && (accepted <==> generation > 0 && (current || (active && generation > c.gate.generation)))
      && (accepted ==> c'.gate == Cache(true, active, generation))
      && (!accepted ==> c' == c)
  {
  }

  /** A maintenance message either leaves the core alone or moves the gate and wipes every input. */
  lemma MaintenanceWipesOrKeeps(c: Core, active: bool, generation: nat)
    requires c.gate.hasState || c.gate == NO_CACHE
    ensures var c' := MaintenanceSet(c, active, generation).0;
            && c'.gate.hasState == (c.gate.hasState || c'.gate != c.gate)
            && if c'.gate == c.gate then c' == c
            else c' == c.(gate := c'.gate, slots := AllCleared(c.slots), operatorMode := None, brushEnabled := false,
                          brushSpeed := 0)
  {
  }

  predicate SlotActive(slot: Slot, lease: nat, now: nat) {
    && slot.present && slot.command.active
    && (lease == 0 || now < slot.receivedAt || now - slot.receivedAt <= lease)
  }

  function Braking(source: string, priority: nat): Command {
    NO_COMMAND.(source := source, priority := priority, active := true, brake := true)
  }

  function MaintenanceOutput(generation: nat): Command {
    Braking(GATE_SOURCE, 80).(requestId := generation)
  }

  predicate Live(p: Parameters, c: Core, source: Source, now: nat) {
    SlotActive(SlotOf(c.slots, source), Lease(p, source), now)
  }

  /** The first source, in the fixed order, whose command is still valid. */
  function Selected(p: Parameters, c: Core, now: nat): (r: Option<Source>)
    ensures r.Some? ==> Live(p, c, r.value, now)
    ensures r.None? ==> forall source :: !Live(p, c, source, now)
  {
    if Live(p, c, Emergency, now) then Some(Emergency)
    else if Live(p, c, Safety, now) then Some(Safety)
    else if Live(p, c, Manual, now) then Some(Manual)
    else if Live(p, c, Mission, now) then Some(Mission)
    else if Live(p, c, Vision, now) then Some(Vision)
    else None
  }

  /** Nothing moves and the brush is off. */
  predicate StandsStill(c: Command) {
    && c.xSpeed == 0 && c.zSpeed == 0 && c.steeringOffset == 0
    && c.targetDistance == 0 && c.targetRotation == 0 && c.brushSpeed == 0
  }

  predicate Moves(c: Command) {
    c.xSpeed != 0 || c.zSpeed != 0 || c.steeringOffset != 0 || c.targetDistance != 0 || c.targetRotation != 0
  }

  function Output(p: Parameters, c: Core, now: nat): (r: Command)
    ensures r.brake ==> StandsStill(r)
    ensures r.active
  {
    if c.gate.active then MaintenanceOutput(c.gate.generation)
    else if c.stopped then Braking("software_emergency_stop", 100)
    else
      var selected := Selected(p, c, now);
      if selected.None? then
        if c.brushEnabled then NO_COMMAND.(source := "brush_only", active := true, brushSpeed := c.brushSpeed)
        else Braking("idle_brake", 0)
      else
        var command := SlotOf(c.slots, selected.value).command;
        if command.brake then
          command.(xSpeed := 0, zSpeed := 0, steeringOffset := 0, targetDistance := 0, targetRotation := 0,
                   brushSpeed := 0)
        else command.(brushSpeed := if c.brushEnabled then c.brushSpeed else 0)
  }

  /** `a` goes before `b` in the fixed order: emergency, safety, manual, mission, vision. */
  predicate Outranks(a: Source, b: Source) {
    match a
    case Emergency => !b.Emergency?
    case Safety => OperatorSource(b)
    case Manual => b.Mission? || b.Vision?
    case Mission => b.Vision?
    case Vision => false
  }

  /** Without gate and stop, the one live source that no live source outranks is obeyed, brush aside. */
  lemma HighestLiveSourceIsObeyed(p: Parameters, c: Core, now: nat, source: Source)
    requires !c.gate.active && !c.stopped && Live(p, c, source, now)
    requires forall other :: Outranks(other, source) ==> !Live(p, c, other, now)
    ensures
      var command, r := SlotOf(c.slots, source).command, Output(p, c, now);
      if command.brake then r.source == command.source && r.brake && StandsStill(r)
      else r == command.(brushSpeed := if c.brushEnabled then c.brushSpeed else 0)
  {
    assert Outranks(Emergency, source) || source == Emergency;
    assert Selected(p, c, now) == Some(source);
  }

  /** Nobody else moves the vehicle: with no live source it brakes, or stands and brushes. */
  lemma NobodyLiveStandsStill(p: Parameters, c: Core, now: nat)
    requires forall source :: !Live(p, c, source, now)
    ensures var r := Output(p, c, now); !Moves(r) && (!c.brushEnabled || c.gate.active || c.stopped ==> r.brake)
  {
  }

  /** A live safety brake stops the vehicle, whatever the operators, the brush, the gate and the stop say. */
  lemma LiveSafetyBrakeStops(p: Parameters, c: Core, now: nat)
    requires Live(p, c, Safety, now) && c.slots.safety.command.brake && !Live(p, c, Emergency, now)
    ensures Output(p, c, now).brake && StandsStill(Output(p, c, now))
  {
    if !c.gate.active && !c.stopped {
      HighestLiveSourceIsObeyed(p, c, now, Safety);
    }
  }

  /** While the gate is active no input, stop or lease can change what the vehicle is told. */
  lemma GateForcesTheBrake(p: Parameters, c: Core, now: nat)
    requires c.gate.active
    ensures var r := Output(p, c, now);
            && r.source == GATE_SOURCE && r.requestId == c.gate.generation && r.priority == 80
            && r.brake && StandsStill(r)
    ensures forall source, command, at ::
              var (c', accepted) := Updated(c, source, command, at);
              c'.gate == c.gate && (accepted ==> EmergencyStop(source, command) && c'.stopped)
  {
  }

  /**
   An output carries the gate's reserved source name exactly when the gate is active or the selected command
   was itself sent under that name.
   */
  lemma ReservedSourceExactly(p: Parameters, c: Core, now: nat)
    ensures Output(p, c, now).source == GATE_SOURCE
            <==> || c.gate.active
                 || (!c.stopped && Selected(p, c, now).Some?
                     && SlotOf(c.slots, Selected(p, c, now).value).command.source == GATE_SOURCE)
  {
  }

  /** Nothing in the core rejects such a command: here one brake under the reserved name looks like the gate's. */
  lemma ReservedSourceIsNotRejected(p: Parameters, now: nat, g: nat)
    ensures var command := Braking(GATE_SOURCE, 80).(requestId := g);
            var (c, accepted) := Updated(INITIAL_CORE, Manual, command, now);
            accepted && !c.gate.active && Output(p, c, now) == MaintenanceOutput(g)
  {
    var command := Braking(GATE_SOURCE, 80).(requestId := g);
    var (c, accepted) := Updated(INITIAL_CORE, Manual, command, now);
    assert SlotOf(c.slots, Manual) == Slot(command, now, true);
    assert Selected(p, c, now) == Some(Manual);
  }

  class CommandArbiterCore {
    const parameters: Parameters
    const maintenanceGate: MaintenanceGateCache
    var emergency: Slot
    var safety: Slot
    var manual: Slot
    var mission: Slot
    var vision: Slot
    var softwareStopped: bool
    var stopBoundaryCommandId: nat
    var stopBoundaryStamp: nat
    var operatorMode: Option<Source>
    var brushEnabled: bool
    var brushSpeed: int

    constructor (parameters: Parameters)
      ensures this.parameters == parameters && fresh(maintenanceGate)
      ensures View() == INITIAL_CORE
    {
      this.parameters := parameters;
      maintenanceGate := new MaintenanceGateCache();
      emergency, safety, manual, mission, vision := EMPTY_SLOT, EMPTY_SLOT, EMPTY_SLOT, EMPTY_SLOT, EMPTY_SLOT;
      softwareStopped, stopBoundaryCommandId, stopBoundaryStamp := false, 0, 0;
      operatorMode, brushEnabled, brushSpeed := None, false, 0;
    }

    ghost function View(): Core
      reads this, maintenanceGate
    {
      Core(Slots(emergency, safety, manual, mission, vision), softwareStopped, stopBoundaryCommandId,
           stopBoundaryStamp, operatorMode, brushEnabled, brushSpeed, maintenanceGate.View())
    }

    method ClearOperatorSlots()
      modifies this
      ensures View() == old(View()).(slots := OperatorsCleared(old(View()).slots))
    {
      manual, mission, vision := manual.(present := false), mission.(present := false), vision.(present := false);
    }

    method ClearAllSlots()
      modifies this
      ensures View() == old(View()).(slots := AllCleared(old(View()).slots))
    {
      emergency, safety := emergency.(present := false), safety.(present := false);
      ClearOperatorSlots();
    }

    method GetSlot(source: Source) returns (r: Slot)
      ensures r == SlotOf(View().slots, source)
    {
      match source {
        case Emergency => return emergency;
        case Safety => return safety;
        case Manual => return manual;
        case Mission => return mission;
        case Vision => return vision;
      }
    }

    method SetSlot(source: Source, slot: Slot)
      modifies this
      ensures View() == old(View()).(slots := WithSlot(old(View()).slots, source, slot))
    {
      match source {
        case Emergency => emergency := slot;
        case Safety => safety := slot;
        case Manual => manual := slot;
        case Mission => mission := slot;
        case Vision => vision := slot;
      }
    }

    method LatchStop(command: Command)
      modifies this
      ensures View() == StopLatched(old(View()), command)
    {
      stopBoundaryCommandId := Max(stopBoundaryCommandId, command.commandId);
      stopBoundaryStamp := Max(stopBoundaryStamp, command.stamp);
      softwareStopped, brushEnabled, brushSpeed, operatorMode := true, false, 0, None;
      ClearAllSlots();
    }

    method TakeOver(source: Source)
      modifies this
      ensures View() == OperatorTakesOver(old(View()), source)
    {
      softwareStopped, operatorMode := false, Some(source);
      ClearOperatorSlots();
    }

    method Update(source: Source, command: Command, now: nat) returns (accepted: bool)
      modifies this
      ensures (View(), accepted) == Updated(old(View()), source, command, now)
    {
      if source == Emergency && command.active && command.brake {
        LatchStop(command);
        return true;
      }
      if maintenanceGate.active {
        return false;
      }
      if !command.active {
        var destination := GetSlot(source);
        SetSlot(source, destination.(present := false));
        return true;
      }
      var operatorSource := source == Manual || source == Mission || source == Vision;
      if softwareStopped {
        if !operatorSource || !command.operatorIntent
           || !NewerThanStop(command, stopBoundaryCommandId, stopBoundaryStamp)
        {
          return false;
        }
        TakeOver(source);
      } else if operatorSource {
        if command.operatorIntent {
          TakeOver(source);
        } else if operatorMode.Some? && source != operatorMode.value {
          return false;
        }
      }
      SetSlot(source, Slot(command, now, true));
      return true;
    }

    method SetBrush(enabled: bool, speed: int, operatorIntent: bool)
      modifies this
      ensures View() == BrushSet(old(View()), enabled, speed, operatorIntent)
    {
      if maintenanceGate.active {
        return;
      }
      if !operatorIntent && softwareStopped {
        return;
      }
      brushEnabled := enabled;
      brushSpeed := if enabled then Max(-100, Min(100, speed)) else 0;
    }

    method SetMaintenance(active: bool, generation: nat) returns (accepted: bool)
      modifies this, maintenanceGate
      ensures (View(), accepted) == MaintenanceSet(old(View()), active, generation)
    {
      var stateChanged := active != maintenanceGate.active || generation != maintenanceGate.generation;
      accepted := maintenanceGate.Update(active, generation);
      if accepted && stateChanged {
        ClearAllSlots();
        operatorMode, brushEnabled, brushSpeed := None, false, 0;
      }
    }

    method ComputeOutput(now: nat) returns (r: Command)
      ensures r == Output(parameters, View(), now)
    {
      if maintenanceGate.active {
        return MaintenanceOutput(maintenanceGate.generation);
      }
      if softwareStopped {
        return Braking("software_emergency_stop", 100);
      }
      var selected: Slot;
      if SlotActive(emergency, 0, now) {
        selected := emergency;
      } else if SlotActive(safety, 0, now) {
        selected := safety;
      } else if SlotActive(manual, parameters.manualLease, now) {
        selected := manual;
      } else if SlotActive(mission, parameters.missionLease, now) {
        selected := mission;
      } else if SlotActive(vision, parameters.visionLease, now) {
        selected := vision;
      } else if brushEnabled {
        return NO_COMMAND.(source := "brush_only", active := true, brushSpeed := brushSpeed);
      } else {
        return Braking("idle_brake", 0);
      }
      r := selected.command;
      if r.brake {
        r := r.(xSpeed := 0, zSpeed := 0, steeringOffset := 0, targetDistance := 0, targetRotation := 0,
                brushSpeed := 0);
      } else {
        r := r.(brushSpeed := if brushEnabled then brushSpeed else 0);
      }
    }
  }
}
