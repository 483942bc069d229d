/**
 End to end: the manager (runtime and durable record) and the arbiter node, joined by a network that may lose,
 duplicate, delay and reorder every message, with a manager that may crash at any moment.

 `sent` and `commands` hold every message ever published; delivering any element, any number of times and at any
 later moment, covers all network behaviours.  Command statuses and hardware samples may be anything at all.
 */
module MaintenanceProtocol {
  import opened Wrappers
  import Gate = MaintenanceGates
  import Store = MaintenanceStores
  import Runtime = MaintenanceRuntimes
  import Provenance = RuntimeProvenance
  import Epochs = PublisherEpoch
  import Arbiter = CommandArbiter
  import Runs = ArbiterRuns
  import Node = MaintenanceCoordinator

  datatype StateMessage = StateMessage(active: bool, generation: nat, publisher: Epochs.Identity)

  datatype System = System(
    durable: Store.Record, runtime: Runtime.State, publisher: Epochs.Identity, sent: set<StateMessage>,
    node: Node.Node, commands: set<Gate.FinalCommand>)

  datatype Event =
    | Restart(publisher: Epochs.Identity)
    | ManagerCall(call: Runtime.Call)
    | PublishState
    | DeliverState(message: StateMessage)
    | NodeInput(input: Node.Input)
    | PublishCommand(now: nat, commandId: nat)

  datatype Config = Config(hardwareLimits: Epochs.Limits, stateLimits: Epochs.Limits)

  function Start(durable: Store.Record, publisher: Epochs.Identity): System {
    System(durable, Runtime.INITIAL, publisher, {}, Node.INITIAL_NODE, {})
  }

  function Published(s: System): StateMessage {
    StateMessage(s.runtime.snapshot.gateActive, s.runtime.snapshot.generation, s.publisher)
  }

  /** The final command as the manager reads it off the topic. */
  function Evidence(c: Arbiter.Command, commandId: nat): Gate.FinalCommand {
    Gate.FinalCommand(c.requestId, c.requestId, commandId, c.source, c.active, c.brake, c.xSpeed, c.zSpeed, c.brushSpeed)
  }

  /** Messages are delivered only if they were published. */
  predicate Possible(s: System, e: Event) {
    match e
    case ManagerCall(call) => call.ObserveFinal? ==> call.command in s.commands
    case DeliverState(message) => message in s.sent
    case NodeInput(input) => !input.Maintenance?
    case _ => true
  }

  /** Nobody upstream sends a command under the gate's reserved name. */
  predicate NameKept(e: Event) {
    e.NodeInput? && e.input.Vehicle? ==> e.input.command.source != Gate.GATE_SOURCE
  }

  predicate Enabled(s: System, e: Event) { Possible(s, e) && NameKept(e) }

  function Step(config: Config, s: System, e: Event): System {
    match e
    case Restart(publisher) => s.(runtime := Runtime.INITIAL, publisher := publisher)
    case ManagerCall(call) =>
      var (runtime, durable, _) := Runtime.Step(config.hardwareLimits, s.runtime, s.durable, call);
      s.(runtime := runtime, durable := durable)
    case PublishState => s.(sent := s.sent + {Published(s)})
    case DeliverState(m) =>
      s.(node := Node.Step(config.stateLimits, s.node, Node.Maintenance(m.active, m.generation, m.publisher)))
    case NodeInput(input) => s.(node := Node.Step(config.stateLimits, s.node, input))
    case PublishCommand(now, commandId) =>
      s.(commands := s.commands + {Evidence(Node.NodeOutput(s.node, now), commandId)})
  }

  // ---------------------------------------------------------------------------------------------
  // The invariant
  // ---------------------------------------------------------------------------------------------

  /** A published state never claims more than the durable record ever granted. */
  ghost predicate Truthful(durable: Store.Record, active: bool, generation: nat) {
    if active then 0 < generation <= durable.lastGeneration
    else generation == 0 || Store.IsReleased(durable, generation)
  }

  ghost predicate NodeInv(s: System) {
    var gate := s.node.coordinator.gate;
    && Node.InStep(s.node)
    && (gate.hasState ==> gate.generation != 0 && Truthful(s.durable, gate.active, gate.generation))
  }

  ghost predicate GateCommand(c: Gate.FinalCommand) { c.source == Gate.GATE_SOURCE }

  /** The arbiter has acted under every generation its gate commands name. */
  ghost predicate CommandsInv(s: System) {
    forall c :: c in s.commands && GateCommand(c) ==>
      && s.node.configured.Some? && s.node.coordinator.gate.hasState
      && 0 < c.requestId <= s.node.coordinator.gate.generation
  }

  ghost predicate EvidenceInv(s: System) {
    s.runtime.gate.active && s.runtime.gate.commandApplied ==>
      exists c :: c in s.commands && GateCommand(c) && c.requestId == s.runtime.gate.generation
  }

  /** No slot holds a command sent under the gate's reserved name. */
  ghost predicate OwnNames(slots: Arbiter.Slots) {
    forall source :: Arbiter.SlotOf(slots, source).command.source != Gate.GATE_SOURCE
  }

  ghost predicate SourcesInv(s: System) {
    s.node.configured.Some? ==> OwnNames(s.node.configured.value.core.slots)
  }

  ghost predicate Inv(s: System) {
    && Runtime.Inv(s.runtime, s.durable)
    && (forall m :: m in s.sent ==> Truthful(s.durable, m.active, m.generation))
    && NodeInv(s) && CommandsInv(s) && EvidenceInv(s) && SourcesInv(s)
  }

  lemma AdvancesKeepsTruth(before: Store.Record, after: Store.Record, active: bool, generation: nat)
    requires Store.Advances(before, after) && Truthful(before, active, generation)
    ensures Truthful(after, active, generation)
  {
  }

  /** Only an observed gate command of the open generation makes the gate believe its brake is applied. */
  lemma AppliedOnlyByCommand(s: Gate.State, e: Gate.Event)
    requires Gate.Step(s, e).active && Gate.Step(s, e).commandApplied
    ensures var s' := Gate.Step(s, e);
            || (s.active && s.commandApplied && s.generation == s'.generation)
            || (e.Final? && Gate.Matches(e.command.generation, e.command.requestId, e.command.source, s'.generation))
  {
    match e {
      case Frame(h) => FrameKeepsApplied(s, h);
      case Status(status) => StatusKeepsApplied(s, status);
      case _ =>
    }
  }

  lemma StatusKeepsApplied(s: Gate.State, status: Gate.CommandStatus)
    ensures var s' := Gate.CommandStatusObserved(s, status);
            s'.active == s.active && s'.generation == s.generation && s'.commandApplied == s.commandApplied
  {
  }

  lemma FrameKeepsApplied(s: Gate.State, h: Gate.Hardware)
    ensures var s' := Gate.HardwareObserved(s, h);
            s'.active == s.active && s'.generation == s.generation && s'.commandApplied == s.commandApplied
  {
    var s1 := Gate.SessionEntered(s, h.epoch);
    assert Gate.SampleJudged(s1, h).commandApplied == s1.commandApplied;
  }

  // ---------------------------------------------------------------------------------------------
  // Every event keeps the invariant
  // ---------------------------------------------------------------------------------------------

  lemma ManagerCallKeepsInv(config: Config, s: System, call: Runtime.Call)
    requires Inv(s) && Enabled(s, ManagerCall(call))
    ensures Inv(Step(config, s, ManagerCall(call)))
    ensures Store.Advances(s.durable, Step(config, s, ManagerCall(call)).durable)
  {
    var s' := Step(config, s, ManagerCall(call));
    Runtime.StepInv(config.hardwareLimits, s.runtime, s.durable, call);
    forall m | m in s.sent ensures Truthful(s'.durable, m.active, m.generation) {
      AdvancesKeepsTruth(s.durable, s'.durable, m.active, m.generation);
    }
    var gate := s.node.coordinator.gate;
    if gate.hasState {
      AdvancesKeepsTruth(s.durable, s'.durable, gate.active, gate.generation);
    }
    CallKeepsEvidence(config, s, call);
  }

  lemma CallKeepsEvidence(config: Config, s: System, call: Runtime.Call)
    requires Runtime.Inv(s.runtime, s.durable) && EvidenceInv(s) && Enabled(s, ManagerCall(call))
    ensures EvidenceInv(Step(config, s, ManagerCall(call)))
  {
    var gate' := Step(config, s, ManagerCall(call)).runtime.gate;
    Provenance.CallFeeds(config.hardwareLimits, s.runtime, s.durable, call);
    var e := Provenance.Fed(config.hardwareLimits, s.runtime, s.durable, call);
    if e.Some? && gate'.active && gate'.commandApplied {
      AppliedOnlyByCommand(s.runtime.gate, e.value);
      if e.value.Final? {
        assert call == Runtime.ObserveFinal(e.value.command);
      }
    }
  }

  /** An input leaves the command of a slot alone or replaces it by its own. */
  lemma SlotCommandOrigin(c: Arbiter.Core, e: Runs.Input, source: Arbiter.Source)
    requires c.gate.hasState || c.gate == Arbiter.NO_CACHE
    ensures var command := Arbiter.SlotOf(Runs.Step(c, e).slots, source).command;
            command == Arbiter.SlotOf(c.slots, source).command || (e.Update? && command == e.command)
  {
    if e.Maintenance? {
      Arbiter.MaintenanceWipesOrKeeps(c, e.active, e.generation);
    }
  }

  lemma CoreKeepsOwnNames(c: Arbiter.Core, e: Runs.Input)
    requires OwnNames(c.slots) && (c.gate.hasState || c.gate == Arbiter.NO_CACHE)
    requires e.Update? ==> e.command.source != Gate.GATE_SOURCE
    ensures OwnNames(Runs.Step(c, e).slots)
  {
    forall source ensures Arbiter.SlotOf(Runs.Step(c, e).slots, source).command.source != Gate.GATE_SOURCE {
      SlotCommandOrigin(c, e, source);
    }
  }

  /** Accepted maintenance messages never take the node back to an earlier generation. */
  lemma DeliverKeepsInv(config: Config, s: System, m: StateMessage)
    requires Inv(s) && m in s.sent
    ensures Inv(Step(config, s, DeliverState(m)))
  {
    Node.AcceptedMeansHeld(config.stateLimits, s.node.coordinator, m.active, m.generation, m.publisher);
    Node.StepKeepsInStep(config.stateLimits, s.node, Node.Maintenance(m.active, m.generation, m.publisher));
    NodeStepGrows(config, s.node, Node.Maintenance(m.active, m.generation, m.publisher));
    if s.node.configured.Some? {
      CoreKeepsOwnNames(s.node.configured.value.core, Runs.Maintenance(m.active, m.generation));
    }
  }

  /** Nothing takes the node back: once it holds a state its generation only grows, and it stays configured. */
  lemma NodeStepGrows(config: Config, n: Node.Node, e: Node.Input)
    requires Node.InStep(n)
    ensures var n' := Node.Step(config.stateLimits, n, e);
            && (n.configured.Some? ==> n'.configured.Some?)
            && (n.coordinator.gate.hasState ==>
                  n'.coordinator.gate.hasState && n.coordinator.gate.generation <= n'.coordinator.gate.generation)
            && (!e.Maintenance? ==> n'.coordinator == n.coordinator)
  {
    if e.Maintenance? {
      Node.AcceptedMeansHeld(config.stateLimits, n.coordinator, e.active, e.generation, e.publisher);
    }
  }

  lemma NodeInputKeepsInv(config: Config, s: System, input: Node.Input)
    requires Inv(s) && Enabled(s, NodeInput(input))
    ensures Inv(Step(config, s, NodeInput(input)))
  {
    Node.StepKeepsInStep(config.stateLimits, s.node, input);
    NodeStepGrows(config, s.node, input);
    match input {
      case Vehicle(source, command, at) =>
        if s.node.configured.Some? {
          CoreKeepsOwnNames(s.node.configured.value.core, Runs.Update(source, command, at));
        }
      case Brush(_, _, _) =>
      case Configure(_, _) =>
        CoreKeepsOwnNames(Arbiter.INITIAL_CORE, Runs.Maintenance(s.node.cached.0, s.node.cached.1));
    }
  }

  /** What the node publishes under the gate's name, it publishes for the generation it holds. */
  lemma GateNameMeansHeld(s: System, now: nat)
    requires NodeInv(s) && SourcesInv(s)
    requires Node.NodeOutput(s.node, now).source == Gate.GATE_SOURCE
    ensures s.node.configured.Some? && s.node.coordinator.gate.active
    ensures Node.NodeOutput(s.node, now) == Arbiter.MaintenanceOutput(s.node.coordinator.gate.generation)
  {
    var configured := s.node.configured.value;
    Arbiter.ReservedSourceExactly(configured.parameters, configured.core, now);
  }

  lemma PublishCommandKeepsInv(config: Config, s: System, now: nat, commandId: nat)
    requires Inv(s)
    ensures Inv(Step(config, s, PublishCommand(now, commandId)))
  {
    if Node.NodeOutput(s.node, now).source == Gate.GATE_SOURCE {
      GateNameMeansHeld(s, now);
    }
  }

  lemma StepKeepsInv(config: Config, s: System, e: Event)
    requires Inv(s) && Enabled(s, e)
    ensures Inv(Step(config, s, e)) && Store.Advances(s.durable, Step(config, s, e).durable)
  {
    match e {
      case Restart(_) => Runtime.InitialInv(s.durable);
      case ManagerCall(call) => ManagerCallKeepsInv(config, s, call);
      case PublishState =>
      case DeliverState(m) => DeliverKeepsInv(config, s, m);
      case NodeInput(input) => NodeInputKeepsInv(config, s, input);
      case PublishCommand(now, commandId) => PublishCommandKeepsInv(config, s, now, commandId);
    }
  }

  // ---------------------------------------------------------------------------------------------
  // Whole runs
  // ---------------------------------------------------------------------------------------------

  function After(config: Config, start: System, events: seq<Event>): System {
    if events == [] then start
    else var last := |events| - 1; Step(config, After(config, start, events[..last]), events[last])
  }

  /** Every event was possible when it happened. */
  ghost predicate PossibleRun(config: Config, start: System, events: seq<Event>) {
    forall i :: 0 <= i < |events| ==> Possible(After(config, start, events[..i]), events[i])
  }

  /** A possible run in which the reserved name stays the gate's own. */
  ghost predicate Run(config: Config, start: System, events: seq<Event>) {
    PossibleRun(config, start, events) && forall i :: 0 <= i < |events| ==> NameKept(events[i])
  }

  ghost predicate Starts(start: System) {
    Store.ValidRecord(start.durable) && start == Start(start.durable, start.publisher)
  }

  lemma RunPrefix(config: Config, start: System, events: seq<Event>, i: nat)
    requires Run(config, start, events) && i <= |events|
    ensures Run(config, start, events[..i])
  {
    forall k | 0 <= k < i ensures Possible(After(config, start, events[..i][..k]), events[..i][k]) {
      assert events[..i][..k] == events[..k];
    }
  }

  lemma {:induction false} RunKeepsInv(config: Config, start: System, events: seq<Event>)
    requires Starts(start) && Run(config, start, events)
    ensures Inv(After(config, start, events))
  {
    if events == [] {
      Runtime.InitialInv(start.durable);
    } else {
      var last := |events| - 1;
      RunPrefix(config, start, events, last);
      RunKeepsInv(config, start, events[..last]);
      StepKeepsInv(config, After(config, start, events[..last]), events[last]);
    }
  }

  /** Between two moments of a run the durable record advances and the node goes nowhere but forward. */
  ghost predicate Forward(s: System, s': System) {
    && s.durable.lastGeneration <= s'.durable.lastGeneration
    && (forall g :: Store.IsReleased(s.durable, g) ==> Store.IsReleased(s'.durable, g))
    && (s.node.configured.Some? ==> s'.node.configured.Some?)
    && (s.node.coordinator.gate.hasState ==>
          && s'.node.coordinator.gate.hasState
          && s.node.coordinator.gate.generation <= s'.node.coordinator.gate.generation)
  }

  lemma StepIsForward(config: Config, s: System, e: Event)
    requires Inv(s) && Enabled(s, e)
    ensures Forward(s, Step(config, s, e))
  {
    StepKeepsInv(config, s, e);
    match e {
      case DeliverState(m) => NodeStepGrows(config, s.node, Node.Maintenance(m.active, m.generation, m.publisher));
      case NodeInput(input) => NodeStepGrows(config, s.node, input);
      case _ =>
    }
  }

  lemma {:induction false} RunIsForward(config: Config, start: System, events: seq<Event>, i: nat)
    requires Starts(start) && Run(config, start, events) && i <= |events|
    ensures Forward(After(config, start, events[..i]), After(config, start, events))
  {
    if i == |events| {
      assert events[..i] == events;
    } else {
      var last := |events| - 1;
      RunPrefix(config, start, events, last);
      assert events[..last][..i] == events[..i];
      RunIsForward(config, start, events[..last], i);
      RunKeepsInv(config, start, events[..last]);
      StepIsForward(config, After(config, start, events[..last]), events[last]);
    }
  }

  // ---------------------------------------------------------------------------------------------
  // Theorems
  // ---------------------------------------------------------------------------------------------

  /** The vehicle is held for `g`: whatever the time, the arbiter commands the zero-speed brake of `g`. */
  ghost predicate Held(s: System, g: nat) {
    && s.node.configured.Some?
    && s.node.configured.value.core.gate == Arbiter.Cache(true, true, g)
    && forall now :: Node.NodeOutput(s.node, now) == Arbiter.MaintenanceOutput(g)
  }

  /** A node that has ever reached generation `g` holds it for as long as the durable record does. */
  lemma ReachedMeansHeld(s: System, g: nat)
    requires Inv(s) && s.node.configured.Some? && s.node.coordinator.gate.hasState
    requires 0 < g <= s.node.coordinator.gate.generation && g <= s.durable.lastGeneration
    requires !Store.IsReleased(s.durable, g)
    ensures Held(s, g)
  {
    assert s.durable.lastGeneration == g;
  }

  lemma ReadyMeansReached(s: System)
    requires Inv(s) && s.runtime.snapshot.ready
    ensures var g := s.runtime.snapshot.generation;
            && s.durable.inhibitor.Some? && s.durable.inhibitor.value.generation == g
            && s.node.configured.Some? && s.node.coordinator.gate.hasState
            && 0 < g <= s.node.coordinator.gate.generation
  {
    assert Gate.Ready(s.runtime.gate);
    var c :| c in s.commands && GateCommand(c) && c.requestId == s.runtime.gate.generation;
  }

  /**
   End to end.  Over every run, with messages lost, duplicated, delayed and reordered and the manager restarted at
   any moment: once the manager has shown "ready" for `g`, the arbiter core holds `g` and everything the vehicle is
   told is the brake of `g`, at that moment and at every later one until the release of `g` is in the durable record.
   */
  lemma ReadyHoldsTheVehicle(config: Config, start: System, events: seq<Event>, i: nat)
    requires Starts(start) && Run(config, start, events) && i <= |events|
    requires After(config, start, events[..i]).runtime.snapshot.ready
    ensures var g := After(config, start, events[..i]).runtime.snapshot.generation;
            && Held(After(config, start, events[..i]), g)
            && (!Store.IsReleased(After(config, start, events).durable, g) ==> Held(After(config, start, events), g))
  {
    var s, s' := After(config, start, events[..i]), After(config, start, events);
    RunPrefix(config, start, events, i);
    RunKeepsInv(config, start, events[..i]);
    RunKeepsInv(config, start, events);
    RunIsForward(config, start, events, i);
    ReadyMeansReached(s);
    ReachedMeansHeld(s, s.runtime.snapshot.generation);
    if !Store.IsReleased(s'.durable, s.runtime.snapshot.generation) {
      ReachedMeansHeld(s', s.runtime.snapshot.generation);
    }
  }

  /**
   No generation is ever active twice: after the release of `g` has been committed, no later moment of the run
   has `g` in the durable record again or shows "ready" for it.
   */
  lemma ReleasedForGood(config: Config, start: System, events: seq<Event>, i: nat, g: nat)
    requires Starts(start) && Run(config, start, events) && i <= |events|
    requires Store.IsReleased(After(config, start, events[..i]).durable, g)
    ensures var s := After(config, start, events);
            && Store.IsReleased(s.durable, g)
            && !(s.runtime.snapshot.ready && s.runtime.snapshot.generation == g)
  {
    RunIsForward(config, start, events, i);
    RunKeepsInv(config, start, events);
    if After(config, start, events).runtime.snapshot.ready {
      ReadyMeansReached(After(config, start, events));
    }
  }
}
