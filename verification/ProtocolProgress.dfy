/**
 What the protocol can reach: an undisturbed request does become "ready", and so does one that the arbiter never
 heard of when an upstream command carries the gate's reserved name.
 */
module ProtocolProgress {
  import opened Wrappers
  import opened MaintenanceProtocol
  import Gate = MaintenanceGates
  import Store = MaintenanceStores
  import Runtime = MaintenanceRuntimes
  import Epochs = PublisherEpoch
  import Arbiter = CommandArbiter
  import Node = MaintenanceCoordinator

  /** `s` is where some possible run ends; with `kept`, one in which the reserved name stays the gate's own. */
  ghost predicate Reachable(config: Config, start: System, kept: bool, s: System) {
    exists events ::
      && PossibleRun(config, start, events) && (kept ==> Run(config, start, events))
      && After(config, start, events) == s
  }

  lemma StartReachable(config: Config, start: System, kept: bool)
    ensures Reachable(config, start, kept, start)
  {
    assert After(config, start, []) == start;
  }

  lemma RunExtends(config: Config, start: System, events: seq<Event>, e: Event)
    requires PossibleRun(config, start, events) && Possible(After(config, start, events), e)
    ensures PossibleRun(config, start, events + [e])
  {
    var longer := events + [e];
    forall i | 0 <= i < |longer| ensures Possible(After(config, start, longer[..i]), longer[i]) {
      assert longer[..i] == events[..i];
      assert i == |events| ==> events[..i] == events;
    }
  }

  lemma Next(config: Config, start: System, kept: bool, s: System, e: Event)
    requires Reachable(config, start, kept, s) && Possible(s, e) && (kept ==> NameKept(e))
    ensures Reachable(config, start, kept, Step(config, s, e))
  {
    var events :| && PossibleRun(config, start, events) && (kept ==> Run(config, start, events))
                  && After(config, start, events) == s;
    RunExtends(config, start, events, e);
    assert (events + [e])[..|events|] == events;
    assert PossibleRun(config, start, events + [e]) && After(config, start, events + [e]) == Step(config, s, e);
  }

  lemma Call(config: Config, start: System, kept: bool, s: System, call: Runtime.Call)
    requires Reachable(config, start, kept, s) && (call.ObserveFinal? ==> call.command in s.commands)
    ensures var (runtime, durable, _) := Runtime.Step(config.hardwareLimits, s.runtime, s.durable, call);
            Reachable(config, start, kept, s.(runtime := runtime, durable := durable))
  {
    Next(config, start, kept, s, ManagerCall(call));
  }

  /** A call whose effect is known. */
  lemma CallTo(config: Config, start: System, kept: bool, s: System, call: Runtime.Call, runtime: Runtime.State)
    requires Reachable(config, start, kept, s) && (call.ObserveFinal? ==> call.command in s.commands)
    requires (runtime, s.durable, true) == Runtime.Step(config.hardwareLimits, s.runtime, s.durable, call)
    ensures Reachable(config, start, kept, s.(runtime := runtime))
  {
    Call(config, start, kept, s, call);
    assert s.(runtime := runtime, durable := s.durable) == s.(runtime := runtime);
  }

  function Acknowledgement(g: nat, commandId: nat): Gate.CommandStatus {
    Gate.CommandStatus(g, g, commandId, Gate.GATE_SOURCE, Gate.STATE_ACKNOWLEDGED)
  }

  function Standstill(sequence: nat): Runtime.Sample { Runtime.Sample(sequence, true, 0, 0, 0) }

  predicate ShowsReady(s: System, g: nat) { s.runtime.snapshot.ready && s.runtime.snapshot.generation == g }

  ghost predicate FreshRequest(r: Runtime.State, g: nat) {
    && Runtime.Operational(r) && r.record.Some? && r.publishers == Epochs.INITIAL
    && r.gate.active && r.gate.generation == g && r.gate.missionIdle && r.gate == Gate.ClearEvidence(r.gate)
  }

  lemma Restarted(s: System) returns (r: Runtime.State)
    requires s.runtime == Runtime.INITIAL && Store.ValidRecord(s.durable) && s.durable.inhibitor.None?
    ensures r == Runtime.Initialized(s.runtime, true, Store.Loaded(s.durable, Store.HEALTHY))
    ensures Runtime.Operational(r) && r.publishers == Epochs.INITIAL && !r.gate.active
    ensures r.gate.lastGeneration == s.durable.lastGeneration
  {
    r := Runtime.Initialized(s.runtime, true, Store.Loaded(s.durable, Store.HEALTHY));
  }

  /** A fresh manager without inhibitor is asked for maintenance. */
  lemma Asked(limits: Epochs.Limits, r: Runtime.State, durable: Store.Record, requester: string)
    returns (r': Runtime.State, durable': Store.Record)
    requires Runtime.Operational(r) && r.publishers == Epochs.INITIAL && !r.gate.active
    requires r.gate.lastGeneration == durable.lastGeneration < MAX_UINT64
    requires Store.ValidRecord(durable) && durable.inhibitor.None? && Store.ValidRequester(requester)
    ensures (r', durable', true) == Runtime.Step(limits, r, durable, Runtime.Enable(requester, "", true, Store.HEALTHY))
    ensures FreshRequest(r', durable.lastGeneration + 1)
    ensures r'.snapshot.gateActive && r'.snapshot.generation == durable.lastGeneration + 1
  {
    var (after, record, accepted) :=
      Runtime.Step(limits, r, durable, Runtime.Enable(requester, "", true, Store.HEALTHY));
    r', durable' := after, record;
  }

  /** A restarted manager reads its record and is asked for maintenance. */
  lemma RequestOpens(config: Config, start: System, kept: bool, requester: string) returns (s: System)
    requires Starts(start) && start.durable.inhibitor.None?
    requires start.durable.lastGeneration < MAX_UINT64 && Store.ValidRequester(requester)
    ensures Reachable(config, start, kept, s)
    ensures s == start.(runtime := s.runtime, durable := s.durable)
    ensures FreshRequest(s.runtime, start.durable.lastGeneration + 1)
    ensures s.runtime.snapshot.gateActive && s.runtime.snapshot.generation == start.durable.lastGeneration + 1
  {
    StartReachable(config, start, kept);
    Call(config, start, kept, start, Runtime.Initialize(true, Store.HEALTHY));
    var r := Restarted(start);
    var r', durable := Asked(config.hardwareLimits, r, start.durable, requester);
    Call(config, start, kept, start.(runtime := r), Runtime.Enable(requester, "", true, Store.HEALTHY));
    s := start.(runtime := r', durable := durable);
  }

  lemma FrameTaken(limits: Epochs.Limits, r: Runtime.State, hardware: Epochs.Identity, sequence: nat)
    requires Runtime.Operational(r) && r.record.Some? && r.gate.active && r.gate.missionIdle
    requires r.gate.commandApplied && r.gate.acknowledged && r.gate.failure == Gate.NoFailure
    requires Epochs.ValidIdentity(hardware) && 0 < limits.epoch
    requires r.publishers == Epochs.INITIAL || r.publishers == Epochs.State([], Some(hardware), 1)
    requires r.publishers == Epochs.INITIAL ==> r.gate.publisherEpoch.None?
    requires r.publishers != Epochs.INITIAL ==> r.gate.publisherEpoch == Some(1)
    requires r.gate.publisherEpoch == Some(1) ==> Gate.NewerThan(sequence, r.gate.lastSequence)
    ensures var r' := Runtime.HardwareTaken(limits, r, hardware, Standstill(sequence), 0);
            var frames := if r.publishers == Epochs.INITIAL then 1 else Min(2, r.gate.confirmation.zeroFrames + 1);
            && Runtime.Operational(r') && r'.record == r.record
            && r'.publishers == Epochs.State([], Some(hardware), 1)
            && r'.gate == r.gate.(confirmation := Gate.Confirmation(true, true, true, true, true, frames),
                                  publisherEpoch := Some(1), lastSequence := Some(sequence))
            && r'.snapshot.ready == Gate.Ready(r'.gate)
            && r'.snapshot.generation == Runtime.GenerationShown(r'.gate)
  {
  }

  lemma BrakeTaken(r: Runtime.State, c: Gate.FinalCommand) returns (r': Runtime.State)
    requires FreshRequest(r, c.generation) && Gate.SafeBrake(c)
    requires Gate.Matches(c.generation, c.requestId, c.source, r.gate.generation)
    ensures r' == Runtime.Observed(Runtime.Observed(r, Gate.Final(c)),
                                   Gate.Status(Acknowledgement(c.generation, c.commandId)))
    ensures Runtime.Operational(r') && r'.record.Some? && r'.publishers == Epochs.INITIAL
    ensures r'.gate == r.gate.(commandApplied := true, commandId := c.commandId, acknowledged := true)
  {
    var r1 := Runtime.Observed(r, Gate.Final(c));
    assert r1.gate == r.gate.(commandApplied := true, commandId := c.commandId);
    r' := Runtime.Observed(r1, Gate.Status(Acknowledgement(c.generation, c.commandId)));
  }

  /** A final command is observed. */
  lemma FinalCall(config: Config, start: System, kept: bool, s: System, c: Gate.FinalCommand) returns (s': System)
    requires Reachable(config, start, kept, s) && c in s.commands
    ensures Reachable(config, start, kept, s') && s' == s.(runtime := Runtime.Observed(s.runtime, Gate.Final(c)))
  {
    CallTo(config, start, kept, s, Runtime.ObserveFinal(c), Runtime.Observed(s.runtime, Gate.Final(c)));
    s' := s.(runtime := Runtime.Observed(s.runtime, Gate.Final(c)));
  }

  /** A command status is observed. */
  lemma StatusCall(config: Config, start: System, kept: bool, s: System, status: Gate.CommandStatus)
    returns (s': System)
    requires Reachable(config, start, kept, s)
    ensures Reachable(config, start, kept, s') && s' == s.(runtime := Runtime.Observed(s.runtime, Gate.Status(status)))
  {
    CallTo(config, start, kept, s, Runtime.ObserveStatus(status), Runtime.Observed(s.runtime, Gate.Status(status)));
    s' := s.(runtime := Runtime.Observed(s.runtime, Gate.Status(status)));
  }

  /** Any safe brake the manager sees under the reserved name for `g`, acknowledged and confirmed, makes it ready. */
  lemma ConfirmedIsReady(config: Config, start: System, kept: bool, s: System, c: Gate.FinalCommand,
                         hardware: Epochs.Identity) returns (s': System)
    requires Reachable(config, start, kept, s)
    requires FreshRequest(s.runtime, c.generation) && Gate.SafeBrake(c) && c in s.commands
    requires Gate.Matches(c.generation, c.requestId, c.source, s.runtime.gate.generation)
    requires Epochs.ValidIdentity(hardware) && 0 < config.hardwareLimits.epoch
    ensures Reachable(config, start, kept, s')
    ensures ShowsReady(s', c.generation) && s' == s.(runtime := s'.runtime)
  {
    var r2 := BrakeTaken(s.runtime, c);
    s' := FinalCall(config, start, kept, s, c);
    s' := StatusCall(config, start, kept, s', Acknowledgement(c.generation, c.commandId));
    assert s' == s.(runtime := r2);
    s' := ReadyAfterFrames(config, start, kept, s', hardware);
  }

  /** A hardware sample is observed. */
  lemma SampleCall(config: Config, start: System, kept: bool, s: System, hardware: Epochs.Identity, n: nat)
    returns (s': System)
    requires Reachable(config, start, kept, s)
    ensures Reachable(config, start, kept, s')
    ensures s' == s.(runtime := Runtime.HardwareTaken(config.hardwareLimits, s.runtime, hardware, Standstill(n), 0))
  {
    CallTo(config, start, kept, s, Runtime.ObserveHardware(hardware, Standstill(n), 0),
           Runtime.HardwareTaken(config.hardwareLimits, s.runtime, hardware, Standstill(n), 0));
    s' := s.(runtime := Runtime.HardwareTaken(config.hardwareLimits, s.runtime, hardware, Standstill(n), 0));
  }

  /** Two newer zero frames after the acknowledgement. */
  lemma TwoFrames(limits: Epochs.Limits, r: Runtime.State, hardware: Epochs.Identity) returns (r2: Runtime.State)
    requires Runtime.Operational(r) && r.record.Some? && r.publishers == Epochs.INITIAL
    requires r.gate.active && r.gate.missionIdle && r.gate.commandApplied
    requires r.gate.acknowledged && r.gate.failure == Gate.NoFailure && r.gate.publisherEpoch.None?
    requires Epochs.ValidIdentity(hardware) && 0 < limits.epoch
    ensures var r1 := Runtime.HardwareTaken(limits, r, hardware, Standstill(1), 0);
            r2 == Runtime.HardwareTaken(limits, r1, hardware, Standstill(2), 0)
    ensures r2.snapshot.ready && r2.snapshot.generation == r.gate.generation
  {
    FrameTaken(limits, r, hardware, 1);
    var r1 := Runtime.HardwareTaken(limits, r, hardware, Standstill(1), 0);
    FrameTaken(limits, r1, hardware, 2);
    r2 := Runtime.HardwareTaken(limits, r1, hardware, Standstill(2), 0);
  }

  lemma ReadyAfterFrames(config: Config, start: System, kept: bool, s: System, hardware: Epochs.Identity)
    returns (s': System)
    requires Reachable(config, start, kept, s)
    requires Runtime.Operational(s.runtime) && s.runtime.record.Some? && s.runtime.publishers == Epochs.INITIAL
    requires s.runtime.gate.active && s.runtime.gate.missionIdle && s.runtime.gate.commandApplied
    requires s.runtime.gate.acknowledged && s.runtime.gate.failure == Gate.NoFailure
    requires s.runtime.gate.publisherEpoch.None?
    requires Epochs.ValidIdentity(hardware) && 0 < config.hardwareLimits.epoch
    ensures Reachable(config, start, kept, s')
    ensures ShowsReady(s', s.runtime.gate.generation) && s' == s.(runtime := s'.runtime)
  {
    var r2 := TwoFrames(config.hardwareLimits, s.runtime, hardware);
    s' := SampleCall(config, start, kept, s, hardware, 1);
    s' := SampleCall(config, start, kept, s', hardware, 2);
    assert s'.runtime == r2;
  }

  lemma Configured(config: Config, start: System, kept: bool, s: System, p: Arbiter.Parameters) returns (s': System)
    requires Reachable(config, start, kept, s) && s.node == Node.INITIAL_NODE
    ensures Reachable(config, start, kept, s') && s' == s.(node := s'.node)
    ensures s'.node.configured.Some? && s'.node.configured.value.core.gate == Arbiter.NO_CACHE
    ensures s'.node.coordinator == s.node.coordinator
  {
    Next(config, start, kept, s, NodeInput(Node.Configure(true, p)));
    s' := Step(config, s, NodeInput(Node.Configure(true, p)));
  }

  lemma Published(config: Config, start: System, kept: bool, s: System, g: nat) returns (s': System)
    requires Reachable(config, start, kept, s)
    requires s.runtime.snapshot.gateActive && s.runtime.snapshot.generation == g
    ensures Reachable(config, start, kept, s') && s' == s.(sent := s'.sent)
    ensures StateMessage(true, g, s.publisher) in s'.sent
  {
    Next(config, start, kept, s, PublishState);
    s' := Step(config, s, PublishState);
  }

  lemma Delivered(config: Config, start: System, kept: bool, s: System, g: nat) returns (s': System)
    requires Reachable(config, start, kept, s) && StateMessage(true, g, s.publisher) in s.sent && g != 0
    requires s.node.configured.Some? && s.node.configured.value.core.gate == Arbiter.NO_CACHE
    requires s.node.coordinator == Node.INITIAL_COORDINATOR
    requires Epochs.ValidIdentity(s.publisher) && 0 < config.stateLimits.epoch
    ensures Reachable(config, start, kept, s') && s' == s.(node := s'.node)
    ensures s'.node.configured.Some? && s'.node.configured.value.core.gate == Arbiter.Cache(true, true, g)
  {
    var message := StateMessage(true, g, s.publisher);
    Next(config, start, kept, s, DeliverState(message));
    s' := Step(config, s, DeliverState(message));
  }

  /** The arbiter hears of the request: it is configured, the state is published and delivered, and it commands. */
  lemma HeardIsHeld(config: Config, start: System, kept: bool, s: System, p: Arbiter.Parameters, g: nat)
    returns (s': System)
    requires Reachable(config, start, kept, s)
    requires s.node == Node.INITIAL_NODE && s.runtime.snapshot.gateActive && s.runtime.snapshot.generation == g != 0
    requires Epochs.ValidIdentity(s.publisher) && 0 < config.stateLimits.epoch
    ensures Reachable(config, start, kept, s') && s'.runtime == s.runtime
    ensures Evidence(Arbiter.MaintenanceOutput(g), 1) in s'.commands && Held(s', g)
  {
    s' := Configured(config, start, kept, s, p);
    s' := Published(config, start, kept, s', g);
    s' := Delivered(config, start, kept, s', g);
    Next(config, start, kept, s', PublishCommand(0, 1));
    s' := Step(config, s', PublishCommand(0, 1));
  }

  /** Undisturbed, maintenance is granted: the manager shows "ready" and the arbiter holds the same generation. */
  lemma UndisturbedRequestBecomesReady(config: Config, start: System, requester: string, p: Arbiter.Parameters,
                                       hardware: Epochs.Identity) returns (s: System)
    requires Starts(start) && start.durable.inhibitor.None? && start.durable.lastGeneration < MAX_UINT64
    requires Store.ValidRequester(requester)
    requires Epochs.ValidIdentity(start.publisher) && 0 < config.stateLimits.epoch
    requires Epochs.ValidIdentity(hardware) && 0 < config.hardwareLimits.epoch
    ensures Reachable(config, start, true, s)
    ensures ShowsReady(s, start.durable.lastGeneration + 1) && Held(s, start.durable.lastGeneration + 1)
  {
    var g := start.durable.lastGeneration + 1;
    s := RequestOpens(config, start, true, requester);
    s := HeardIsHeld(config, start, true, s, p, g);
    s := ConfirmedIsReady(config, start, true, s, Evidence(Arbiter.MaintenanceOutput(g), 1), hardware);
  }

  /** An upstream command under the reserved name, relayed before any maintenance message arrives. */
  lemma NameIsRelayed(config: Config, start: System, s: System, p: Arbiter.Parameters, g: nat) returns (s': System)
    requires Reachable(config, start, false, s) && s.node == Node.INITIAL_NODE
    ensures Reachable(config, start, false, s') && s'.runtime == s.runtime
    ensures Evidence(Arbiter.MaintenanceOutput(g), 1) in s'.commands
    ensures s'.node.configured.Some? && s'.node.configured.value.core.gate == Arbiter.NO_CACHE
  {
    var command := Node.Vehicle(Arbiter.Manual, Arbiter.MaintenanceOutput(g), 0);
    Next(config, start, false, s, NodeInput(Node.Configure(true, p)));
    s' := Step(config, s, NodeInput(Node.Configure(true, p)));
    Next(config, start, false, s', NodeInput(command));
    s' := Step(config, s', NodeInput(command));
    Arbiter.ReservedSourceIsNotRejected(p, 0, g);
    Next(config, start, false, s', PublishCommand(0, 1));
    s' := Step(config, s', PublishCommand(0, 1));
  }

  /**
   Without the rule that nobody upstream uses the reserved name the guarantee is lost: the manager can show "ready"
   although the arbiter holds no maintenance state and would obey the next command.
   */
  lemma ReservedNameDefeatsTheGate(config: Config, start: System, requester: string, p: Arbiter.Parameters,
                                   hardware: Epochs.Identity) returns (s: System)
    requires Starts(start) && start.durable.inhibitor.None? && start.durable.lastGeneration < MAX_UINT64
    requires Store.ValidRequester(requester)
    requires Epochs.ValidIdentity(hardware) && 0 < config.hardwareLimits.epoch
    ensures Reachable(config, start, false, s)
    ensures ShowsReady(s, start.durable.lastGeneration + 1)
    ensures s.node.configured.Some? && s.node.configured.value.core.gate == Arbiter.NO_CACHE
  {
    var g := start.durable.lastGeneration + 1;
    s := RequestOpens(config, start, false, requester);
    s := NameIsRelayed(config, start, s, p, g);
    s := ConfirmedIsReady(config, start, false, s, Evidence(Arbiter.MaintenanceOutput(g), 1), hardware);
  }
}
