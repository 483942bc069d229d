/**
 The arbiter node: it filters maintenance messages by publisher session, remembers the last one it accepted,
 and keeps the command core in step with it even when the core is created later.
 */
module MaintenanceCoordinator {
  import opened Wrappers
  import opened CommandArbiter
  import Epochs = PublisherEpoch
  import Runs = ArbiterRuns

  datatype Observation = Observation(
    accepted: bool, gateActive: bool, generation: nat, sessionChanged: bool, forceRepublish: bool)

  datatype Coordinator = Coordinator(gate: Cache, tracker: Epochs.State, tracked: bool)

  const INITIAL_COORDINATOR := Coordinator(NO_CACHE, Epochs.INITIAL, false)

  function Result(gate: Cache, accepted: bool, sessionChanged: bool, forceRepublish: bool): Observation {
    Observation(accepted, gate.active, gate.generation, sessionChanged, forceRepublish)
  }

  function Observed(limits: Epochs.Limits, c: Coordinator, gateActive: bool, generation: nat,
                    publisher: Epochs.Identity): (Coordinator, Observation)
  {
    var (tracker, session) := Epochs.Observed(limits, c.tracker, publisher);
    var (gate, updated) := CacheUpdated(c.gate, gateActive, generation);
    if session.status.Invalid? then
      if c.tracked || !gateActive || !updated then (c, Result(c.gate, false, false, false))
      else (c.(gate := gate), Result(gate, true, false, false))
    else if !c.tracked && !gateActive then (c, Result(c.gate, false, false, false))
    else if session.status.Accepted? && !session.sessionChanged && c.gate.hasState && !c.gate.active && !gateActive
            && generation == c.gate.generation
    then (c, Result(c.gate, true, false, false))
    else if !session.status.Accepted? || !updated then (c, Result(c.gate, false, false, false))
    else
      (Coordinator(gate, tracker, true),
       Result(gate, true, session.sessionChanged, session.sessionChanged && gate.active))
  }

  /** An accepted message is exactly what the coordinator then holds; a rejected one changes nothing. */
  lemma AcceptedMeansHeld(limits: Epochs.Limits, c: Coordinator, gateActive: bool, generation: nat,
                          publisher: Epochs.Identity)
    requires c.gate.hasState ==> c.gate.generation != 0
    ensures var (c', r) := Observed(limits, c, gateActive, generation, publisher);
            && (r.accepted ==> generation != 0 && c'.gate == Cache(true, gateActive, generation))
            && (r.accepted ==> c'.gate == c.gate || CacheUpdated(c.gate, gateActive, generation) == (c'.gate, true))
            && (!r.accepted ==> c' == c)
            && (r.forceRepublish ==> r.accepted && r.sessionChanged && gateActive)
            && r.gateActive == c'.gate.active && r.generation == c'.gate.generation
  {
  }

  /**
   What is accepted, by the sessions so far.  A publisher that names itself must be the newest, or a new one with room
   for its session; the first of them must ask for maintenance.  It may enter with a generation newer than any before,
   repeat or leave the current one, and the newest may repeat a release.  One that does not name itself is heard only
   before any other, and only to enter.
   */
  lemma AcceptedExactlyWhen(limits: Epochs.Limits, c: Coordinator, gateActive: bool, generation: nat,
                            publisher: Epochs.Identity)
    requires Epochs.Valid(c.tracker) && (c.gate.hasState || c.gate == NO_CACHE)
    requires c.gate.hasState ==> c.gate.generation != 0
    ensures
      var current := c.gate.hasState && generation == c.gate.generation;
      var enters := gateActive && (generation > c.gate.generation || (current && c.gate.active));
      var leaves := !gateActive && current && c.gate.active;
      var repeats := !gateActive && current && !c.gate.active && Epochs.Newest(Epochs.Sessions(c.tracker), publisher);
      var (c', r) := Observed(limits, c, gateActive, generation, publisher);
      && (r.accepted <==>
            if Epochs.Named(publisher) then
              && Epochs.Observed(limits, c.tracker, publisher).1.status.Accepted?
              && (c.tracked || gateActive) && (enters || leaves || repeats)
            else !c.tracked && enters)
      && (r.accepted && !repeats ==> (c'.tracked <==> c.tracked || Epochs.Named(publisher)))
      && (r.forceRepublish <==> r.accepted && r.sessionChanged && gateActive)
      && (r.sessionChanged <==>
            r.accepted && Epochs.Named(publisher) && publisher !in Epochs.Sessions(c.tracker))
  {
    Epochs.StatusBySessions(limits, c.tracker, publisher);
    Epochs.ObserveExtendsSessions(limits, c.tracker, publisher);
  }

  class MaintenancePublisherCoordinator {
    var gate: MaintenanceGateCache
    var publisherTracker: Epochs.PublisherEpochTracker
    var hasTrackedPublisher: bool

    constructor (limits: Epochs.Limits)
      ensures fresh(gate) && fresh(publisherTracker) && publisherTracker.limits == limits
      ensures View() == INITIAL_COORDINATOR
    {
      gate := new MaintenanceGateCache();
      publisherTracker := new Epochs.PublisherEpochTracker(limits);
      hasTrackedPublisher := false;
    }

    ghost function View(): Coordinator
      reads this, gate, publisherTracker
    {
      Coordinator(gate.View(), publisherTracker.View(), hasTrackedPublisher)
    }

    method Observe(gateActive: bool, generation: nat, publisher: Epochs.Identity) returns (r: Observation)
      modifies this
      ensures (View(), r) == Observed(old(publisherTracker).limits, old(View()), gateActive, generation, publisher)
      ensures publisherTracker.limits == old(publisherTracker).limits
      ensures (gate == old(gate) || fresh(gate)) && (publisherTracker == old(publisherTracker) || fresh(publisherTracker))
    {
      var nextGate := new MaintenanceGateCache.Clone(gate);
      var nextTracker := new Epochs.PublisherEpochTracker.Clone(publisherTracker);
      var session := nextTracker.Observe(publisher);

      if session.status.Invalid? {
        if hasTrackedPublisher || !gateActive {
          return Observation(false, gate.active, gate.generation, false, false);
        }
        var updated := nextGate.Update(true, generation);
        if !updated {
          return Observation(false, gate.active, gate.generation, false, false);
        }
        gate := nextGate;
        return Observation(true, gate.active, gate.generation, false, false);
      }
      if !hasTrackedPublisher && !gateActive {
        return Observation(false, gate.active, gate.generation, false, false);
      }
      var repeatedCurrentRelease :=
        session.status.Accepted? && !session.sessionChanged && gate.hasState && !gate.active && !gateActive
        && generation == gate.generation;
      if repeatedCurrentRelease {
        return Observation(true, gate.active, gate.generation, false, false);
      }
      if !session.status.Accepted? {
        return Observation(false, gate.active, gate.generation, false, false);
      }
      var updated := nextGate.Update(gateActive, generation);
      if !updated {
        return Observation(false, gate.active, gate.generation, false, false);
      }
      gate := nextGate;
      publisherTracker := nextTracker;
      hasTrackedPublisher := true;
      return Observation(true, gate.active, gate.generation, session.sessionChanged,
                         session.sessionChanged && gate.active);
    }
  }

  // ---------------------------------------------------------------------------------------------
  // The node
  // ---------------------------------------------------------------------------------------------

  datatype Configured = Configured(parameters: Parameters, core: Core)

  /** `cached` is the last accepted maintenance message: (gate active, generation). */
  datatype Node = Node(coordinator: Coordinator, cached: (bool, nat), configured: Option<Configured>)

  const INITIAL_NODE := Node(INITIAL_COORDINATOR, (false, 0), None)

  datatype Input =
    | Maintenance(active: bool, generation: nat, publisher: Epochs.Identity)
    | Vehicle(source: Source, command: Command, at: nat)
    | Brush(enabled: bool, speed: int, intent: bool)
    | Configure(initial: bool, parameters: Parameters)

  function CoreStep(n: Node, e: Runs.Input): Node {
    if n.configured.None? then n
    else n.(configured := Some(n.configured.value.(core := Runs.Step(n.configured.value.core, e))))
  }

  function Step(limits: Epochs.Limits, n: Node, e: Input): Node {
    match e
    case Maintenance(active, generation, publisher) =>
      var (coordinator, observation) := Observed(limits, n.coordinator, active, generation, publisher);
      if !observation.accepted then n.(coordinator := coordinator)
      else
        CoreStep(n.(coordinator := coordinator, cached := (active, generation)), Runs.Maintenance(active, generation))
    case Vehicle(source, command, at) => CoreStep(n, Runs.Update(source, command, at))
    case Brush(enabled, speed, intent) => CoreStep(n, Runs.Brush(enabled, speed, intent))
    case Configure(initial, parameters) =>
      if !initial && n.configured.Some? then n
      else
        var created := n.(configured := Some(Configured(parameters, INITIAL_CORE)));
        if n.coordinator.gate.hasState then CoreStep(created, Runs.Maintenance(n.cached.0, n.cached.1)) else created
  }

  /**
   A node is configured once, and anew only by an initial configuration; then it starts without any command, and with
   the maintenance state its coordinator holds.
   */
  lemma ConfiguredExactlyWhen(limits: Epochs.Limits, n: Node, initial: bool, parameters: Parameters)
    requires n.coordinator.gate.hasState ==>
               n.cached == (n.coordinator.gate.active, n.coordinator.gate.generation) && n.cached.1 != 0
    requires !n.coordinator.gate.hasState ==> !n.coordinator.gate.active
    ensures
      var n' := Step(limits, n, Configure(initial, parameters));
      if n.configured.Some? && !initial then n' == n
      else
        && n'.coordinator == n.coordinator && n'.configured.Some? && n'.configured.value.parameters == parameters
        && (forall source :: !SlotOf(n'.configured.value.core.slots, source).present)
        && !n'.configured.value.core.stopped
        && n'.configured.value.core.gate.active == n.coordinator.gate.active
        && (n.coordinator.gate.active ==>
              n'.configured.value.core.gate.generation == n.coordinator.gate.generation)
  {
  }

  /** What the node publishes; before it is configured, a brake under its own name. */
  function NodeOutput(n: Node, now: nat): (r: Command)
    ensures r.brake ==> StandsStill(r)
  {
    if n.configured.None? then Braking("config_not_ready", 80)
    else Output(n.configured.value.parameters, n.configured.value.core, now)
  }

  /**
   The coordinator and the core never disagree about an active gate.  They may differ only in that a core
   created after a release has no maintenance state while the coordinator remembers the released generation.
   */
  ghost predicate InStep(n: Node) {
    && (n.coordinator.gate.hasState ==> n.cached == (n.coordinator.gate.active, n.coordinator.gate.generation))
    && (n.coordinator.gate.hasState ==> n.coordinator.gate.generation != 0)
    && (!n.coordinator.gate.hasState ==> n.coordinator.gate == NO_CACHE)
    && (n.configured.Some? ==>
          var gate := n.configured.value.core.gate;
          gate == n.coordinator.gate || (gate == NO_CACHE && !n.coordinator.gate.active))
  }

  lemma OtherInputsKeepTheGate(c: Core, e: Runs.Input)
    requires !e.Maintenance?
    ensures Runs.Step(c, e).gate == c.gate
  {
  }

  lemma StepKeepsInStep(limits: Epochs.Limits, n: Node, e: Input)
    requires InStep(n)
    ensures InStep(Step(limits, n, e))
  {
    match e {
      case Maintenance(active, generation, publisher) =>
        AcceptedMeansHeld(limits, n.coordinator, active, generation, publisher);
        if n.configured.Some? {
          MaintenanceWipesOrKeeps(n.configured.value.core, active, generation);
        }
      case Vehicle(source, command, at) =>
        if n.configured.Some? {
          OtherInputsKeepTheGate(n.configured.value.core, Runs.Update(source, command, at));
        }
      case Brush(enabled, speed, intent) =>
        if n.configured.Some? {
          OtherInputsKeepTheGate(n.configured.value.core, Runs.Brush(enabled, speed, intent));
        }
      case Configure(_, _) =>
        MaintenanceWipesOrKeeps(INITIAL_CORE, n.cached.0, n.cached.1);
    }
  }

  function After(limits: Epochs.Limits, inputs: seq<Input>): Node {
    if inputs == [] then INITIAL_NODE
    else var last := |inputs| - 1; Step(limits, After(limits, inputs[..last]), inputs[last])
  }

  /**
   Over every run of the node, in whatever order configuration and maintenance messages arrive: a configured
   core has an active gate exactly when the coordinator has one, for the same generation, and the node then
   publishes nothing but that generation's brake.
   */
  lemma {:induction false} CoreFollowsCoordinator(limits: Epochs.Limits, inputs: seq<Input>, now: nat)
    ensures var n := After(limits, inputs);
            && InStep(n)
            && (n.configured.Some? ==>
                  && n.configured.value.core.gate.active == n.coordinator.gate.active
                  && (n.coordinator.gate.active ==>
                        NodeOutput(n, now) == MaintenanceOutput(n.coordinator.gate.generation)))
  {
    if inputs != [] {
      var last := |inputs| - 1;
      CoreFollowsCoordinator(limits, inputs[..last], now);
      StepKeepsInStep(limits, After(limits, inputs[..last]), inputs[last]);
    }
  }
}
