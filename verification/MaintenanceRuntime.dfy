/**
 The maintenance runtime: the durable record, the gate and the published snapshot kept in step, with a
 store fault that latches.  `State` and `Step` are the specification; the class works in place.
 */
module MaintenanceRuntimes {
  import opened Wrappers
  import Gate = MaintenanceGates
  import Store = MaintenanceStores
  import Epochs = PublisherEpoch

  datatype Phase = Startup | StoreFault | FromGate(phase: Gate.Phase)

  datatype Snapshot = Snapshot(
    initialized: bool, storeFault: bool, admissionClosed: bool,
    generation: nat, lastGeneration: nat, gateActive: bool, missionIdle: bool,
    commandGateApplied: bool, brakeAcknowledged: bool, confirmation: Gate.Confirmation,
    ready: bool, requester: string, reason: string, phase: Phase)

  const INITIAL_SNAPSHOT :=
    Snapshot(false, false, true, 0, 0, false, false, false, false, Gate.UNCONFIRMED, false, "", "", Startup)

  datatype Sample = Sample(sequence: nat, connected: bool, xSpeed: int, zSpeed: int, brushSpeed: int)

  datatype LatestHardware = LatestHardware(evidence: Gate.Hardware, observedAt: nat)

  datatype State = State(
    initialized: bool, fault: bool, admissionClosed: bool, record: Option<Store.Record>,
    gate: Gate.State, publishers: Epochs.State, latest: Option<LatestHardware>, snapshot: Snapshot)

  const INITIAL := State(false, false, true, None, Gate.INITIAL, Epochs.INITIAL, None, INITIAL_SNAPSHOT)

  function GenerationShown(gate: Gate.State): nat {
    if gate.active then gate.generation else gate.lastGeneration
  }

  /** The snapshot of a healthy runtime is the gate's. */
  function HealthySnapshot(gate: Gate.State, requester: string, reason: string): Snapshot {
    var g := Gate.SnapshotOf(gate);
    Snapshot(true, false, g.gateActive, GenerationShown(gate), gate.lastGeneration, g.gateActive, g.missionIdle,
             g.commandGateApplied, g.brakeAcknowledged, g.confirmation, g.ready, requester, reason,
             FromGate(g.phase))
  }

  function Refreshed(s: State, requester: string, reason: string): State {
    s.(fault := false, admissionClosed := s.gate.active, snapshot := HealthySnapshot(s.gate, requester, reason))
  }

  function RefreshedFrom(s: State, record: Store.Record): State {
    if record.inhibitor.Some? then Refreshed(s, record.inhibitor.value.requester, record.inhibitor.value.reason)
    else Refreshed(s, "", "")
  }

  function FaultLatched(s: State): State {
    var g := Gate.SnapshotOf(s.gate);
    s.(initialized := true, fault := true, admissionClosed := true,
       snapshot := Snapshot(true, true, true, GenerationShown(s.gate), s.gate.lastGeneration, g.gateActive,
                            g.missionIdle, g.commandGateApplied, g.brakeAcknowledged, g.confirmation, false,
                            s.snapshot.requester, s.snapshot.reason, StoreFault))
  }

  /** A runtime without a record cannot vouch for anything. */
  function AdmissionRestored(s: State): State {
    if s.record.Some? then RefreshedFrom(s, s.record.value) else FaultLatched(s)
  }

  function Initialized(s: State, idle: bool, loaded: Store.Result): State {
    if s.initialized then s
    else
      var s1 := s.(initialized := true, snapshot := s.snapshot.(initialized := true));
      if loaded.code != Store.Ok || loaded.record.None? || !Store.ValidRecord(loaded.record.value) then FaultLatched(s1)
      else
        var record := loaded.record.value;
        var active := if record.inhibitor.Some? then Some(record.inhibitor.value.generation) else None;
        var restored := Gate.Restored(s1.gate, record.lastGeneration, active, idle);
        if restored.None? then FaultLatched(s1)
        else RefreshedFrom(s1.(gate := restored.value, record := Some(record)), record)
  }

  function IdleSet(s: State, idle: bool): State {
    if s.fault then s
    else
      var s1 := s.(gate := Gate.MissionIdleSet(s.gate, idle));
      if !s.initialized then s1.(snapshot := s1.snapshot.(missionIdle := idle))
      else Refreshed(s1, s.snapshot.requester, s.snapshot.reason)
  }

  /** What an error that may have committed still lets the runtime believe, before it latches the fault. */
  function UncertainActivation(s: State, stored: Store.Result, idle: bool): State {
    if !stored.committed || stored.record.None? || !Store.ValidRecord(stored.record.value)
       || stored.record.value.inhibitor.None?
    then s
    else
      var generation := stored.record.value.inhibitor.value.generation;
      if s.snapshot.gateActive then
        if s.snapshot.generation != generation then s
        else RefreshedFrom(s.(record := stored.record), stored.record.value)
      else
        var requested := Gate.Requested(s.gate, generation, idle);
        if requested.None? then s
        else RefreshedFrom(s.(gate := requested.value, record := stored.record), stored.record.value)
  }

  function AdmissionShut(s: State): State {
    s.(admissionClosed := true, snapshot := s.snapshot.(admissionClosed := true))
  }

  predicate EnableFieldsValid(requester: string, reason: string) {
    Store.ValidRequester(requester) && |reason| <= Store.MAXIMUM_REASON_BYTES
  }

  /** The answer of the store to an enable request, taken into the runtime. */
  function ActivationTaken(s: State, requester: string, idle: bool, stored: Store.Result): (State, bool) {
    if stored.code == Store.Ok then
      if !stored.committed || stored.record.None? || !Store.ValidRecord(stored.record.value)
         || stored.record.value.inhibitor.None?
      then (FaultLatched(s), false)
      else
        var requested := Gate.Requested(s.gate, stored.record.value.inhibitor.value.generation, idle);
        if requested.None? then (FaultLatched(s), false)
        else (RefreshedFrom(s.(gate := requested.value, record := stored.record), stored.record.value), true)
    else if stored.code == Store.AlreadyActive then
      if stored.record.None? || !Store.ValidRecord(stored.record.value) || stored.record.value.inhibitor.None?
         || !s.snapshot.gateActive || stored.record.value.inhibitor.value.generation != s.snapshot.generation
         || stored.record.value.inhibitor.value.requester != requester
      then (FaultLatched(s), false)
      else (RefreshedFrom(s.(record := stored.record), stored.record.value), true)
    else if stored.committed || Store.OperationalFailure(stored.code) then
      (FaultLatched(UncertainActivation(s, stored, idle)), false)
    else (AdmissionRestored(s), false)
  }

  function ReleaseTaken(s: State, generation: nat, stored: Store.Result): (State, bool) {
    if stored.code == Store.Ok then
      if !stored.committed || stored.record.None? || !Store.ValidRecord(stored.record.value)
         || stored.record.value.inhibitor.Some? || stored.record.value.lastGeneration != generation
      then (FaultLatched(s), false)
      else
        var released := Gate.Released(s.gate, generation);
        if released.None? then (FaultLatched(s), false)
        else (RefreshedFrom(s.(gate := released.value, record := stored.record), stored.record.value), true)
    else if stored.committed || Store.OperationalFailure(stored.code) then (FaultLatched(s), false)
    else (AdmissionRestored(s), false)
  }

  predicate Operational(s: State) { s.initialized && !s.fault }

  /** An observation reaches the gate only while the runtime is operational. */
  function Observed(s: State, e: Gate.Event): State {
    if Operational(s) then AdmissionRestored(s.(gate := Gate.Step(s.gate, e))) else s
  }

  function EvidenceOf(epoch: nat, isFresh: bool, connected: bool, sample: Sample): Gate.Hardware {
    Gate.Hardware(epoch, sample.sequence, isFresh, connected, sample.xSpeed, sample.zSpeed, sample.brushSpeed)
  }

  function HardwareTaken(limits: Epochs.Limits, s: State, publisher: Epochs.Identity, sample: Sample, at: nat): State {
    if !Operational(s) then s
    else
      var (publishers, observed) := Epochs.Observed(limits, s.publishers, publisher);
      if observed.status.Retired? then s
      else if !observed.status.Accepted? then
        Observed(s, Gate.Frame(EvidenceOf(0, false, false, sample)))
      else
        var evidence := EvidenceOf(observed.epoch, true, sample.connected, sample);
        Observed(s.(publishers := publishers, latest := Some(LatestHardware(evidence, at))), Gate.Frame(evidence))
  }

  predicate StillFresh(observedAt: nat, now: nat, timeout: nat) {
    observedAt <= now && now - observedAt <= timeout
  }

  function HardwareRefreshed(s: State, now: nat, timeout: nat): State {
    if s.latest.None? then s
    else
      var latest := s.latest.value;
      Observed(s, Gate.Frame(latest.evidence.(isFresh := StillFresh(latest.observedAt, now, timeout))))
  }

  // ---------------------------------------------------------------------------------------------
  // Calls: the runtime together with the durable record it owns
  // ---------------------------------------------------------------------------------------------

  datatype Call =
    | Initialize(idle: bool, disk: Store.Disk)
    | SetMissionIdle(idle: bool)
    | Enable(requester: string, reason: string, idle: bool, disk: Store.Disk)
    | Disable(generation: nat, requester: string, disk: Store.Disk)
    | ObserveFinal(command: Gate.FinalCommand)
    | ObserveStatus(status: Gate.CommandStatus)
    | ObserveHardware(publisher: Epochs.Identity, sample: Sample, at: nat)
    | RefreshHardware(now: nat, timeout: nat)

  /** `world` is the runtime and the durable record; the third component is "accepted". */
  function Step(limits: Epochs.Limits, s: State, durable: Store.Record, call: Call): (State, Store.Record, bool) {
    match call
    case Initialize(idle, disk) =>
      var s' := Initialized(s, idle, Store.Loaded(durable, disk));
      (s', durable, !s'.fault)
    case SetMissionIdle(idle) => (IdleSet(s, idle), durable, true)
    case Enable(requester, reason, idle, disk) =>
      if !Operational(s) || !EnableFieldsValid(requester, reason) then (s, durable, false)
      else
        var (stored, durable') := Store.Activated(durable, requester, reason, disk);
        var (s', accepted) := ActivationTaken(AdmissionShut(s), requester, idle, stored);
        (s', durable', accepted)
    case Disable(generation, requester, disk) =>
      if !Operational(s) || generation == 0 || !Store.ValidRequester(requester) then (s, durable, false)
      else
        var (stored, durable') := Store.Released(durable, generation, requester, disk);
        var (s', accepted) := ReleaseTaken(AdmissionShut(s), generation, stored);
        (s', durable', accepted)
    case ObserveFinal(command) => (Observed(s, Gate.Final(command)), durable, true)
    case ObserveStatus(status) => (Observed(s, Gate.Status(status)), durable, true)
    case ObserveHardware(publisher, sample, at) => (HardwareTaken(limits, s, publisher, sample, at), durable, true)
    case RefreshHardware(now, timeout) => (HardwareRefreshed(s, now, timeout), durable, true)
  }

  // ---------------------------------------------------------------------------------------------
  // Invariants
  // ---------------------------------------------------------------------------------------------

  /** The gate never runs ahead of the record, and never calls a held generation finished. */
  ghost predicate GateBehind(gate: Gate.State, durable: Store.Record) {
    && gate.lastGeneration <= durable.lastGeneration
    && (gate.active ==> gate.generation == gate.lastGeneration != 0)
    && (!gate.active ==> gate.lastGeneration == 0 || Store.IsReleased(durable, gate.lastGeneration))
  }

  /** A runtime without a fault agrees with the durable record in every detail. */
  ghost predicate InStep(s: State, durable: Store.Record) {
    && s.record == Some(durable)
    && s.gate.lastGeneration == durable.lastGeneration
    && s.gate.active == durable.inhibitor.Some?
    && (s.gate.active ==> s.gate.generation == durable.inhibitor.value.generation)
    && s.admissionClosed == s.gate.active
    && s.snapshot == HealthySnapshot(s.gate,
                                     if s.gate.active then durable.inhibitor.value.requester else "",
                                     if s.gate.active then durable.inhibitor.value.reason else "")
  }

  ghost predicate Inv(s: State, durable: Store.Record) {
    && Store.ValidRecord(durable)
    && GateBehind(s.gate, durable)
    && (Operational(s) ==> InStep(s, durable))
    && (!Operational(s) ==> s.admissionClosed && s.snapshot.admissionClosed && !s.snapshot.ready)
    && (s.fault ==> s.initialized)
    && (!s.initialized ==> !s.gate.active && s.gate.lastGeneration == 0 && s.record.None? && s.latest.None?)
    && s.snapshot.gateActive == s.gate.active
    && s.snapshot.generation == (if s.gate.active then s.gate.generation else s.gate.lastGeneration)
  }

  lemma InitialInv(durable: Store.Record)
    requires Store.ValidRecord(durable)
    ensures Inv(INITIAL, durable)
  {
  }

  lemma FaultLatchedInv(s: State, durable: Store.Record)
    requires Store.ValidRecord(durable) && GateBehind(s.gate, durable)
    ensures Inv(FaultLatched(s), durable) && FaultLatched(s).fault
  {
  }

  lemma ObservedInv(s: State, durable: Store.Record, e: Gate.Event)
    requires Inv(s, durable) && (e.Final? || e.Status? || e.Frame?)
    ensures Inv(Observed(s, e), durable) && Observed(s, e).fault == s.fault
  {
    Gate.ObservationsKeepOpening(s.gate, e);
    ObservedInvAt(s, durable, Gate.Step(s.gate, e));
  }

  lemma ObservedInvAt(s: State, durable: Store.Record, gate: Gate.State)
    requires Inv(s, durable)
    requires gate.active == s.gate.active && gate.generation == s.gate.generation
    requires gate.lastGeneration == s.gate.lastGeneration
    ensures Operational(s) ==>
              var s' := AdmissionRestored(s.(gate := gate)); Inv(s', durable) && Operational(s')
  {
  }

  lemma InitializeInv(s: State, durable: Store.Record, idle: bool, disk: Store.Disk)
    requires Inv(s, durable)
    ensures var s' := Initialized(s, idle, Store.Loaded(durable, disk));
            Inv(s', durable) && s'.initialized && (s.fault ==> s'.fault)
  {
  }

  lemma EnableInv(s: State, durable: Store.Record, requester: string, reason: string, idle: bool, disk: Store.Disk)
    requires Inv(s, durable) && Operational(s)
    ensures var (stored, durable') := Store.Activated(durable, requester, reason, disk);
            var (s', accepted) := ActivationTaken(AdmissionShut(s), requester, idle, stored);
            && Inv(s', durable') && s'.initialized
            && (accepted ==> Operational(s') && s'.gate.active)
            && (durable' != durable ==> s'.gate.active && s'.gate.generation == durable'.lastGeneration)
  {
    Store.TransactionsAdvance(durable, requester, reason, 0, disk);
    var (stored, durable') := Store.Activated(durable, requester, reason, disk);
    if stored.code == Store.Ok || stored.code == Store.AlreadyActive {
    } else if stored.committed || Store.OperationalFailure(stored.code) {
      FaultLatchedInv(UncertainActivation(AdmissionShut(s), stored, idle), durable');
    }
  }

  lemma DisableInv(s: State, durable: Store.Record, generation: nat, requester: string, disk: Store.Disk)
    requires Inv(s, durable) && Operational(s)
    ensures var (stored, durable') := Store.Released(durable, generation, requester, disk);
            var (s', accepted) := ReleaseTaken(AdmissionShut(s), generation, stored);
            && Inv(s', durable') && s'.initialized
            && (accepted ==> Operational(s') && !s'.gate.active && Store.IsReleased(durable', generation))
  {
    Store.TransactionsAdvance(durable, requester, "", generation, disk);
    var (stored, durable') := Store.Released(durable, generation, requester, disk);
    if stored.code != Store.Ok && (stored.committed || Store.OperationalFailure(stored.code)) {
      FaultLatchedInv(AdmissionShut(s), durable');
    }
  }

  /**
   Without a fault and with a healthy disk maintenance can be entered and left: an enable is accepted exactly where
   nothing is held, or held by the same requester, and shuts admission; a disable exactly by generation and requester,
   and opens admission again.
   */
  lemma HealthyCallsAreAccepted(
      limits: Epochs.Limits, s: State, durable: Store.Record, requester: string, reason: string, idle: bool, g: nat)
    requires Inv(s, durable) && Operational(s) && EnableFieldsValid(requester, reason)
    ensures
      var (s', durable', accepted) := Step(limits, s, durable, Enable(requester, reason, idle, Store.HEALTHY));
      && (accepted <==> if durable.inhibitor.Some? then durable.inhibitor.value.requester == requester
                        else durable.lastGeneration < MAX_UINT64)
      && (accepted ==> s'.admissionClosed && s'.gate.active && s'.gate.generation == durable'.lastGeneration)
      && !s'.fault
    ensures
      var (s', durable', accepted) := Step(limits, s, durable, Disable(g, requester, Store.HEALTHY));
      && (accepted <==> durable.inhibitor.Some? && durable.inhibitor.value.generation == g
                        && durable.inhibitor.value.requester == requester)
      && (accepted ==> !s'.admissionClosed && !s'.gate.active && durable'.inhibitor == None)
      && (accepted ==> !s'.snapshot.gateActive && s'.snapshot.generation == g)
      && (!accepted ==> durable' == durable && s'.admissionClosed == s.admissionClosed)
      && !s'.fault
  {
    Store.ActivatedExactlyWhen(durable, requester, reason, Store.HEALTHY);
    Store.ReleasedExactlyWhen(durable, g, requester, Store.HEALTHY);
  }

  /** The file system does what a transaction asks of it, up to the write only where there is something to write. */
  predicate Untroubled(disk: Store.Disk, writes: bool) {
    disk.open.None? && disk.read.None? && !disk.finishFails && (writes ==> disk.write.Written?)
  }

  /** Whatever the file system fails in, before or after the commit, latches the fault; nothing else does. */
  lemma FaultExactlyWhen(
      limits: Epochs.Limits, s: State, durable: Store.Record, requester: string, reason: string, idle: bool, g: nat,
      disk: Store.Disk)
    requires Inv(s, durable) && Operational(s) && EnableFieldsValid(requester, reason)
    ensures
      var free := durable.inhibitor.None? && durable.lastGeneration < MAX_UINT64;
      Step(limits, s, durable, Enable(requester, reason, idle, disk)).0.fault <==> !Untroubled(disk, free)
    ensures
      var holds := durable.inhibitor.Some? && durable.inhibitor.value.generation == g
                   && durable.inhibitor.value.requester == requester;
      g != 0 ==>
        (Step(limits, s, durable, Disable(g, requester, disk)).0.fault <==> !Untroubled(disk, holds))
  {
    Store.ActivatedExactlyWhen(durable, requester, reason, disk);
    Store.ReleasedExactlyWhen(durable, g, requester, disk);
  }

  lemma HardwareInv(limits: Epochs.Limits, s: State, durable: Store.Record, publisher: Epochs.Identity,
                    sample: Sample, at: nat)
    requires Inv(s, durable)
    ensures var s' := HardwareTaken(limits, s, publisher, sample, at);
            Inv(s', durable) && s'.fault == s.fault && (s.initialized ==> s'.initialized)
  {
    if Operational(s) {
      var (publishers, observed) := Epochs.Observed(limits, s.publishers, publisher);
      var evidence := EvidenceOf(observed.epoch, true, sample.connected, sample);
      ObservedInv(s, durable, Gate.Frame(EvidenceOf(0, false, false, sample)));
      ObservedInv(s.(publishers := publishers, latest := Some(LatestHardware(evidence, at))), durable,
                  Gate.Frame(evidence));
    }
  }

  /** What every call keeps: the invariant, the progress of the record, a fault once latched. */
  ghost predicate Keeps(limits: Epochs.Limits, s: State, durable: Store.Record, call: Call) {
    var (s', durable', _) := Step(limits, s, durable, call);
    && Inv(s', durable') && Store.Advances(durable, durable')
    && (s.fault ==> s'.fault) && (s.initialized ==> s'.initialized)
  }

  lemma EnableKeeps(limits: Epochs.Limits, s: State, durable: Store.Record, call: Call)
    requires Inv(s, durable) && call.Enable?
    ensures Keeps(limits, s, durable, call)
  {
    Store.TransactionsAdvance(durable, call.requester, call.reason, 0, call.disk);
    if Operational(s) {
      EnableInv(s, durable, call.requester, call.reason, call.idle, call.disk);
    }
  }

  lemma DisableKeeps(limits: Epochs.Limits, s: State, durable: Store.Record, call: Call)
    requires Inv(s, durable) && call.Disable?
    ensures Keeps(limits, s, durable, call)
  {
    Store.TransactionsAdvance(durable, call.requester, "", call.generation, call.disk);
    if Operational(s) {
      DisableInv(s, durable, call.generation, call.requester, call.disk);
    }
  }

  lemma RefreshKeeps(limits: Epochs.Limits, s: State, durable: Store.Record, call: Call)
    requires Inv(s, durable) && call.RefreshHardware?
    ensures Keeps(limits, s, durable, call)
  {
    if s.latest.Some? {
      var latest := s.latest.value;
      ObservedInv(s, durable,
                  Gate.Frame(latest.evidence.(isFresh := StillFresh(latest.observedAt, call.now, call.timeout))));
    }
  }

  lemma IdleKeeps(limits: Epochs.Limits, s: State, durable: Store.Record, call: Call)
    requires Inv(s, durable) && call.SetMissionIdle?
    ensures Keeps(limits, s, durable, call)
  {
  }

  /** Every call, whatever the disk does, keeps the invariant; a fault is never cleared. */
  lemma StepInv(limits: Epochs.Limits, s: State, durable: Store.Record, call: Call)
    requires Inv(s, durable)
    ensures Keeps(limits, s, durable, call)
  {
    match call {
      case Initialize(idle, disk) => InitializeInv(s, durable, idle, disk);
      case SetMissionIdle(_) => IdleKeeps(limits, s, durable, call);
      case Enable(_, _, _, _) => EnableKeeps(limits, s, durable, call);
      case Disable(_, _, _) => DisableKeeps(limits, s, durable, call);
      case ObserveFinal(command) => ObservedInv(s, durable, Gate.Final(command));
      case ObserveStatus(status) => ObservedInv(s, durable, Gate.Status(status));
      case ObserveHardware(publisher, sample, at) => HardwareInv(limits, s, durable, publisher, sample, at);
      case RefreshHardware(_, _) => RefreshKeeps(limits, s, durable, call);
    }
  }

  // ---------------------------------------------------------------------------------------------
  // Whole runs of one process
  // ---------------------------------------------------------------------------------------------

  function After(limits: Epochs.Limits, durable: Store.Record, calls: seq<Call>): (State, Store.Record) {
    if calls == [] then (INITIAL, durable)
    else
      var last := |calls| - 1;
      var (s, d) := After(limits, durable, calls[..last]);
      var (s', d', _) := Step(limits, s, d, calls[last]);
      (s', d')
  }

  lemma {:induction false} AfterInv(limits: Epochs.Limits, durable: Store.Record, calls: seq<Call>)
    requires Store.ValidRecord(durable)
    ensures var (s, d) := After(limits, durable, calls); Inv(s, d)
  {
    if calls != [] {
      var last := |calls| - 1;
      AfterInv(limits, durable, calls[..last]);
      var (s, d) := After(limits, durable, calls[..last]);
      StepInv(limits, s, d, calls[last]);
    }
  }

  /**
   Fail closed: after any calls and any disk behaviour, admission is open only for an initialized,
   unfaulted runtime whose durable record holds no inhibitor; "ready" is shown only for the generation
   the durable record holds; and without a fault the gate's counter is the durable one.
   */
  lemma FailClosed(limits: Epochs.Limits, durable: Store.Record, calls: seq<Call>)
    requires Store.ValidRecord(durable)
    ensures var (s, d) := After(limits, durable, calls);
            && (!s.admissionClosed ==> s.initialized && !s.fault && d.inhibitor.None?)
            && (!s.snapshot.admissionClosed ==> !s.admissionClosed)
            && (s.snapshot.ready ==>
                  && !s.fault && Gate.Ready(s.gate) && d.inhibitor.Some?
                  && s.snapshot.generation == s.gate.generation == d.inhibitor.value.generation)
            && (Operational(s) ==> s.gate.lastGeneration == d.lastGeneration)
  {
    AfterInv(limits, durable, calls);
  }

  lemma FaultFreezes(limits: Epochs.Limits, s: State, durable: Store.Record, call: Call)
    requires s.fault && s.initialized
    ensures var (s', durable', accepted) := Step(limits, s, durable, call);
            s' == s && durable' == durable && (call.Enable? || call.Disable? || call.Initialize? ==> !accepted)
  {
  }

  /** A latched store fault survives every later call: nothing the runtime or the record holds changes again. */
  lemma {:induction false} FaultIsSticky(limits: Epochs.Limits, durable: Store.Record, calls: seq<Call>, i: nat)
    requires Store.ValidRecord(durable) && i <= |calls|
    requires After(limits, durable, calls[..i]).0.fault
    ensures After(limits, durable, calls) == After(limits, durable, calls[..i])
    ensures After(limits, durable, calls).0.admissionClosed
  {
    AfterInv(limits, durable, calls[..i]);
    if i == |calls| {
      assert calls[..i] == calls;
    } else {
      var last := |calls| - 1;
      assert calls[..last][..i] == calls[..i];
      FaultIsSticky(limits, durable, calls[..last], i);
      var (s, d) := After(limits, durable, calls[..last]);
      FaultFreezes(limits, s, d, calls[last]);
    }
  }

  /**
   After any calls that came before it, the first initialization succeeds exactly when the store can be read and none
   of them reported the mission idle: such a report spoils the gate's one-shot restore, and the runtime then starts
   with a latched fault.
   */
  lemma RestoreSucceedsExactlyWhen(
      limits: Epochs.Limits, durable: Store.Record, before: seq<Call>, idle: bool, disk: Store.Disk)
    requires Store.ValidRecord(durable) && forall call :: call in before ==> !call.Initialize?
    ensures !After(limits, durable, before + [Initialize(idle, disk)]).0.fault
            <==> disk.open.None? && disk.read.None? && !disk.finishFails && SetMissionIdle(true) !in before
  {
    CallsBeforeInitialization(limits, durable, before);
    assert (before + [Initialize(idle, disk)])[..|before|] == before;
  }

  lemma {:induction false} CallsBeforeInitialization(limits: Epochs.Limits, durable: Store.Record, before: seq<Call>)
    requires forall call :: call in before ==> !call.Initialize?
    ensures var (s, d) := After(limits, durable, before);
            && d == durable && !s.initialized && !s.fault && s.record.None? && s.latest.None?
            && !s.gate.active && s.gate.lastGeneration == 0
            && (s.gate.pristine <==> SetMissionIdle(true) !in before)
            && (s.gate.pristine ==> !s.gate.missionIdle)
  {
    if before != [] {
      var last := |before| - 1;
      CallsBeforeInitialization(limits, durable, before[..last]);
      assert before == before[..last] + [before[last]];
    }
  }

  /**
   Of the two zero frames only the second must be new: a sample received before the request, fed again by
   `RefreshHardware` while still within its lease, already counts as the first.
   */
  lemma SampleFromBeforeTheRequestCounts(s: State, durable: Store.Record, requester: string, reason: string,
                                         brake: Gate.FinalCommand, ack: Gate.CommandStatus, now: nat, timeout: nat)
    requires Inv(s, durable) && Operational(s) && !s.gate.active && s.latest.Some?
    requires durable.lastGeneration < MAX_UINT64 && EnableFieldsValid(requester, reason)
    requires var x := s.latest.value.evidence; x.epoch != 0 && Gate.SafeZero(x.(isFresh := true))
    requires StillFresh(s.latest.value.observedAt, now, timeout)
    requires var g := durable.lastGeneration + 1;
             && Gate.Matches(brake.generation, brake.requestId, brake.source, g) && Gate.SafeBrake(brake)
             && Gate.Matches(ack.generation, ack.requestId, ack.source, g)
             && ack.commandId == brake.commandId && Gate.AcknowledgingState(ack.state)
    ensures var (stored, _) := Store.Activated(durable, requester, reason, Store.HEALTHY);
            var s1 := ActivationTaken(AdmissionShut(s), requester, true, stored).0;
            var s2 := Observed(s1, Gate.Final(brake));
            var s3 := Observed(s2, Gate.Status(ack));
            HardwareRefreshed(s3, now, timeout).gate.confirmation.zeroFrames == 1
  {
    var g := durable.lastGeneration + 1;
    var (stored, _) := Store.Activated(durable, requester, reason, Store.HEALTHY);
    var s1 := ActivationTaken(AdmissionShut(s), requester, true, stored).0;
    assert Operational(s1) && s1.latest == s.latest && s1.record.Some?;
    assert s1.gate == Gate.Requested(s.gate, g, true).value;
    BrakeConfirmed(s1, brake, ack);
  }

  lemma BrakeConfirmed(s: State, brake: Gate.FinalCommand, ack: Gate.CommandStatus)
    requires Operational(s) && s.record.Some? && s.gate.active && s.gate == Gate.ClearEvidence(s.gate)
    requires Gate.Matches(brake.generation, brake.requestId, brake.source, s.gate.generation) && Gate.SafeBrake(brake)
    requires Gate.Matches(ack.generation, ack.requestId, ack.source, s.gate.generation)
    requires ack.commandId == brake.commandId && Gate.AcknowledgingState(ack.state)
    ensures var s' := Observed(Observed(s, Gate.Final(brake)), Gate.Status(ack));
            && Operational(s') && s'.latest == s.latest && s'.record == s.record
            && s'.gate == s.gate.(commandApplied := true, commandId := brake.commandId, acknowledged := true)
  {
    var s1 := Observed(s, Gate.Final(brake));
    assert s1.gate == s.gate.(commandApplied := true, commandId := brake.commandId);
  }

  // ---------------------------------------------------------------------------------------------
  // The object
  // ---------------------------------------------------------------------------------------------

  class MaintenanceRuntime {
    const store: Store.MaintenanceStore
    const gate: Gate.MaintenanceGate
    var hardwarePublishers: Epochs.PublisherEpochTracker
    var initialized: bool
    var storeFault: bool
    var admissionClosed: bool
    var record: Option<Store.Record>
    var latestHardware: Option<LatestHardware>
    var snapshot: Snapshot

    constructor (store: Store.MaintenanceStore, limits: Epochs.Limits)
      ensures this.store == store && hardwarePublishers.limits == limits
      ensures fresh(gate) && fresh(hardwarePublishers)
      ensures View() == INITIAL
    {
      this.store := store;
      gate := new Gate.MaintenanceGate();
      hardwarePublishers := new Epochs.PublisherEpochTracker(limits);
      initialized, storeFault, admissionClosed := false, false, true;
      record, latestHardware, snapshot := None, None, INITIAL_SNAPSHOT;
    }

    ghost function View(): State
      reads this, gate, hardwarePublishers
    {
      State(initialized, storeFault, admissionClosed, record, gate.View(), hardwarePublishers.View(),
            latestHardware, snapshot)
    }

    method RefreshHealthySnapshot(requester: string, reason: string)
      modifies this
      ensures View() == Refreshed(old(View()), requester, reason) && hardwarePublishers == old(hardwarePublishers)
    {
      var g := gate.TakeSnapshot();
      snapshot := Snapshot(true, false, g.gateActive, if g.gateActive then g.generation else gate.lastGeneration,
                           gate.lastGeneration, g.gateActive, g.missionIdle, g.commandGateApplied,
                           g.brakeAcknowledged, g.confirmation, g.ready, requester, reason, FromGate(g.phase));
      storeFault := false;
      admissionClosed := snapshot.admissionClosed;
    }

    method RefreshFromRecord(current: Store.Record)
      modifies this
      ensures View() == RefreshedFrom(old(View()), current) && hardwarePublishers == old(hardwarePublishers)
    {
      if current.inhibitor.Some? {
        RefreshHealthySnapshot(current.inhibitor.value.requester, current.inhibitor.value.reason);
      } else {
        RefreshHealthySnapshot("", "");
      }
    }

    method LatchStoreFault()
      modifies this
      ensures View() == FaultLatched(old(View())) && hardwarePublishers == old(hardwarePublishers)
    {
      initialized, storeFault, admissionClosed := true, true, true;
      var g := gate.TakeSnapshot();
      snapshot := Snapshot(true, true, true, if g.gateActive then g.generation else gate.lastGeneration,
                           gate.lastGeneration, g.gateActive, g.missionIdle, g.commandGateApplied,
                           g.brakeAcknowledged, g.confirmation, false, snapshot.requester, snapshot.reason,
                           StoreFault);
    }

    method RestoreAdmissionFromRecord()
      modifies this
      ensures View() == AdmissionRestored(old(View())) && hardwarePublishers == old(hardwarePublishers)
    {
      if record.Some? {
        RefreshFromRecord(record.value);
      } else {
        LatchStoreFault();
      }
    }

    method Init(idle: bool, disk: Store.Disk) returns (ok: bool)
      modifies this, gate
      ensures View() == Initialized(old(View()), idle, Store.Loaded(old(store.durable), disk))
      ensures ok == !storeFault && hardwarePublishers == old(hardwarePublishers)
    {
      if initialized {
        return !storeFault;
      }
      initialized := true;
      snapshot := snapshot.(initialized := true);
      var loaded := store.Load(disk);
      if loaded.code != Store.Ok || loaded.record.None? || !Store.ValidRecord(loaded.record.value) {
        LatchStoreFault();
        return false;
      }
      var current := loaded.record.value;
      var active := if current.inhibitor.Some? then Some(current.inhibitor.value.generation) else None;
      var restored := gate.RestorePersistentState(current.lastGeneration, active, idle);
      if !restored {
        LatchStoreFault();
        return false;
      }
      record := Some(current);
      RefreshFromRecord(current);
      return true;
    }

    method SetIdle(idle: bool)
      modifies this, gate
      ensures View() == IdleSet(old(View()), idle) && hardwarePublishers == old(hardwarePublishers)
    {
      if storeFault {
        return;
      }
      gate.SetMissionIdle(idle);
      if !initialized {
        snapshot := snapshot.(missionIdle := idle);
        return;
      }
      RefreshHealthySnapshot(snapshot.requester, snapshot.reason);
    }

    method ApplyUncertainActivation(stored: Store.Result, idle: bool)
      modifies this, gate
      ensures View() == UncertainActivation(old(View()), stored, idle)
      ensures hardwarePublishers == old(hardwarePublishers)
    {
      if !stored.committed || stored.record.None? || !Store.ValidRecord(stored.record.value)
         || stored.record.value.inhibitor.None?
      {
        return;
      }
      var generation := stored.record.value.inhibitor.value.generation;
      if !snapshot.gateActive {
        var requested := gate.RequestGeneration(generation, idle);
        if !requested {
          return;
        }
      } else if snapshot.generation != generation {
        return;
      }
      record := stored.record;
      RefreshFromRecord(stored.record.value);
    }

    method TakeActivation(requester: string, idle: bool, stored: Store.Result) returns (accepted: bool)
      modifies this, gate
      ensures (View(), accepted) == ActivationTaken(old(View()), requester, idle, stored)
      ensures hardwarePublishers == old(hardwarePublishers)
    {
      if stored.code == Store.Ok {
        if !stored.committed || stored.record.None? || !Store.ValidRecord(stored.record.value)
           || stored.record.value.inhibitor.None?
        {
          LatchStoreFault();
          return false;
        }
        var requested := gate.RequestGeneration(stored.record.value.inhibitor.value.generation, idle);
        if !requested {
          LatchStoreFault();
          return false;
        }
        record := stored.record;
        RefreshFromRecord(stored.record.value);
        return true;
      }
      if stored.code == Store.AlreadyActive {
        if stored.record.None? || !Store.ValidRecord(stored.record.value) || stored.record.value.inhibitor.None?
           || !snapshot.gateActive || stored.record.value.inhibitor.value.generation != snapshot.generation
           || stored.record.value.inhibitor.value.requester != requester
        {
          LatchStoreFault();
          return false;
        }
        record := stored.record;
        RefreshFromRecord(stored.record.value);
        return true;
      }
      if stored.committed || Store.OperationalFailure(stored.code) {
        ApplyUncertainActivation(stored, idle);
        LatchStoreFault();
        return false;
      }
      RestoreAdmissionFromRecord();
      return false;
    }

    method EnableMaintenance(requester: string, reason: string, idle: bool, disk: Store.Disk) returns (accepted: bool)
      modifies this, gate, store
      ensures (View(), store.durable, accepted)
              == Step(hardwarePublishers.limits, old(View()), old(store.durable), Enable(requester, reason, idle, disk))
      ensures hardwarePublishers == old(hardwarePublishers)
    {
      if !initialized || storeFault || !EnableFieldsValid(requester, reason) {
        return false;
      }
      admissionClosed := true;
      snapshot := snapshot.(admissionClosed := true);
      var stored := store.Activate(requester, reason, disk);
      accepted := TakeActivation(requester, idle, stored);
    }

    method TakeRelease(generation: nat, stored: Store.Result) returns (accepted: bool)
      modifies this, gate
      ensures (View(), accepted) == ReleaseTaken(old(View()), generation, stored)
      ensures hardwarePublishers == old(hardwarePublishers)
    {
      if stored.code == Store.Ok {
        if !stored.committed || stored.record.None? || !Store.ValidRecord(stored.record.value)
           || stored.record.value.inhibitor.Some? || stored.record.value.lastGeneration != generation
        {
          LatchStoreFault();
          return false;
        }
        var released := gate.ReleaseGeneration(generation);
        if !released {
          LatchStoreFault();
          return false;
        }
        record := stored.record;
        RefreshFromRecord(stored.record.value);
        return true;
      }
      if stored.committed || Store.OperationalFailure(stored.code) {
        LatchStoreFault();
        return false;
      }
      RestoreAdmissionFromRecord();
      return false;
    }

    method DisableMaintenance(generation: nat, requester: string, disk: Store.Disk) returns (accepted: bool)
      modifies this, gate, store
      ensures (View(), store.durable, accepted)
              == Step(hardwarePublishers.limits, old(View()), old(store.durable), Disable(generation, requester, disk))
      ensures hardwarePublishers == old(hardwarePublishers)
    {
      if !initialized || storeFault || generation == 0 || !Store.ValidRequester(requester) {
        return false;
      }
      admissionClosed := true;
      snapshot := snapshot.(admissionClosed := true);
      var stored := store.Release(generation, requester, disk);
      accepted := TakeRelease(generation, stored);
    }

    method ObserveFinalCommand(command: Gate.FinalCommand)
      modifies this, gate
      ensures View() == Observed(old(View()), Gate.Final(command)) && hardwarePublishers == old(hardwarePublishers)
    {
      if !initialized || storeFault {
        return;
      }
      gate.ObserveFinalCommand(command);
      RestoreAdmissionFromRecord();
    }

    method ObserveCommandStatus(status: Gate.CommandStatus)
      modifies this, gate
      ensures View() == Observed(old(View()), Gate.Status(status)) && hardwarePublishers == old(hardwarePublishers)
    {
      if !initialized || storeFault {
        return;
      }
      gate.ObserveCommandStatus(status);
      RestoreAdmissionFromRecord();
    }

    /** The candidate tracker replaces the current one only when the publisher is accepted. */
    method TakeHardware(publisher: Epochs.Identity, sample: Sample, at: nat)
      modifies this, gate
      ensures View() == HardwareTaken(old(hardwarePublishers).limits, old(View()), publisher, sample, at)
      ensures hardwarePublishers == old(hardwarePublishers) || fresh(hardwarePublishers)
      ensures hardwarePublishers.limits == old(hardwarePublishers).limits
    {
      if !initialized || storeFault {
        return;
      }
      var candidate := new Epochs.PublisherEpochTracker.Clone(hardwarePublishers);
      var observed := candidate.Observe(publisher);
      if observed.status.Retired? {
        return;
      }
      if !observed.status.Accepted? {
        gate.ObserveHardware(EvidenceOf(0, false, false, sample));
        RestoreAdmissionFromRecord();
        return;
      }
      hardwarePublishers := candidate;
      var evidence := EvidenceOf(observed.epoch, true, sample.connected, sample);
      latestHardware := Some(LatestHardware(evidence, at));
      gate.ObserveHardware(evidence);
      RestoreAdmissionFromRecord();
    }

    method RefreshLatestHardware(now: nat, timeout: nat)
      modifies this, gate
      ensures View() == HardwareRefreshed(old(View()), now, timeout) && hardwarePublishers == old(hardwarePublishers)
    {
      if !initialized || storeFault || latestHardware.None? {
        return;
      }
      var latest := latestHardware.value;
      var refreshed := latest.evidence.(isFresh := latest.observedAt <= now && now - latest.observedAt <= timeout);
      gate.ObserveHardware(refreshed);
      RestoreAdmissionFromRecord();
    }
  }
}
