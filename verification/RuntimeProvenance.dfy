/**
 The runtime only ever drives its gate by the calls it receives, so "ready" in the published snapshot
 stands on the evidence found in those calls.
 */
module RuntimeProvenance {
  import opened Wrappers
  import opened MaintenanceRuntimes
  import Gate = MaintenanceGates
  import Store = MaintenanceStores
  import Epochs = PublisherEpoch
  import Proof = ReadyProvenance

  /** The gate event, if any, that a call causes. */
  function Fed(limits: Epochs.Limits, s: State, durable: Store.Record, call: Call): Option<Gate.Event> {
    match call
    case Initialize(idle, disk) =>
      var loaded := Store.Loaded(durable, disk);
      if s.initialized || loaded.code != Store.Ok || loaded.record.None? then None
      else
        var active := if durable.inhibitor.Some? then Some(durable.inhibitor.value.generation) else None;
        Some(Gate.Restore(durable.lastGeneration, active, idle))
    case SetMissionIdle(idle) => if s.fault then None else Some(Gate.Idle(idle))
    case Enable(requester, reason, idle, disk) =>
      var (stored, _) := Store.Activated(durable, requester, reason, disk);
      if !Operational(s) || !EnableFieldsValid(requester, reason) || !stored.committed then None
      else Some(Gate.Request(durable.lastGeneration + 1, idle))
    case Disable(generation, requester, disk) =>
      var (stored, _) := Store.Released(durable, generation, requester, disk);
      if !Operational(s) || generation == 0 || !Store.ValidRequester(requester) || stored.code != Store.Ok then None
      else Some(Gate.Release(generation))
    case ObserveFinal(command) => if Operational(s) then Some(Gate.Final(command)) else None
    case ObserveStatus(status) => if Operational(s) then Some(Gate.Status(status)) else None
    case ObserveHardware(publisher, sample, at) =>
      var (_, observed) := Epochs.Observed(limits, s.publishers, publisher);
      if !Operational(s) || observed.status.Retired? then None
      else if observed.status.Accepted? then Some(Gate.Frame(EvidenceOf(observed.epoch, true, sample.connected, sample)))
      else Some(Gate.Frame(EvidenceOf(0, false, false, sample)))
    case RefreshHardware(now, timeout) =>
      if !Operational(s) || s.latest.None? then None
      else Some(Gate.Frame(s.latest.value.evidence.(
          isFresh := s.latest.value.observedAt <= now <= s.latest.value.observedAt + timeout)))
  }

  ghost predicate Feeds(s: State, s': State, e: Option<Gate.Event>) {
    s'.latest == s.latest && s'.gate == if e.Some? then Gate.Step(s.gate, e.value) else s.gate
  }

  lemma RefusedFeedsNothing(s: State, requester: string, idle: bool, stored: Store.Result)
    requires !stored.committed
    ensures Feeds(s, ActivationTaken(s, requester, idle, stored).0, None)
  {
  }

  lemma CommittedFeedsRequest(s: State, durable: Store.Record, requester: string, reason: string, idle: bool,
                              stored: Store.Result)
    requires Inv(s, durable) && Operational(s) && durable.inhibitor.None? && durable.lastGeneration < MAX_UINT64
    requires EnableFieldsValid(requester, reason) && stored.committed && stored.code != Store.AlreadyActive
    requires stored.record == Some(Store.Activation(durable, requester, reason))
    requires stored.code == Store.Ok || Store.OperationalFailure(stored.code)
    ensures Feeds(s, ActivationTaken(AdmissionShut(s), requester, idle, stored).0,
                  Some(Gate.Request(durable.lastGeneration + 1, idle)))
  {
  }

  lemma EnableFeeds(limits: Epochs.Limits, s: State, durable: Store.Record, call: Call)
    requires Inv(s, durable) && call.Enable? && Operational(s) && EnableFieldsValid(call.requester, call.reason)
    ensures Feeds(s, Step(limits, s, durable, call).0, Fed(limits, s, durable, call))
  {
    var (stored, durable') := Store.Activated(durable, call.requester, call.reason, call.disk);
    if stored.committed {
      CommittedFeedsRequest(s, durable, call.requester, call.reason, call.idle, stored);
    } else {
      RefusedFeedsNothing(AdmissionShut(s), call.requester, call.idle, stored);
    }
  }

  lemma DisableFeeds(limits: Epochs.Limits, s: State, durable: Store.Record, call: Call)
    requires Inv(s, durable) && call.Disable?
    ensures Feeds(s, Step(limits, s, durable, call).0, Fed(limits, s, durable, call))
  {
  }

  /** The sample a call leaves to be fed again: the last one of an accepted publisher, with the time it came. */
  function Kept(limits: Epochs.Limits, s: State, call: Call, before: Option<LatestHardware>): Option<LatestHardware> {
    if !call.ObserveHardware? || !Operational(s) then before
    else
      var (_, observed) := Epochs.Observed(limits, s.publishers, call.publisher);
      if !observed.status.Accepted? then before
      else Some(LatestHardware(EvidenceOf(observed.epoch, true, call.sample.connected, call.sample), call.at))
  }

  /** A call changes the gate by exactly the event it feeds, and remembers only a sample it was given. */
  lemma CallFeeds(limits: Epochs.Limits, s: State, durable: Store.Record, call: Call)
    requires Inv(s, durable)
    ensures var s' := Step(limits, s, durable, call).0;
            var e := Fed(limits, s, durable, call);
            && s'.gate == (if e.Some? then Gate.Step(s.gate, e.value) else s.gate)
            && s'.latest == Kept(limits, s, call, s.latest)
  {
    if call.Enable? && Operational(s) && EnableFieldsValid(call.requester, call.reason) {
      EnableFeeds(limits, s, durable, call);
    } else if call.Disable? {
      DisableFeeds(limits, s, durable, call);
    }
  }

  /** All events the calls feed, in the order of the calls. */
  function AllFed(limits: Epochs.Limits, durable: Store.Record, calls: seq<Call>): seq<Gate.Event> {
    if calls == [] then []
    else
      var before, call := calls[..|calls| - 1], calls[|calls| - 1];
      var (s, d) := After(limits, durable, before);
      var e := Fed(limits, s, d, call);
      AllFed(limits, durable, before) + if e.Some? then [e.value] else []
  }

  /** The sample the calls leave to be fed again. */
  function LastKept(limits: Epochs.Limits, durable: Store.Record, calls: seq<Call>): Option<LatestHardware> {
    if calls == [] then None
    else
      var before, call := calls[..|calls| - 1], calls[|calls| - 1];
      Kept(limits, After(limits, durable, before).0, call, LastKept(limits, durable, before))
  }

  /**
   The gate is what the calls fed it, in their order: each observation once and as it was given, each request by the
   enable that committed it, and on every refresh the last accepted sample with its freshness at that moment.
   */
  lemma {:induction false} GateHistory(limits: Epochs.Limits, durable: Store.Record, calls: seq<Call>)
    requires Store.ValidRecord(durable)
    ensures After(limits, durable, calls).0.gate == Gate.After(AllFed(limits, durable, calls))
    ensures After(limits, durable, calls).0.latest == LastKept(limits, durable, calls)
  {
    if calls != [] {
      var before, call := calls[..|calls| - 1], calls[|calls| - 1];
      GateHistory(limits, durable, before);
      AfterInv(limits, durable, before);
      var (s, d) := After(limits, durable, before);
      CallFeeds(limits, s, d, call);
      var h, e := AllFed(limits, durable, before), Fed(limits, s, d, call);
      assert e.Some? ==> (h + [e.value])[..|h|] == h;
      assert e.None? ==> AllFed(limits, durable, calls) == h;
    }
  }

  /**
   Over every run of the runtime and every disk behaviour: a snapshot that shows "ready" has the full evidence for the
   generation shown in what its own calls fed the gate, in their order.
   */
  lemma ReadySnapshotNeedsEvidence(limits: Epochs.Limits, durable: Store.Record, calls: seq<Call>)
    requires Store.ValidRecord(durable)
    requires After(limits, durable, calls).0.snapshot.ready
    ensures exists w ::
              Proof.Evidence(AllFed(limits, durable, calls), After(limits, durable, calls).0.snapshot.generation, w)
  {
    GateHistory(limits, durable, calls);
    FailClosed(limits, durable, calls);
    Proof.ReadyNeedsEvidence(AllFed(limits, durable, calls));
  }
}
