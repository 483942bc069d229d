/**
 The FAILED record that does not name the link: traces of effects, in the order the operations cause them, that keep
 every guarantee and end that way, with maintenance still held or already given back.
 */
module UpdateWitnesses {
  import opened Wrappers
  import opened UpdateWorlds
  import opened Updater

  /** A trace with what it amounts to and where it ends. */
  datatype History = History(trace: seq<Event>, monitor: Monitor, at: Point)

  ghost predicate Faithful(operation: Operation, start: Point, h: History) {
    && h.monitor == Watch(h.trace) && Kept(operation, start, h.trace)
    && h.at == End(Session(start, h.trace, Failure))
  }

  function Then(h: History, e: Effect, at: Point): History {
    History(h.trace + [Event(e, at)], Watched(h.monitor, e), at)
  }

  lemma ThenIsFaithful(operation: Operation, start: Point, h: History, e: Effect, at: Point)
    requires Faithful(operation, start, h) && PointOf(operation, at, Watched(h.monitor, e).synced)
    ensures Faithful(operation, start, Then(h, e, at))
  {
    assert Then(h, e, at).trace[..|h.trace|] == h.trace;
  }

  lemma Begun(operation: Operation, start: Point, ahead: Point) returns (h: History)
    requires PointOf(operation, start, true) && PointOf(operation, ahead, true)
    ensures Faithful(operation, start, h) && h.at == ahead && h.monitor == UNWATCHED
  {
    h := History([], UNWATCHED, start);
    ThenIsFaithful(operation, start, h, Wrote(ahead.persisted, true), ahead);
    h := Then(h, Wrote(ahead.persisted, true), ahead);
  }

  /** Maintenance is granted and ready, and the service is stopped. */
  lemma Stopping(operation: Operation, start: Point, before: History) returns (h: History)
    requires Faithful(operation, start, before) && before.monitor == UNWATCHED && PointOf(operation, before.at, true)
    ensures Faithful(operation, start, h) && h.at == before.at
    ensures h.monitor == UNWATCHED.(disrupted := true, held := 1, stopped := true)
  {
    h := before;
    ThenIsFaithful(operation, start, h, MaintenanceAsked(1), h.at);
    h := Then(h, MaintenanceAsked(1), h.at);
    ThenIsFaithful(operation, start, h, ReadyChecked(1, true), h.at);
    h := Then(h, ReadyChecked(1, true), h.at);
    ThenIsFaithful(operation, start, h, Stopped(true), h.at);
    h := Then(h, Stopped(true), h.at);
  }

  /** The link is moved and the service started, but found unhealthy; `checking` is the record that announces it. */
  lemma Unhealthy(operation: Operation, start: Point, before: History, link: Release, checking: UpdateState)
    returns (h: History)
    requires Faithful(operation, start, before) && before.monitor.stopped && before.monitor.held == 1
    requires before.monitor.offline && before.monitor.sheltered && before.monitor.guarded && before.monitor.honest
    requires before.monitor.moves == 0
    requires PointOf(operation, Point(link, before.at.persisted), true)
    requires PointOf(operation, Point(link, checking), true)
    ensures Faithful(operation, start, h) && h.at == Point(link, checking)
    ensures h.monitor.held == 1 && h.monitor.moves == 1
    ensures h.monitor.offline && h.monitor.sheltered && h.monitor.guarded && h.monitor.honest
  {
    var moved := Point(link, before.at.persisted);
    var switched := SwitchTried(link, Switched(before.at.link, Some(before.at.link)));
    ThenIsFaithful(operation, start, before, switched, moved);
    h := Then(before, switched, moved);
    ThenIsFaithful(operation, start, h, Started(true), moved);
    h := Then(h, Started(true), moved);
    ThenIsFaithful(operation, start, h, Wrote(checking, true), Point(link, checking));
    h := Then(h, Wrote(checking, true), Point(link, checking));
    ThenIsFaithful(operation, start, h, HealthChecked(false), h.at);
    h := Then(h, HealthChecked(false), h.at);
  }

  /** The link cannot be moved back, and the failure is recorded. */
  lemma Stuck(operation: Operation, start: Point, before: History, failed: UpdateState) returns (h: History)
    requires Faithful(operation, start, before) && before.monitor.held == 1 && before.monitor.moves == 1
    requires before.monitor.offline && before.monitor.sheltered && before.monitor.guarded && before.monitor.honest
    requires PointOf(operation, before.at, true) && PointOf(operation, Point(before.at.link, failed), true)
    ensures Faithful(operation, start, h) && h.at == Point(before.at.link, failed)
    ensures h.monitor.held == 1 && h.monitor.moves == 1
    ensures h.monitor.offline && h.monitor.sheltered && h.monitor.guarded && h.monitor.honest
  {
    ThenIsFaithful(operation, start, before, Stopped(true), before.at);
    h := Then(before, Stopped(true), before.at);
    ThenIsFaithful(operation, start, h, SwitchTried(start.link, NotSwitched), before.at);
    h := Then(h, SwitchTried(start.link, NotSwitched), before.at);
    var end := Point(before.at.link, failed);
    ThenIsFaithful(operation, start, h, Wrote(end.persisted, true), end);
    h := Then(h, Wrote(end.persisted, true), end);
  }

  /** The link is moved, but the directory sync fails; the service is started, now on `link`, and confirmed. */
  lemma Unnoticed(operation: Operation, start: Point, before: History, link: Release) returns (h: History)
    requires Faithful(operation, start, before) && before.monitor.stopped && before.monitor.held == 1
    requires before.monitor.offline && before.monitor.sheltered && before.monitor.guarded && before.monitor.honest
    requires before.monitor.moves == 0 && PointOf(operation, Point(link, before.at.persisted), false)
    ensures Faithful(operation, start, h) && h.at == Point(link, before.at.persisted)
    ensures h.monitor.healthy && h.monitor.ready == 1 && h.monitor.moves == 1 && !h.monitor.synced
    ensures h.monitor.offline && h.monitor.sheltered && h.monitor.guarded && h.monitor.honest
  {
    var moved := Point(link, before.at.persisted);
    var unsynced := SwitchTried(link, Unsynced(before.at.link));
    ThenIsFaithful(operation, start, before, unsynced, moved);
    h := Then(before, unsynced, moved);
    ThenIsFaithful(operation, start, h, Started(true), moved);
    h := Then(h, Started(true), moved);
    ThenIsFaithful(operation, start, h, HealthChecked(true), moved);
    h := Then(h, HealthChecked(true), moved);
    ThenIsFaithful(operation, start, h, ReadyChecked(1, true), moved);
    h := Then(h, ReadyChecked(1, true), moved);
  }

  /** Maintenance is given back, and the failure recorded. */
  lemma GivenBack(operation: Operation, start: Point, before: History, failed: UpdateState) returns (h: History)
    requires Faithful(operation, start, before) && before.monitor.healthy && before.monitor.ready == 1
    requires before.monitor.moves == 1 && !before.monitor.synced
    requires before.monitor.offline && before.monitor.sheltered && before.monitor.guarded && before.monitor.honest
    requires PointOf(operation, before.at, false) && PointOf(operation, Point(before.at.link, failed), false)
    ensures Faithful(operation, start, h) && h.at == Point(before.at.link, failed)
    ensures h.monitor.held == 0 && h.monitor.moves == 1 && !h.monitor.synced
    ensures h.monitor.offline && h.monitor.sheltered && h.monitor.guarded && h.monitor.honest
  {
    ThenIsFaithful(operation, start, before, ReleaseAsked(1, true), before.at);
    h := Then(before, ReleaseAsked(1, true), before.at);
    var end := Point(before.at.link, failed);
    ThenIsFaithful(operation, start, h, Wrote(end.persisted, true), end);
    h := Then(h, Wrote(end.persisted, true), end);
  }

  ghost predicate Guaranteed(trace: seq<Event>) {
    ReleaseGuarded(trace) && Sheltered(trace) && SwitchedOffline(trace)
  }

  lemma MonitoredIsGuaranteed(trace: seq<Event>)
    requires Watch(trace).guarded && Watch(trace).sheltered && Watch(trace).offline
    ensures Guaranteed(trace)
  {
    GuardMeansGuarded(trace);
    ShelterMeansSheltered(trace);
    OfflineMeansOffline(trace);
  }

  /**
   An apply whose new release is unhealthy and whose switch back fails: every guarantee is kept, FAILED is recorded with
   the old release current, the link is at the new one, and maintenance is still held.
   */
  lemma FailedApplyCanKeepTheNewLink(s: UpdateState) returns (x: Session)
    requires s.phase.Staged? && s.current != s.staged
    ensures ApplySession(s, x) && Guaranteed(x.trace) && Watch(x.trace).honest
    ensures End(x) == Point(s.staged, UpdateState(s.current, s.previous, s.staged, Phase.Failed))
    ensures Watch(x.trace).moves == 1 && Watch(x.trace).held != 0
  {
    var operation, start := Apply(s), Point(s.current, s);
    var h := Begun(operation, start, Point(s.current, s.(phase := Phase.Applying)));
    h := Stopping(operation, start, h);
    ThenIsFaithful(operation, start, h, Installed(true), h.at);
    h := Then(h, Installed(true), h.at);
    h := Unhealthy(operation, start, h, s.staged, UpdateState(s.staged, s.current, s.staged, HealthCheck));
    var rolling := Point(s.staged, UpdateState(s.staged, s.current, s.staged, RollingBack));
    ThenIsFaithful(operation, start, h, Wrote(rolling.persisted, true), rolling);
    h := Then(h, Wrote(rolling.persisted, true), rolling);
    h := Stuck(operation, start, h, UpdateState(s.current, s.previous, s.staged, Phase.Failed));
    x := Session(start, h.trace, Failure);
    MonitoredIsGuaranteed(x.trace);
  }

  /** The same for a rollback: FAILED is recorded with the release it left, and the link is at the previous one. */
  lemma FailedRollbackCanKeepThePreviousLink(s: UpdateState) returns (x: Session)
    requires (s.phase.Idle? || s.phase.Failed?) && s.current != s.previous
    ensures RollbackSession(s, x) && Guaranteed(x.trace)
    ensures End(x) == Point(s.previous, UpdateState(s.current, s.previous, s.staged, Phase.Failed))
    ensures Watch(x.trace).moves == 1 && Watch(x.trace).held != 0
  {
    var operation, start := Rollback(s), Point(s.current, s);
    var h := History([], UNWATCHED, start);
    ThenIsFaithful(operation, start, h, Resolved(true), start);
    h := Then(h, Resolved(true), start);
    ThenIsFaithful(operation, start, h, Resolved(true), start);
    h := Then(h, Resolved(true), start);
    var ahead := Point(s.current, UpdateState(s.current, s.previous, s.staged, RollingBack));
    ThenIsFaithful(operation, start, h, Wrote(ahead.persisted, true), ahead);
    h := Then(h, Wrote(ahead.persisted, true), ahead);
    h := Stopping(operation, start, h);
    h := Unhealthy(operation, start, h, s.previous, UpdateState(s.previous, s.current, s.staged, HealthCheck));
    h := Stuck(operation, start, h, UpdateState(s.current, s.previous, s.staged, Phase.Failed));
    x := Session(start, h.trace, Failure);
    MonitoredIsGuaranteed(x.trace);
  }

  /**
   An apply whose switch is taken for a failure: every guarantee is kept, the vehicle runs the new release and has been
   given back, and FAILED names the old one as current.
   */
  lemma FailedApplyCanRunTheNewRelease(s: UpdateState) returns (x: Session)
    requires s.phase.Staged? && s.current != s.staged
    ensures ApplySession(s, x) && Guaranteed(x.trace) && Watch(x.trace).honest
    ensures End(x) == Point(s.staged, UpdateState(s.current, s.previous, s.staged, Phase.Failed))
    ensures Watch(x.trace).moves == 1 && Watch(x.trace).held == 0 && !Watch(x.trace).synced
  {
    var operation, start := Apply(s), Point(s.current, s);
    var h := Begun(operation, start, Point(s.current, s.(phase := Phase.Applying)));
    h := Stopping(operation, start, h);
    ThenIsFaithful(operation, start, h, Installed(true), h.at);
    h := Then(h, Installed(true), h.at);
    h := Unnoticed(operation, start, h, s.staged);
    h := GivenBack(operation, start, h, UpdateState(s.current, s.previous, s.staged, Phase.Failed));
    x := Session(start, h.trace, Failure);
    MonitoredIsGuaranteed(x.trace);
  }

  /**
   A recovery whose switch is taken for a failure: the vehicle runs the recovery target and has been given back, and the
   settled record, which no further recovery touches, names the release it was to be recovered from.
   */
  lemma RecoveryCanMisnameTheLink(start: Point) returns (x: Session)
    requires Interrupted(start.persisted)
    requires start.link != RecoveryTarget(start.persisted) && RecoveryTarget(start.persisted) != ""
    ensures x.start == start && RecoverSession(x) && Guaranteed(x.trace)
    ensures End(x) == Point(RecoveryTarget(start.persisted), Settled(start.persisted, start.link, start.link))
    ensures Watch(x.trace).held == 0 && !Watch(x.trace).synced
  {
    var s := start.persisted;
    var operation := Recover(s, start.link);
    var h := History([], UNWATCHED, start);
    ThenIsFaithful(operation, start, h, Resolved(true), start);
    h := Then(h, Resolved(true), start);
    ThenIsFaithful(operation, start, h, Resolved(true), start);
    h := Then(h, Resolved(true), start);
    h := Stopping(operation, start, h);
    h := Unnoticed(operation, start, h, RecoveryTarget(s));
    h := GivenBack(operation, start, h, Settled(s, start.link, start.link));
    x := Session(start, h.trace, Failure);
    MonitoredIsGuaranteed(x.trace);
  }
}
