/**
 The update transaction: apply a staged release, roll back to the previous one, recover an interrupted transition.
 Every effect may fail; each method says what its trace amounts to and what it leaves on disk.
 */
module Updater {
  import opened Wrappers
  import opened UpdateWorlds

  datatype Attempts = Attempts(readiness: nat, health: nat)

  /** `Rejected`: refused before any effect; `Failure`: an error was raised; `Done`: the state returned. */
  datatype Outcome = Rejected | Failure | Done(state: UpdateState)

  function Settled(s: UpdateState, active: Release, actual: Release): UpdateState {
    UpdateState(active, actual, s.staged, Failed)
  }

  /** One run of an operation, from `start` until it returned or the process died. */
  datatype Session = Session(start: Point, trace: seq<Event>, outcome: Outcome)

  function End(x: Session): Point {
    if x.trace == [] then x.start else x.trace[|x.trace| - 1].point
  }

  predicate ApplySession(s: UpdateState, x: Session) {
    x.start == Point(s.current, s) && Kept(Apply(s), x.start, x.trace)
  }

  predicate RollbackSession(s: UpdateState, x: Session) {
    x.start == Point(s.current, s) && Kept(Rollback(s), x.start, x.trace)
  }

  predicate RecoverSession(x: Session) {
    var s := x.start.persisted;
    && Kept(Recover(s, x.start.link), x.start, x.trace)
    && (!Interrupted(s) ==> x.trace == [])
    && (Interrupted(s) && x.outcome.Done? ==>
          End(x) == Point(RecoveryTarget(s), Settled(s, RecoveryTarget(s), x.start.link)))
  }

  predicate ReleaseCharacter(c: char, first: bool) {
    || 'A' <= c <= 'Z' || 'a' <= c <= 'z' || '0' <= c <= '9'
    || (!first && (c == '.' || c == '_' || c == '-'))
  }

  predicate ValidRelease(name: Release) {
    0 < |name| <= 64 && forall i :: 0 <= i < |name| ==> ReleaseCharacter(name[i], i == 0)
  }

  /** What every operation guarantees of its trace, whatever fails. */
  ghost predicate Safe(world: World)
    reads world
  {
    && world.Valid()
    && world.monitor.guarded && world.monitor.sheltered && world.monitor.offline
  }

  /** Nothing but the trace differs from the given state of the world. */
  twostate predicate Untouched(world: World)
    reads world
  {
    && Safe(world) && world.Here() == old(world.Here())
    && (world.kept <==> old(world.kept))
  }

  predicate Tries(a: Attempts) { a.readiness > 0 && a.health > 0 }

  /** Where nothing more failed, it went well; and what failed first stays the first failure. */
  twostate predicate Went(world: World, ok: bool, tries: bool)
    reads world
  {
    && old(world.trace) <= world.trace
    && Failures(world.tally) >= Failures(old(world.tally))
    && (tries && Failures(world.tally) == Failures(old(world.tally)) ==> ok)
    && (FirstFailure(old(world.tally)).Some? ==> FirstFailure(world.tally) == FirstFailure(old(world.tally)))
  }

  // ---------------------------------------------------------------------------------------------
  // Checks
  // ---------------------------------------------------------------------------------------------

  /** A check that failed is forgotten when it is retried, and counted again when that fails. */
  lemma Rechecked(t: Tally, bad: Effect, good: Effect)
    requires t.pending.None? && IsCheck(bad) && Fails(bad) && !Fails(good) && Retries(bad, good)
    ensures Counted(t, bad) == t.(pending := Some(bad)) && Counted(t.(pending := Some(bad)), bad) == Counted(t, bad)
    ensures Counted(t, good) == t && Counted(t.(pending := Some(bad)), good) == t
  {
  }

  /** The last event answered true, or nothing did. */
  method RetryReady(world: World, token: nat, attempts: nat) returns (ok: bool)
    requires Safe(world) && world.tally.pending.None?
    modifies world
    ensures Untouched(world) && old(world.trace) <= world.trace
    ensures world.monitor == if ok then old(world.monitor).(ready := token, held := token) else old(world.monitor)
    ensures |world.trace| <= |old(world.trace)| + attempts
    ensures ok ==> world.tally == old(world.tally) && world.achieved == old(world.achieved) + [ReadyChecked(token, true)]
    ensures !ok ==>
      && world.achieved == old(world.achieved)
      && (attempts == 0 ==> world.tally == old(world.tally))
      && (attempts > 0 ==>
            world.tally == old(world.tally).(pending := Some(ReadyChecked(token, false))))
  {
    hide Watch, Count, Counted, Achieved, Kept, PointOf;
    Rechecked(world.tally, ReadyChecked(token, false), ReadyChecked(token, true));
    ok := false;
    var attempt := 0;
    while attempt < attempts
      invariant attempt <= attempts && |world.trace| == |old(world.trace)| + attempt
      invariant Untouched(world) && old(world.trace) <= world.trace && world.monitor == old(world.monitor)
      invariant world.achieved == old(world.achieved)
      invariant world.tally ==
                  if attempt == 0 then old(world.tally) else old(world.tally).(pending := Some(ReadyChecked(token, false)))
    {
      var answer := world.CheckReady(token);
      if answer.None? {
        return false;
      }
      if answer.value {
        return true;
      }
      attempt := attempt + 1;
    }
  }

  method RetryHealth(world: World, attempts: nat) returns (ok: bool)
    requires Safe(world) && world.tally.pending.None?
    modifies world
    ensures Untouched(world) && old(world.trace) <= world.trace
    ensures world.monitor == if ok then old(world.monitor).(healthy := true) else old(world.monitor)
    ensures |world.trace| <= |old(world.trace)| + attempts
    ensures ok ==> world.tally == old(world.tally) && world.achieved == old(world.achieved) + [HealthChecked(true)]
    ensures !ok ==>
      && world.achieved == old(world.achieved)
      && (attempts == 0 ==> world.tally == old(world.tally))
      && (attempts > 0 ==>
            world.tally == old(world.tally).(pending := Some(HealthChecked(false))))
  {
    hide Watch, Count, Counted, Achieved, Kept, PointOf;
    Rechecked(world.tally, HealthChecked(false), HealthChecked(true));
    ok := false;
    var attempt := 0;
    while attempt < attempts
      invariant attempt <= attempts && |world.trace| == |old(world.trace)| + attempt
      invariant Untouched(world) && old(world.trace) <= world.trace && world.monitor == old(world.monitor)
      invariant world.achieved == old(world.achieved)
      invariant world.tally ==
                  if attempt == 0 then old(world.tally) else old(world.tally).(pending := Some(HealthChecked(false)))
    {
      var answer := world.CheckHealth();
      if answer.None? {
        return false;
      }
      if answer.value {
        return true;
      }
      attempt := attempt + 1;
    }
  }

  /** The running service is confirmed: healthy, and ready for `token`. */
  method Confirm(world: World, token: nat, attempts: Attempts) returns (ok: bool)
    requires Safe(world) && world.tally.pending.None?
    modifies world
    ensures Untouched(world) && Went(world, ok, Tries(attempts))
    ensures ok ==>
      && world.tally == old(world.tally)
      && world.achieved == old(world.achieved) + [HealthChecked(true), ReadyChecked(token, true)]
    ensures !ok && Tries(attempts) ==>
      world.tally != old(world.tally)
    ensures !ok ==>
      || world.tally == old(world.tally)
      || world.tally == old(world.tally).(pending := Some(ReadyChecked(token, false)))
      || world.tally == old(world.tally).(pending := Some(HealthChecked(false)))
    ensures if ok then world.monitor == old(world.monitor).(healthy := true, ready := token, held := token)
            else world.monitor == old(world.monitor).(healthy := world.monitor.healthy)
  {
    hide Watch, Count, Achieved, Kept, PointOf;
    ok := RetryHealth(world, attempts.health);
    if ok {
      ok := RetryReady(world, token, attempts.readiness);
    }
  }

  method StartAndConfirm(world: World, token: nat, attempts: Attempts) returns (ok: bool)
    requires Safe(world) && world.monitor.held == token != 0
    modifies world
    ensures Untouched(world) && Went(world, ok, Tries(attempts))
    ensures |old(world.trace)| < |world.trace| && world.trace[|old(world.trace)|].effect.Started?
    ensures !world.monitor.stopped
    ensures world.monitor.held == token && world.monitor.disrupted
    ensures ok ==> world.monitor.healthy && world.monitor.ready == token
    ensures world.monitor.moves == old(world.monitor).moves && world.monitor.honest == old(world.monitor).honest
    ensures world.monitor.installed == old(world.monitor).installed && world.monitor.lost == old(world.monitor).lost
    ensures world.monitor.synced == old(world.monitor).synced
  {
    hide Watch, Count, Achieved, Kept, PointOf;
    ok := world.StartService();
    if ok {
      ok := Confirm(world, token, attempts);
    }
  }

  /** From `at` on: the service is stopped, the link pointed at `target`, the service started, up to what failed. */
  ghost predicate Reverts(trace: seq<Event>, at: nat, target: Release) {
    && at < |trace| && trace[at].effect.Stopped?
    && (trace[at].effect.ok ==>
          && at + 1 < |trace| && trace[at + 1].effect.SwitchTried? && trace[at + 1].effect.target == target
          && (trace[at + 1].effect.switching.Switched? ==> at + 2 < |trace| && trace[at + 2].effect.Started?))
  }

  /** With the service stopped: point the link back at `target`, start and confirm. */
  method PointBack(world: World, target: Release, token: nat, attempts: Attempts) returns (ok: bool)
    requires Safe(world) && world.monitor.held == token != 0 && world.monitor.stopped && world.monitor.disrupted
    modifies world
    ensures Safe(world) && world.persisted == old(world.persisted) && Went(world, ok, Tries(attempts))
    ensures
      var n := |old(world.trace)|;
      && n < |world.trace| && world.trace[n].effect.SwitchTried? && world.trace[n].effect.target == target
      && (world.trace[n].effect.switching.Switched? ==> n + 1 < |world.trace| && world.trace[n + 1].effect.Started?)
    ensures ok ==> !world.monitor.stopped
    ensures old(world.kept) && PointOf(world.operation, Point(target, world.persisted), true) ==> world.kept
    ensures world.monitor.held == token && world.monitor.disrupted
    ensures ok ==> world.monitor.healthy && world.monitor.ready == token && world.link == target
    ensures || (world.link == target && world.monitor.moves == old(world.monitor).moves + 1)
            || (world.link == old(world.link) && world.monitor.moves == old(world.monitor).moves && !ok
                && world.monitor.synced == old(world.monitor).synced)
    ensures world.monitor.honest ==> old(world.monitor).honest
    ensures world.monitor.installed == old(world.monitor).installed
    ensures old(world.monitor).moves > 0 ==> world.monitor.lost == old(world.monitor).lost
  {
    hide Watch, Count, Achieved, Kept;
    var switching := world.Switch(target);
    ok := switching.Switched?;
    if ok {
      ok := StartAndConfirm(world, token, attempts);
    }
  }

  /** Stop, point the link back at `target`, start and confirm. */
  method SwitchBack(world: World, target: Release, token: nat, attempts: Attempts) returns (ok: bool)
    requires Safe(world) && world.monitor.held == token != 0
    modifies world
    ensures Safe(world) && world.persisted == old(world.persisted)
    ensures Went(world, ok, Tries(attempts)) && Reverts(world.trace, |old(world.trace)|, target)
    ensures ok ==> !world.monitor.stopped
    ensures old(world.kept) && PointOf(world.operation, Point(target, world.persisted), true) ==> world.kept
    ensures world.monitor.held == token && world.monitor.disrupted
    ensures ok ==> world.monitor.healthy && world.monitor.ready == token && world.link == target
    ensures || (world.link == target && world.monitor.moves == old(world.monitor).moves + 1)
            || (world.link == old(world.link) && world.monitor.moves == old(world.monitor).moves && !ok
                && world.monitor.synced == old(world.monitor).synced)
    ensures world.monitor.honest ==> old(world.monitor).honest
    ensures world.monitor.installed == old(world.monitor).installed
    ensures old(world.monitor).moves > 0 ==> world.monitor.lost == old(world.monitor).lost
  {
    hide Watch, Count, Achieved, Kept;
    ok := world.StopService();
    if ok {
      ok := PointBack(world, target, token, attempts);
    }
  }

  /** Where a failed attempt stands. */
  datatype Progress = Progress(
    token: nat, stopped: bool, disrupted: bool, switched: bool, rollbackUnavailable: bool, released: bool,
    previous: Option<Release>)

  const NO_PROGRESS := Progress(0, false, false, false, false, false, None)

  /** Ask for maintenance, wait until it is ready, stop the service: how every operation begins. */
  method EnterMaintenance(world: World, attempts: Attempts) returns (ok: bool, p: Progress)
    requires Safe(world) && world.monitor == UNWATCHED && world.tally == NO_FAILURE
    modifies world
    ensures Untouched(world) && old(world.trace) <= world.trace
    ensures ok ==>
      && world.tally == NO_FAILURE
      && world.achieved == old(world.achieved) + EnterSteps(p.token)
    ensures !ok && Tries(attempts) ==>
      Failures(world.tally) == 1 && FirstFailure(world.tally) == Some(world.trace[|world.trace| - 1].effect)
    ensures !ok ==>
      FirstFailure(world.tally) ==
        if p.token == 0 then Some(MaintenanceAsked(0))
        else if p.disrupted then Some(Stopped(false))
        else if attempts.readiness > 0 then Some(ReadyChecked(p.token, false)) else None
    ensures p.disrupted ==> world.tally.pending.None?
    ensures p.token == 0 ==> world.monitor.held == 0
    ensures world.monitor.stopped ==> p.stopped
    ensures p == NO_PROGRESS.(token := p.token, stopped := ok, disrupted := p.disrupted)
    ensures p.disrupted == world.monitor.disrupted && (p.disrupted ==> world.monitor.held == p.token != 0)
    ensures ok ==> p.disrupted && world.monitor.stopped
    ensures world.monitor.moves == 0 && !world.monitor.installed
    ensures world.monitor.honest && world.monitor.synced && !world.monitor.lost
  {
    hide Watch, Count, Achieved, Kept, PointOf;
    ok, p := false, NO_PROGRESS;
    var token := world.EnableMaintenance();
    if token == 0 {
      return;
    }
    p := p.(token := token);
    ok := RetryReady(world, token, attempts.readiness);
    if !ok {
      return;
    }
    ok := world.StopService();
    p := p.(disrupted := true, stopped := ok);
  }

  /** The service, stopped or perhaps stopped, with the link left alone: started if need be, and confirmed. */
  method Restart(world: World, p: Progress, attempts: Attempts) returns (safe: bool)
    requires Safe(world) && p.disrupted == world.monitor.disrupted
    requires (p.stopped ==> p.disrupted) && (p.disrupted ==> world.monitor.held == p.token != 0)
    requires p.disrupted && !p.stopped ==> world.tally.pending.None?
    requires world.monitor.stopped ==> p.stopped
    modifies world
    ensures Went(world, safe, Tries(attempts)) && !world.monitor.stopped
    ensures p.stopped ==> |old(world.trace)| < |world.trace| && world.trace[|old(world.trace)|].effect.Started?
    ensures !p.disrupted ==> safe && world.monitor == old(world.monitor)
    ensures Untouched(world) && world.monitor.disrupted == old(world.monitor).disrupted
    ensures world.monitor.disrupted ==> world.monitor.held == p.token
    ensures safe && world.monitor.disrupted ==> world.monitor.healthy && world.monitor.ready == p.token
    ensures world.monitor.moves == old(world.monitor).moves && world.monitor.honest == old(world.monitor).honest
    ensures world.monitor.installed == old(world.monitor).installed && world.monitor.lost == old(world.monitor).lost
    ensures world.monitor.synced == old(world.monitor).synced
  {
    hide Watch, Count, Achieved, Kept, PointOf;
    if p.stopped {
      safe := StartAndConfirm(world, p.token, attempts);
    } else if p.disrupted {
      safe := Confirm(world, p.token, attempts);
    } else {
      safe := true;
    }
  }

  /** Maintenance is given back where that is safe, and the failure recorded. */
  method Conclude(world: World, token: nat, safe: bool, failed: UpdateState)
    requires Safe(world)
    requires token != 0 && safe && world.monitor.disrupted ==> world.monitor.healthy && world.monitor.ready == token
    modifies world
    ensures Safe(world) && world.link == old(world.link)
    ensures world.persisted == failed || world.persisted == old(world.persisted)
    ensures world.kept <==> old(world.kept) && PointOf(world.operation, world.Here(), world.monitor.synced)
    ensures world.monitor == old(world.monitor).(held := world.monitor.held)
    ensures world.monitor.held == old(world.monitor).held || (safe && world.monitor.held == 0)
    ensures Went(world, true, true)
    ensures Failures(world.tally) == Failures(old(world.tally)) ==>
              world.persisted == failed && (token != 0 && safe ==> world.monitor.held == 0)
  {
    hide Watch, Count, Achieved, Kept;
    if token != 0 && safe {
      var released := world.DisableMaintenance(token);
    }
    var ok := world.WriteState(failed);
  }

  // ---------------------------------------------------------------------------------------------
  // Apply
  // ---------------------------------------------------------------------------------------------

  function Applying(s: UpdateState): UpdateState { s.(phase := Phase.Applying) }

  /** An apply that fails in one of these is already in force. */
  predicate Late(failure: Option<Effect>) {
    failure.Some? && (failure.value.CleanedUp? || (failure.value.Wrote? && failure.value.next.phase.Idle?))
  }

  /** The write-ahead record of an apply or a rollback. */
  predicate Announces(e: Effect) { e.Wrote? && (e.next.phase.Applying? || e.next.phase.RollingBack?) }

  /** The attempt met one failure, in its last effect. */
  ghost predicate FailedLast(world: World)
    reads world
  {
    && Failures(world.tally) == 1 && FirstFailure(world.tally).Some? && Fails(FirstFailure(world.tally).value)
    && world.trace != [] && world.trace[|world.trace| - 1].effect == FirstFailure(world.tally).value
    && !Announces(FirstFailure(world.tally).value) && !FirstFailure(world.tally).value.Resolved?
  }

  ghost predicate ApplyStalled(world: World, s: UpdateState, link: Release, p: Progress)
    reads world
  {
    && Safe(world)
    && (p.token == 0 ==> world.monitor.held == 0)
    && (world.monitor.stopped ==> p.stopped)
    && (p.disrupted && !p.stopped && !p.switched && !p.released ==> world.tally.pending.None?)
    && (world.monitor.honest ==> (p.released <==> Late(FirstFailure(world.tally))))
    && (p.released ==> world.monitor.healthy && !p.stopped)
    && p.disrupted == world.monitor.disrupted
    && (p.token == 0 ==> !p.disrupted)
    && (p.stopped || p.switched || p.rollbackUnavailable ==> p.disrupted)
    && (p.disrupted && !p.released ==> world.monitor.held == p.token)
    && (p.released ==>
          && world.link == s.staged && p.previous.Some? && world.monitor.moves == 1 && world.monitor.held == 0
          && (|| world.persisted == UpdateState(s.staged, p.previous.value, s.staged, HealthCheck)
              || world.persisted == UpdateState(s.staged, p.previous.value, "", Idle)))
    && (p.switched && !p.released ==>
          && world.link == s.staged && p.previous.Some? && world.monitor.moves == 1
          && (|| world.persisted == Applying(s)
              || world.persisted == UpdateState(s.staged, p.previous.value, s.staged, HealthCheck)))
    && (p.rollbackUnavailable <==> world.monitor.lost)
    && (p.rollbackUnavailable ==> p.stopped && world.monitor.stopped && world.monitor.held != 0)
    && (p.rollbackUnavailable ==>
          && world.link == s.staged && world.persisted == Applying(s) && !p.switched && !p.released
          && !world.monitor.honest && world.monitor.moves == 1)
    && (!p.switched && !p.rollbackUnavailable && !p.released ==>
          && world.persisted == Applying(s)
          && if world.monitor.synced then world.link == link && world.monitor.moves == 0
             else world.link == s.staged && world.monitor.moves == 1)
    && (p.switched || p.rollbackUnavailable || p.released ==> world.monitor.synced)
    && (p.previous.Some? && world.monitor.honest ==> p.previous.value == link)
    && (world.monitor.moves != 0 ==> world.monitor.installed)
  }

  function Checking(s: UpdateState, previous: Release): UpdateState {
    UpdateState(s.staged, previous, s.staged, HealthCheck)
  }

  function Applied(s: UpdateState, previous: Release): UpdateState {
    UpdateState(s.staged, previous, "", Idle)
  }

  /** How the vehicle is taken out of service, in this order. */
  function EnterSteps(token: nat): seq<Effect> {
    [MaintenanceAsked(token), ReadyChecked(token, true), Stopped(true)]
  }

  /** How it is moved to the new release. */
  function MoveSteps(s: UpdateState, previous: Release): seq<Effect> {
    [Installed(true), SwitchTried(s.staged, Switched(previous, Some(previous))), Started(true)]
  }

  /** And how it is put into service with it. */
  function FinishSteps(s: UpdateState, token: nat, previous: Release): seq<Effect> {
    [Wrote(Checking(s, previous), true), HealthChecked(true), ReadyChecked(token, true), ReleaseAsked(token, true),
     Wrote(Applied(s, previous), true), CleanedUp(true)]
  }

  function ApplySteps(s: UpdateState, token: nat, previous: Release): seq<Effect> {
    EnterSteps(token) + MoveSteps(s, previous) + FinishSteps(s, token, previous)
  }

  /** The attempt itself: everything up to the first failure. */
  method AttemptApply(world: World, s: UpdateState, attempts: Attempts) returns (done: bool, p: Progress)
    requires Safe(world) && world.operation == Apply(s)
    requires world.persisted == Applying(s) && world.monitor == UNWATCHED && world.tally == NO_FAILURE
    modifies world
    ensures Safe(world)
    ensures done ==>
              && p.previous.Some? && (world.monitor.honest ==> p.previous.value == old(world.link))
              && world.persisted == UpdateState(s.staged, p.previous.value, "", Idle)
              && world.link == s.staged && world.monitor.installed && world.monitor.moves == 1
              && world.monitor.healthy && world.monitor.ready != 0 && world.monitor.held == 0
    ensures !done ==> ApplyStalled(world, s, old(world.link), p)
    ensures old(world.trace) <= world.trace && (done ==> !world.monitor.lost)
    ensures done && world.monitor.honest ==>
      && world.tally == NO_FAILURE && p.token != 0
      && world.achieved == old(world.achieved) + ApplySteps(s, p.token, old(world.link))
    ensures !done && world.monitor.honest && Tries(attempts) ==> FailedLast(world)
    ensures old(world.kept) && old(world.link) == s.current && world.monitor.honest ==> world.kept
  {
    hide Watch, Count, Achieved, Kept;
    var ok;
    ok, p := EnterMaintenance(world, attempts);
    if !ok {
      return false, p;
    }
    ok, p := MoveToNew(world, s, p);
    if !ok {
      return false, p;
    }
    done, p := FinishApply(world, s, old(world.link), p, attempts);
  }

  /** With the service stopped: the new release is installed, switched to, and started. */
  method MoveToNew(world: World, s: UpdateState, before: Progress) returns (ok: bool, p: Progress)
    requires Safe(world) && world.operation == Apply(s) && ApplyStalled(world, s, world.link, before)
    requires before == NO_PROGRESS.(token := before.token, stopped := true, disrupted := true) && before.token != 0
    requires world.persisted == Applying(s) && world.monitor.moves == 0 && world.monitor.honest && world.monitor.synced
    requires world.tally == NO_FAILURE && world.monitor.stopped
    modifies world
    ensures ApplyStalled(world, s, old(world.link), p)
    ensures old(world.trace) <= world.trace && world.persisted == Applying(s)
    ensures p.token == before.token && !p.released
    ensures ok ==> p.switched && !p.stopped
    ensures ok && world.monitor.honest ==>
      && world.tally == NO_FAILURE
      && world.achieved == old(world.achieved) + MoveSteps(s, old(world.link))
    ensures !ok && world.monitor.honest ==> FailedLast(world)
    ensures old(world.kept) && old(world.link) == s.current ==> world.kept
  {
    hide Watch, Count, Achieved, Kept;
    p := before;
    ok := world.Install(s.staged);
    if !ok {
      return;
    }
    var switching := world.Switch(s.staged);
    ok := switching.Switched?;
    if !ok {
      return;
    }
    p := p.(previous := switching.reported);
    if switching.reported.None? {
      return false, p.(rollbackUnavailable := true);
    }
    p := p.(switched := true);
    ok := world.StartService();
    if ok {
      p := p.(stopped := false);
    }
  }


  method FinishApply(world: World, s: UpdateState, ghost link: Release, before: Progress, attempts: Attempts)
    returns (done: bool, p: Progress)
    requires world.operation == Apply(s) && ApplyStalled(world, s, link, before)
    requires before.switched && !before.released && world.persisted == Applying(s)
    requires world.monitor.honest ==> world.tally == NO_FAILURE
    requires before.token != 0 && !before.stopped
    modifies world
    ensures Safe(world) && (world.monitor.honest <==> old(world.monitor).honest)
    ensures done ==>
              && p.previous.Some? && (world.monitor.honest ==> p.previous.value == link)
              && world.persisted == UpdateState(s.staged, p.previous.value, "", Idle)
              && world.link == s.staged && world.monitor.installed && world.monitor.moves == 1
              && world.monitor.healthy && world.monitor.ready != 0 && world.monitor.held == 0
    ensures !done ==> ApplyStalled(world, s, link, p)
    ensures world.monitor.lost == old(world.monitor).lost
    ensures old(world.trace) <= world.trace && (done ==> p.token == before.token)
    ensures done && world.monitor.honest ==>
      world.tally == NO_FAILURE && world.achieved == old(world.achieved) + FinishSteps(s, p.token, link)
    ensures !done && world.monitor.honest && Tries(attempts) ==> FailedLast(world)
    ensures old(world.kept) && link == s.current && world.monitor.honest ==> world.kept
  {
    hide Watch, Count, Achieved, Kept;
    var confirmed := CheckApplied(world, s, link, before, attempts);
    if !confirmed {
      return false, before;
    }
    done, p := ReleaseApplied(world, s, link, before);
  }

  /** The check is announced in the record, and the new release confirmed. */
  method CheckApplied(world: World, s: UpdateState, ghost link: Release, p: Progress, attempts: Attempts)
    returns (confirmed: bool)
    requires world.operation == Apply(s) && ApplyStalled(world, s, link, p)
    requires p.switched && !p.released && world.persisted == Applying(s)
    requires world.monitor.honest ==> world.tally == NO_FAILURE
    modifies world
    ensures ApplyStalled(world, s, link, p) && (world.monitor.honest <==> old(world.monitor).honest)
    ensures world.monitor.lost == old(world.monitor).lost
    ensures old(world.trace) <= world.trace
    ensures confirmed && world.monitor.honest ==>
      && world.tally == NO_FAILURE
      && world.achieved == old(world.achieved)
                           + [Wrote(Checking(s, link), true), HealthChecked(true), ReadyChecked(p.token, true)]
    ensures !confirmed && world.monitor.honest && Tries(attempts) ==> FailedLast(world)
    ensures confirmed ==>
              && world.persisted == UpdateState(s.staged, p.previous.value, s.staged, HealthCheck)
              && world.monitor.healthy && world.monitor.ready == p.token
    ensures old(world.kept) && link == s.current && world.monitor.honest ==> world.kept
  {
    hide Watch, Count, Achieved, Kept;
    confirmed := world.WriteState(UpdateState(s.staged, p.previous.value, s.staged, HealthCheck));
    if confirmed {
      confirmed := Confirm(world, p.token, attempts);
    }
  }

  /** Maintenance is given back, and the new release recorded as current. */
  method ReleaseApplied(world: World, s: UpdateState, ghost link: Release, before: Progress)
    returns (done: bool, p: Progress)
    requires world.operation == Apply(s) && ApplyStalled(world, s, link, before)
    requires before.switched && !before.released && !before.stopped
    requires world.persisted == UpdateState(s.staged, before.previous.value, s.staged, HealthCheck)
    requires world.monitor.healthy && world.monitor.ready == before.token != 0
    requires world.monitor.honest ==> world.tally == NO_FAILURE
    modifies world
    ensures Safe(world) && (world.monitor.honest <==> old(world.monitor).honest)
    ensures done ==>
              && p.previous.Some? && (world.monitor.honest ==> p.previous.value == link)
              && world.persisted == UpdateState(s.staged, p.previous.value, "", Idle)
              && world.link == s.staged && world.monitor.installed && world.monitor.moves == 1
              && world.monitor.healthy && world.monitor.ready != 0 && world.monitor.held == 0
    ensures !done ==> ApplyStalled(world, s, link, p)
    ensures world.monitor.lost == old(world.monitor).lost
    ensures old(world.trace) <= world.trace && (done ==> p.token == before.token)
    ensures done && world.monitor.honest ==>
      && world.tally == NO_FAILURE
      && world.achieved == old(world.achieved)
                           + [ReleaseAsked(p.token, true), Wrote(Applied(s, link), true), CleanedUp(true)]
    ensures !done && world.monitor.honest ==> FailedLast(world)
    ensures old(world.kept) && link == s.current && world.monitor.honest ==> world.kept
  {
    hide Watch, Count, Achieved, Kept;
    p := before;
    var ok := world.DisableMaintenance(p.token);
    if !ok {
      return false, p;
    }
    p := p.(released := true);
    ok := world.WriteState(UpdateState(s.staged, p.previous.value, "", Idle));
    if !ok {
      return false, p;
    }
    ok := world.CleanUp();
    return ok, p;
  }

  function GivenUp(s: UpdateState): UpdateState { s.(phase := Phase.Failed) }

  /**
   How a failed apply ends when nothing fails after the first failure: it is undone, or it was in force already; the
   service runs, confirmed if it was ever disturbed, and maintenance has been given back.
   */
  predicate ApplyUndone(s: UpdateState, failure: Effect, here: Point, m: Monitor) {
    if Announces(failure) then
      here.link == s.current && (here.persisted == s || here.persisted == Applying(s)) && !m.disrupted
    else
      && m.held == 0 && !m.stopped && (m.disrupted ==> m.healthy)
      && here == if Late(Some(failure)) then Point(s.staged, GivenUp(Applied(s, s.current)))
                 else Point(s.current, GivenUp(s))
  }

  /**
   Nothing is known to go back to: the service stays stopped on the new release, maintenance stays, and a FAILED record
   names that release.
   */
  ghost predicate Strands(world: World, s: UpdateState)
    reads world
  {
    && world.link == s.staged && world.monitor.stopped && world.monitor.held != 0
    && (world.persisted == Applying(s) || world.persisted == UpdateState(s.staged, s.previous, s.staged, Failed))
  }

  /** Right after `f` the rollback is announced, and the link is pointed back at `previous`, up to what failed. */
  ghost predicate WentBack(trace: seq<Event>, f: nat, s: UpdateState, previous: Release) {
    && f + 1 < |trace| && trace[f + 1].effect.Wrote?
    && trace[f + 1].effect.next == UpdateState(s.staged, previous, s.staged, RollingBack)
    && (trace[f + 1].effect.ok ==> Reverts(trace, f + 2, previous))
  }

  /** What a failed attempt is turned into. */
  method RestoreAfterApply(world: World, s: UpdateState, ghost link: Release, p: Progress, attempts: Attempts)
    requires world.operation == Apply(s) && ApplyStalled(world, s, link, p) && world.trace != []
    modifies world
    ensures Safe(world)
    ensures old(world.kept) && link == s.current && world.monitor.honest ==> world.kept
    ensures if world.monitor.moves == 0 then world.link == link else world.monitor.installed
    ensures world.monitor.honest ==> old(world.monitor).honest
    ensures Went(world, true, true)
    ensures world.monitor.lost == old(world.monitor).lost
    ensures world.monitor.lost ==> Strands(world, s)
    ensures p.switched && !p.released ==> WentBack(world.trace, |old(world.trace)| - 1, s, p.previous.value)
    ensures p.stopped && !p.switched && !p.rollbackUnavailable ==>
              |old(world.trace)| < |world.trace| && world.trace[|old(world.trace)|].effect.Started?
    ensures link == s.current && world.monitor.honest && world.monitor.synced && Tries(attempts)
            && Failures(world.tally) == Failures(old(world.tally)) ==>
      && world.monitor.held == 0 && !world.monitor.stopped && (world.monitor.disrupted ==> world.monitor.healthy)
      && world.Here() == if p.released then Point(s.staged, GivenUp(Applied(s, s.current)))
                         else Point(s.current, GivenUp(s))
    ensures link == s.current && world.monitor.honest && world.persisted.phase.Failed? && s.current != s.staged ==>
              (world.link != world.persisted.current <==>
                world.monitor.moves == 1 && (world.monitor.held != 0 || !world.monitor.synced))
  {
    hide Watch, Count, Achieved, Kept;
    if p.released {
      var ok := world.WriteState(GivenUp(Applied(s, p.previous.value)));
    } else if p.rollbackUnavailable {
      Conclude(world, p.token, false, UpdateState(s.staged, s.previous, s.staged, Failed));
    } else if p.switched {
      BackToPrevious(world, s, link, p, attempts);
    } else {
      var safe := Restart(world, p, attempts);
      Conclude(world, p.token, safe, UpdateState(s.current, s.previous, s.staged, Failed));
    }
  }

  /** The way back from a release that was switched to: announced, tried, and recorded. */
  method BackToPrevious(world: World, s: UpdateState, ghost link: Release, p: Progress, attempts: Attempts)
    requires world.operation == Apply(s) && ApplyStalled(world, s, link, p) && world.trace != []
    requires p.switched && !p.released
    modifies world
    ensures Safe(world) && world.monitor.installed
    ensures old(world.kept) && link == s.current && world.monitor.honest ==> world.kept
    ensures world.monitor.honest ==> old(world.monitor).honest
    ensures world.monitor.moves != 0 && world.monitor.lost == old(world.monitor).lost
    ensures Tries(attempts) && Failures(world.tally) == Failures(old(world.tally)) ==>
              world.Here() == Point(p.previous.value, UpdateState(p.previous.value, s.previous, s.staged, Failed))
    ensures Went(world, true, true) && WentBack(world.trace, |old(world.trace)| - 1, s, p.previous.value)
    ensures link == s.current && world.monitor.honest && Tries(attempts)
            && Failures(world.tally) == Failures(old(world.tally)) ==>
      && world.monitor.held == 0 && !world.monitor.stopped && world.monitor.healthy
      && world.Here() == Point(s.current, GivenUp(s))
    ensures link == s.current && world.monitor.honest && world.persisted.phase.Failed? && s.current != s.staged ==>
              (world.link != world.persisted.current <==>
                world.monitor.moves == 1 && (world.monitor.held != 0 || !world.monitor.synced))
  {
    hide Watch, Count, Achieved, Kept;
    var ok := world.WriteState(UpdateState(s.staged, p.previous.value, s.staged, RollingBack));
    if ok {
      ok := SwitchBack(world, p.previous.value, p.token, attempts);
      var restored := if ok then p.previous.value else s.current;
      Conclude(world, p.token, ok, UpdateState(restored, s.previous, s.staged, Failed));
    }
  }

  /** The first failure is at `f`; a failed check counts unless the retry right after it succeeds. */
  ghost predicate FirstFailureAt(trace: seq<Event>, f: nat) {
    f < |trace| && Fails(trace[f].effect) && Failures(Count(trace[..f + 1])) == 1
  }

  /** Right after `f` the service is started again. */
  predicate StartsAgain(trace: seq<Event>, f: nat) { f + 1 < |trace| && trace[f + 1].effect.Started? }

  /**
   An apply that first failed at `f` with the link moved and maintenance held takes the way back right away; with the
   service stopped and the link left alone, or taken to be, it starts the service again.
   */
  ghost predicate TakesTheWayBack(trace: seq<Event>, f: nat, s: UpdateState) {
    && FirstFailureAt(trace, f)
    && var m := Watch(trace[..f + 1]);
       && (m.moves == 1 && m.synced && m.held != 0 ==> WentBack(trace, f, s, s.current))
       && (m.stopped && !(m.moves == 1 && m.synced) ==> StartsAgain(trace, f))
  }

  /** The same for a rollback. */
  ghost predicate TurnsBack(trace: seq<Event>, f: nat, s: UpdateState) {
    && FirstFailureAt(trace, f)
    && var m := Watch(trace[..f + 1]);
       && (m.moves == 1 && m.synced && m.held != 0 ==> Reverts(trace, f + 1, s.current))
       && (m.stopped && !(m.moves == 1 && m.synced) ==> StartsAgain(trace, f))
  }

  /**
   A recovery never goes back, but starts the service again where it is stopped or did not start; a recovery that could
   not be recorded ends there.
   */
  ghost predicate GoesOn(trace: seq<Event>, f: nat) {
    && FirstFailureAt(trace, f)
    && (Watch(trace[..f + 1]).stopped || trace[f].effect.Started? ==> StartsAgain(trace, f))
    && (trace[f].effect.Wrote? ==> f + 1 == |trace|)
  }

  lemma FirstFailed(before: seq<Event>, trace: seq<Event>) returns (f: nat)
    requires before <= trace && before != [] && Fails(before[|before| - 1].effect) && Failures(Count(before)) == 1
    ensures f == |before| - 1 && FirstFailureAt(trace, f) && trace[..f + 1] == before && trace[f] == before[f]
  {
    f := |before| - 1;
    assert trace[..|before|] == before;
  }

  /**
   Applying a staged release.  Started with the link at the recorded current release: every state on the way is an
   `ApplyPoint`, so the process may die anywhere; and a FAILED record names what the link points at unless the link
   was moved and not moved back: it could not be moved back, and then maintenance is still held, or its first move was
   taken for a failure because the directory sync failed.  It succeeds exactly when nothing fails, by the steps above;
   a failure after the move is answered by the way back; and where nothing else fails the apply is undone.
   */
  method ApplyStaged(world: World, s: UpdateState, release: Release, attempts: Attempts) returns (r: Outcome)
    requires world.Valid() && world.trace == [] && world.operation == Apply(s)
    modifies world
    ensures world.Valid()
    ensures ReleaseGuarded(world.trace) && Sheltered(world.trace) && SwitchedOffline(world.trace)
    ensures r.Rejected? <==> !(s.phase.Staged? && release == s.staged && ValidRelease(release) && s.current != "")
    ensures r.Rejected? ==> world.trace == []
    ensures r.Done? ==>
              && world.link == s.staged && world.persisted == r.state
              && r.state == UpdateState(s.staged, r.state.previous, "", Idle)
              && (world.monitor.honest ==> r.state.previous == world.start.link)
              && world.monitor.installed && world.monitor.healthy && world.monitor.ready != 0 && world.monitor.held == 0
    ensures r.Done? && world.monitor.honest ==>
              exists token :: world.achieved == [Wrote(Applying(s), true)] + ApplySteps(s, token, world.start.link)
    ensures Tries(attempts) && world.monitor.honest ==> (r.Failure? <==> Failures(world.tally) != 0)
    ensures r.Failure? && Tries(attempts) && world.monitor.honest && world.start.link == s.current ==>
              exists f :: TakesTheWayBack(world.trace, f, s)
    ensures r.Failure? && Tries(attempts) && world.monitor.honest && world.monitor.synced
            && world.start == Point(s.current, s) && Failures(world.tally) == 1 ==>
      && FirstFailure(world.tally).Some?
      && ApplyUndone(s, FirstFailure(world.tally).value, world.Here(), world.monitor)
    ensures world.monitor.lost ==> r.Failure? && Strands(world, s)
    ensures world.link != world.start.link ==> world.monitor.installed
    ensures world.start == Point(s.current, s) && world.monitor.honest ==>
              ApplySession(s, Session(world.start, world.trace, r))
    ensures world.start == Point(s.current, s) && world.monitor.honest && world.persisted.phase.Failed?
            && s.current != s.staged ==>
              (world.link != world.persisted.current <==>
                world.monitor.moves == 1 && (world.monitor.held != 0 || !world.monitor.synced))
  {
    hide Watch, Count, Achieved;
    NothingHappened(world);
    if !s.phase.Staged? || release != s.staged || !ValidRelease(release) || s.current == "" {
      return Rejected;
    }
    var done := TryApply(world, s, attempts);
    TraceIsSafe(world);
    r := if done then Done(world.persisted) else Failure;
  }

  /** The apply is announced, attempted, and undone where it fails. */
  method TryApply(world: World, s: UpdateState, attempts: Attempts) returns (done: bool)
    requires Safe(world) && world.trace == [] && world.operation == Apply(s)
    requires world.monitor == UNWATCHED && world.tally == NO_FAILURE && world.achieved == []
    modifies world
    ensures Safe(world)
    ensures done ==>
              && world.link == s.staged && world.persisted == Applied(s, world.persisted.previous)
              && (world.monitor.honest ==> world.persisted.previous == old(world.link))
              && world.monitor.installed && world.monitor.healthy && world.monitor.ready != 0 && world.monitor.held == 0
    ensures done && world.monitor.honest ==>
              exists token :: world.achieved == [Wrote(Applying(s), true)] + ApplySteps(s, token, old(world.link))
    ensures Tries(attempts) && world.monitor.honest ==> (done <==> Failures(world.tally) == 0)
    ensures !done && Tries(attempts) && world.monitor.honest && old(world.link) == s.current ==>
              exists f :: TakesTheWayBack(world.trace, f, s)
    ensures !done && Tries(attempts) && world.monitor.honest && world.monitor.synced
            && old(world.Here()) == Point(s.current, s) && Failures(world.tally) == 1 ==>
      && FirstFailure(world.tally).Some?
      && ApplyUndone(s, FirstFailure(world.tally).value, world.Here(), world.monitor)
    ensures world.monitor.lost ==> !done && Strands(world, s)
    ensures world.link != old(world.link) ==> world.monitor.installed
    ensures old(world.kept) && old(world.link) == s.current && world.monitor.honest ==> world.kept
    ensures old(world.Here()) == Point(s.current, s) && world.monitor.honest && world.persisted.phase.Failed?
            && !s.phase.Failed? && s.current != s.staged ==>
              (world.link != world.persisted.current <==>
                world.monitor.moves == 1 && (world.monitor.held != 0 || !world.monitor.synced))
  {
    hide Watch, Count, Achieved, Kept;
    done := world.WriteState(Applying(s));
    ghost var before := world.trace;
    if done {
      var p;
      done, p := AttemptApply(world, s, attempts);
      before := world.trace;
      if !done {
        RestoreAfterApply(world, s, old(world.link), p, attempts);
      }
    }
    if !done && Tries(attempts) && world.monitor.honest && old(world.link) == s.current {
      var f := FirstFailed(before, world.trace);
      assert TakesTheWayBack(world.trace, f, s);
    }
  }

  lemma NothingHappened(world: World)
    requires world.Valid() && world.trace == []
    ensures Safe(world) && world.Here() == world.start
    ensures world.monitor == UNWATCHED && world.tally == NO_FAILURE && world.achieved == []
    ensures world.kept <==> PointOf(world.operation, world.start, true)
    ensures ReleaseGuarded(world.trace) && Sheltered(world.trace) && SwitchedOffline(world.trace)
  {
  }

  /** A release that cannot be resolved ends an operation before it has begun. */
  lemma NotResolved(world: World, s: UpdateState)
    requires world.Valid() && world.monitor == UNWATCHED && FirstFailure(world.tally) == Some(Resolved(false))
    requires world.trace != [] && Fails(world.trace[|world.trace| - 1].effect) && Failures(world.tally) == 1
    ensures exists f :: TurnsBack(world.trace, f, s)
    ensures exists f :: GoesOn(world.trace, f)
  {
    var f := FirstFailed(world.trace, world.trace);
    assert Watch(world.trace[..f + 1]) == UNWATCHED;
    assert Started(true).Started? && !world.trace[f].effect.Started? ==> GoesOn(world.trace, f);
    assert TurnsBack(world.trace, f, s);
  }

  lemma TraceIsSafe(world: World)
    requires Safe(world)
    ensures ReleaseGuarded(world.trace) && Sheltered(world.trace) && SwitchedOffline(world.trace)
  {
    GuardMeansGuarded(world.trace);
    ShelterMeansSheltered(world.trace);
    OfflineMeansOffline(world.trace);
  }

  // ---------------------------------------------------------------------------------------------
  // Roll back
  // ---------------------------------------------------------------------------------------------

  function RollingBackTo(s: UpdateState): UpdateState { s.(phase := RollingBack) }

  function RolledBack(s: UpdateState, phase: Phase): UpdateState {
    UpdateState(s.previous, s.current, s.staged, phase)
  }

  ghost predicate RollbackStalled(world: World, s: UpdateState, link: Release, p: Progress)
    reads world
  {
    && Safe(world)
    && (p.token == 0 ==> world.monitor.held == 0)
    && (world.monitor.stopped ==> p.stopped)
    && (p.disrupted && !p.stopped && !p.switched && !p.released ==> world.tally.pending.None?)
    && (world.monitor.honest ==> (p.released <==> Late(FirstFailure(world.tally))))
    && (p.released ==> world.monitor.healthy && !p.stopped)
    && p.disrupted == world.monitor.disrupted
    && (p.token == 0 ==> !p.disrupted)
    && (p.stopped || p.switched ==> p.disrupted)
    && (p.disrupted && !p.released ==> world.monitor.held == p.token)
    && (p.released ==>
          && world.link == s.previous && world.monitor.moves == 1 && world.monitor.held == 0
          && (world.persisted == RolledBack(s, HealthCheck) || world.persisted == RolledBack(s, Idle)))
    && (p.switched && !p.released ==>
          && world.link == s.previous && world.monitor.moves == 1
          && (world.persisted == RollingBackTo(s) || world.persisted == RolledBack(s, HealthCheck)))
    && (!p.switched && !p.released ==>
          && world.persisted == RollingBackTo(s)
          && if world.monitor.synced then world.link == link && world.monitor.moves == 0
             else world.link == s.previous && world.monitor.moves == 1)
    && (p.switched || p.released ==> world.monitor.synced)
  }

  /** How the vehicle is moved to the previous release and put into service with it, in this order. */
  function ReturnSteps(s: UpdateState, token: nat): seq<Effect> {
    [SwitchTried(s.previous, Switched(s.current, Some(s.current))), Started(true)] + ConfirmSteps(s, token)
  }

  function ConfirmSteps(s: UpdateState, token: nat): seq<Effect> {
    [Wrote(RolledBack(s, HealthCheck), true), HealthChecked(true), ReadyChecked(token, true), ReleaseAsked(token, true),
     Wrote(RolledBack(s, Idle), true)]
  }

  method AttemptRollback(world: World, s: UpdateState, attempts: Attempts) returns (done: bool, p: Progress)
    requires Safe(world) && world.operation == Rollback(s)
    requires world.persisted == RollingBackTo(s) && world.monitor == UNWATCHED && world.tally == NO_FAILURE
    modifies world
    ensures Safe(world)
    ensures done && world.monitor.honest ==> old(world.link) == s.current
    ensures done ==>
              && world.persisted == RolledBack(s, Idle) && world.link == s.previous
              && world.monitor.healthy && world.monitor.ready != 0 && world.monitor.held == 0
    ensures !done ==> RollbackStalled(world, s, old(world.link), p)
    ensures old(world.trace) <= world.trace && (done && old(world.link) == s.current ==> world.monitor.honest)
    ensures done && world.monitor.honest ==>
      && world.tally == NO_FAILURE
      && world.achieved == old(world.achieved) + EnterSteps(p.token) + ReturnSteps(s, p.token)
    ensures !done && world.monitor.honest && Tries(attempts) && old(world.link) == s.current ==> FailedLast(world)
    ensures old(world.kept) && old(world.link) == s.current ==> world.kept
  {
    hide Watch, Count, Achieved, Kept;
    var ok;
    ok, p := EnterMaintenance(world, attempts);
    if !ok {
      return false, p;
    }
    ok, p := MoveBack(world, s, p);
    if !ok {
      return false, p;
    }
    done, p := FinishRollback(world, s, p, attempts);
  }

  /** With the service stopped: the link is pointed back at the previous release, and that is started. */
  method MoveBack(world: World, s: UpdateState, before: Progress) returns (ok: bool, p: Progress)
    requires Safe(world) && world.operation == Rollback(s) && RollbackStalled(world, s, world.link, before)
    requires before == NO_PROGRESS.(token := before.token, stopped := true, disrupted := true) && before.token != 0
    requires world.persisted == RollingBackTo(s) && world.monitor.moves == 0 && world.monitor.synced
    requires world.tally == NO_FAILURE && world.monitor.stopped
    modifies world
    ensures RollbackStalled(world, s, old(world.link), p)
    ensures old(world.trace) <= world.trace && world.persisted == RollingBackTo(s)
    ensures p.token == before.token && !p.released
    ensures ok ==> p.switched && !p.stopped && (world.monitor.honest ==> old(world.link) == s.current)
    ensures ok && world.monitor.honest ==>
      && world.tally == NO_FAILURE
      && world.achieved == old(world.achieved)
                           + [SwitchTried(s.previous, Switched(s.current, Some(s.current))), Started(true)]
    ensures !ok && world.monitor.honest && old(world.link) == s.current ==> FailedLast(world)
    ensures world.monitor.honest ==> old(world.monitor).honest
    ensures ok && old(world.link) == s.current && old(world.monitor).honest ==> world.monitor.honest
    ensures old(world.kept) && old(world.link) == s.current ==> world.kept
  {
    hide Watch, Count, Achieved, Kept;
    p := before;
    var switching := world.Switch(s.previous);
    ok := switching.Switched?;
    if !ok {
      return;
    }
    p := p.(switched := true);
    ok := switching.reported == Some(s.current);
    if !ok {
      return;
    }
    ok := world.StartService();
    if ok {
      p := p.(stopped := false);
    }
  }


  method FinishRollback(world: World, s: UpdateState, before: Progress, attempts: Attempts)
    returns (done: bool, p: Progress)
    requires world.operation == Rollback(s) && RollbackStalled(world, s, world.link, before)
    requires before.switched && !before.released && world.persisted == RollingBackTo(s) && !before.stopped
    requires (world.monitor.honest ==> world.tally == NO_FAILURE) && before.token != 0
    modifies world
    ensures Safe(world) && world.monitor.honest == old(world.monitor).honest
    ensures done ==>
              && world.persisted == RolledBack(s, Idle) && world.link == s.previous
              && world.monitor.healthy && world.monitor.ready != 0 && world.monitor.held == 0
    ensures old(world.trace) <= world.trace && p.token == before.token
    ensures done && world.monitor.honest ==>
      world.tally == NO_FAILURE && world.achieved == old(world.achieved) + ConfirmSteps(s, p.token)
    ensures !done && world.monitor.honest && Tries(attempts) ==> FailedLast(world)
    ensures !done ==> forall link :: RollbackStalled(world, s, link, p)
    ensures old(world.kept) ==> world.kept
  {
    hide Watch, Count, Achieved, Kept;
    p := before;
    var confirmed := CheckRolledBack(world, s, p, attempts);
    if !confirmed {
      return false, p;
    }
    var ok := world.DisableMaintenance(p.token);
    if !ok {
      return false, p;
    }
    p := p.(released := true);
    done := world.WriteState(RolledBack(s, Idle));
  }

  /** The check is announced in the record, and the previous release confirmed. */
  method CheckRolledBack(world: World, s: UpdateState, p: Progress, attempts: Attempts) returns (confirmed: bool)
    requires world.operation == Rollback(s) && RollbackStalled(world, s, world.link, p)
    requires p.switched && !p.released && world.persisted == RollingBackTo(s) && !p.stopped
    requires world.monitor.honest ==> world.tally == NO_FAILURE
    modifies world
    ensures RollbackStalled(world, s, world.link, p) && world.monitor.honest == old(world.monitor).honest
    ensures old(world.trace) <= world.trace
    ensures confirmed && world.monitor.honest ==>
      && world.tally == NO_FAILURE
      && world.achieved == old(world.achieved)
                           + [Wrote(RolledBack(s, HealthCheck), true), HealthChecked(true), ReadyChecked(p.token, true)]
    ensures !confirmed && world.monitor.honest && Tries(attempts) ==> FailedLast(world)
    ensures confirmed ==>
              world.persisted == RolledBack(s, HealthCheck) && world.monitor.healthy && world.monitor.ready == p.token
    ensures old(world.kept) ==> world.kept
  {
    hide Watch, Count, Achieved, Kept;
    confirmed := world.WriteState(RolledBack(s, HealthCheck));
    if confirmed {
      confirmed := Confirm(world, p.token, attempts);
    }
  }

  method RestoreAfterRollback(world: World, s: UpdateState, ghost link: Release, p: Progress, attempts: Attempts)
    requires world.operation == Rollback(s) && RollbackStalled(world, s, link, p)
    modifies world
    ensures Safe(world)
    ensures old(world.kept) && link == s.current ==> world.kept
    ensures Went(world, true, true) && (world.monitor.honest ==> old(world.monitor).honest)
    ensures p.switched && !p.released ==> Reverts(world.trace, |old(world.trace)|, s.current)
    ensures p.stopped && !p.switched ==>
              |old(world.trace)| < |world.trace| && world.trace[|old(world.trace)|].effect.Started?
    ensures link == s.current && world.monitor.synced && Tries(attempts)
            && Failures(world.tally) == Failures(old(world.tally)) ==>
      && world.monitor.held == 0 && !world.monitor.stopped && (world.monitor.disrupted ==> world.monitor.healthy)
      && world.Here() == if p.released then Point(s.previous, RolledBack(s, Failed)) else Point(s.current, GivenUp(s))
    ensures link == s.current && world.persisted.phase.Failed? && s.current != s.previous ==>
              (world.link != world.persisted.current <==>
                world.monitor.moves == 1 && (world.monitor.held != 0 || !world.monitor.synced))
  {
    hide Watch, Count, Achieved, Kept;
    if p.released {
      var ok := world.WriteState(RolledBack(s, Failed));
      return;
    }
    var safe;
    if p.switched {
      safe := SwitchBack(world, s.current, p.token, attempts);
    } else {
      safe := Restart(world, p, attempts);
    }
    Conclude(world, p.token, safe, s.(phase := Failed));
  }

  /** How a failed rollback ends when nothing fails after the first failure. */
  predicate RollbackUndone(s: UpdateState, failure: Effect, here: Point, m: Monitor) {
    if failure.Resolved? then here == Point(s.current, s) && !m.disrupted
    else if Announces(failure) then
      here.link == s.current && (here.persisted == s || here.persisted == RollingBackTo(s)) && !m.disrupted
    else
      && m.held == 0 && !m.stopped && (m.disrupted ==> m.healthy)
      && here == if Late(Some(failure)) then Point(s.previous, RolledBack(s, Failed)) else Point(s.current, GivenUp(s))
  }

  function RollbackSteps(s: UpdateState, token: nat): seq<Effect> {
    [Resolved(true), Resolved(true)] + AnnouncedSteps(s, token)
  }

  function AnnouncedSteps(s: UpdateState, token: nat): seq<Effect> {
    [Wrote(RollingBackTo(s), true)] + EnterSteps(token) + ReturnSteps(s, token)
  }

  /**
   Rolling back.  A death while ROLLING_BACK is recorded is recovered forwards, to the previous release; from
   HEALTH_CHECK on it is recovered backwards, to the release the rollback started from.  It succeeds exactly when
   nothing fails; a failure after the move is answered by turning back; where nothing else fails it is undone.
   */
  method RollBack(world: World, s: UpdateState, attempts: Attempts) returns (r: Outcome)
    requires world.Valid() && world.trace == [] && world.operation == Rollback(s)
    modifies world
    ensures world.Valid()
    ensures ReleaseGuarded(world.trace) && Sheltered(world.trace) && SwitchedOffline(world.trace)
    ensures r.Rejected? <==> !((s.phase.Idle? || s.phase.Failed?) && s.current != "" && s.previous != ""
                               && s.current != s.previous)
    ensures r.Rejected? ==> world.trace == []
    ensures r.Done? ==>
              && r.state == world.persisted == RolledBack(s, Idle) && world.link == s.previous
              && world.monitor.healthy && world.monitor.ready != 0 && world.monitor.held == 0
              && (world.monitor.honest ==> world.start.link == s.current)
    ensures r.Done? && world.monitor.honest ==> exists token :: world.achieved == RollbackSteps(s, token)
    ensures r.Done? && world.start.link == s.current ==> world.monitor.honest
    ensures Tries(attempts) && world.monitor.honest && world.start.link == s.current ==>
              (r.Failure? <==> Failures(world.tally) != 0)
    ensures r.Failure? && Tries(attempts) && world.monitor.honest && world.start.link == s.current ==>
              exists f :: TurnsBack(world.trace, f, s)
    ensures r.Failure? && Tries(attempts) && world.monitor.honest && world.monitor.synced
            && world.start == Point(s.current, s) && Failures(world.tally) == 1 ==>
      && FirstFailure(world.tally).Some?
      && RollbackUndone(s, FirstFailure(world.tally).value, world.Here(), world.monitor)
    ensures world.start == Point(s.current, s) ==> RollbackSession(s, Session(world.start, world.trace, r))
    ensures world.start == Point(s.current, s) && world.persisted.phase.Failed? ==>
              (world.link != world.persisted.current <==>
                world.monitor.moves == 1 && (world.monitor.held != 0 || !world.monitor.synced))
  {
    hide Watch, Count, Achieved, TurnsBack, ReleaseGuarded, Sheltered, SwitchedOffline;
    NothingHappened(world);
    if !(s.phase.Idle? || s.phase.Failed?) || s.current == "" || s.previous == "" || s.current == s.previous {
      return Rejected;
    }
    var target := world.Resolve(s.previous);
    if !target {
      TraceIsSafe(world);
      NotResolved(world, s);
      return Failure;
    }
    var original := world.Resolve(s.current);
    if !original {
      TraceIsSafe(world);
      NotResolved(world, s);
      return Failure;
    }
    var done := TryRollback(world, s, attempts);
    TraceIsSafe(world);
    if done && world.monitor.honest {
      var token :| world.achieved == [Resolved(true), Resolved(true)] + AnnouncedSteps(s, token);
      assert world.achieved == RollbackSteps(s, token);
    }
    r := if done then Done(world.persisted) else Failure;
  }

  /** The rollback is announced, attempted, and undone where it fails. */
  method TryRollback(world: World, s: UpdateState, attempts: Attempts) returns (done: bool)
    requires Safe(world) && world.monitor == UNWATCHED && world.tally == NO_FAILURE
    requires world.operation == Rollback(s) && s.current != s.previous
    modifies world
    ensures Safe(world)
    ensures done ==>
              && world.persisted == RolledBack(s, Idle) && world.link == s.previous
              && world.monitor.healthy && world.monitor.ready != 0 && world.monitor.held == 0
              && (world.monitor.honest ==> old(world.link) == s.current)
    ensures done && world.monitor.honest ==>
      exists token :: world.achieved == old(world.achieved) + AnnouncedSteps(s, token)
    ensures Tries(attempts) && world.monitor.honest && old(world.link) == s.current ==>
              (done <==> Failures(world.tally) == 0)
    ensures !done && Tries(attempts) && world.monitor.honest && old(world.link) == s.current ==>
              exists f :: TurnsBack(world.trace, f, s)
    ensures !done && Tries(attempts) && world.monitor.honest && world.monitor.synced
            && old(world.Here()) == Point(s.current, s) && Failures(world.tally) == 1 ==>
      && FirstFailure(world.tally).Some?
      && RollbackUndone(s, FirstFailure(world.tally).value, world.Here(), world.monitor)
    ensures done && old(world.link) == s.current ==> world.monitor.honest
    ensures old(world.kept) && old(world.Here()) == Point(s.current, s) ==> world.kept
    ensures old(world.Here()) == Point(s.current, s) && world.persisted.phase.Failed? ==>
              (world.link != world.persisted.current <==>
                world.monitor.moves == 1 && (world.monitor.held != 0 || !world.monitor.synced))
  {
    hide Watch, Count, Achieved, Kept;
    done := world.WriteState(RollingBackTo(s));
    ghost var before := world.trace;
    if done {
      var p;
      done, p := AttemptRollback(world, s, attempts);
      before := world.trace;
      if done && world.monitor.honest {
        assert world.achieved == old(world.achieved) + AnnouncedSteps(s, p.token);
      }
      if !done {
        RestoreAfterRollback(world, s, old(world.link), p, attempts);
      }
    }
    if !done && Tries(attempts) && world.monitor.honest && old(world.link) == s.current {
      var f := FirstFailed(before, world.trace);
      assert TurnsBack(world.trace, f, s);
    }
  }

  // ---------------------------------------------------------------------------------------------
  // Recover
  // ---------------------------------------------------------------------------------------------

  /**
   Where a failed recovery stands; `switched` says that the link is known to be at its target.  Without a sync it is
   there as well, but the switch was taken for a failure.
   */
  ghost predicate RecoverStalled(world: World, s: UpdateState, actual: Release, p: Progress)
    reads world
  {
    && Safe(world)
    && (p.token == 0 ==> world.monitor.held == 0)
    && (world.monitor.stopped ==> p.stopped)
    && (p.released ==> world.monitor.held == 0 && !p.stopped)
    && p.disrupted == world.monitor.disrupted
    && (p.token == 0 ==> !p.disrupted)
    && (p.stopped ==> p.disrupted)
    && (p.disrupted && !p.released ==> world.monitor.held == p.token)
    && (world.persisted == s || (p.released && world.persisted == Settled(s, world.link, actual)))
    && world.link == (if p.switched || !world.monitor.synced then RecoveryTarget(s) else actual)
    && (!world.monitor.synced ==> !p.switched && !p.released && actual != RecoveryTarget(s))
  }

  /** How the vehicle is put into service again, in this order. */
  function ResumeSteps(s: UpdateState, token: nat, actual: Release): seq<Effect> {
    [HealthChecked(true), ReadyChecked(token, true), ReleaseAsked(token, true),
     Wrote(Settled(s, RecoveryTarget(s), actual), true)]
  }

  function PointSteps(s: UpdateState, actual: Release): seq<Effect> {
    (if actual == RecoveryTarget(s) then [] else [SwitchTried(RecoveryTarget(s), Switched(actual, Some(actual)))])
    + [Started(true)]
  }

  function RecoverySteps(s: UpdateState, token: nat, actual: Release): seq<Effect> {
    EnterSteps(token) + PointSteps(s, actual) + ResumeSteps(s, token, actual)
  }

  /** What a failure says about where a recovery stands. */
  predicate Stands(s: UpdateState, actual: Release, failure: Effect, link: Release, m: Monitor, p: Progress) {
    && (p.token == 0 <==> failure.MaintenanceAsked?)
    && (p.stopped <==> failure.SwitchTried? || failure.Started?)
    && (p.released <==> failure.Wrote?)
    && (!p.disrupted <==> failure.MaintenanceAsked? || (failure.ReadyChecked? && !m.disrupted))
    && (|| failure.MaintenanceAsked? || failure.ReadyChecked? || failure.Stopped? || failure.SwitchTried?
        || failure.Started? || failure.HealthChecked? || failure.ReleaseAsked? || failure.Wrote?)
    && (link == if failure.MaintenanceAsked? || failure.Stopped? || (failure.SwitchTried? && m.synced)
                   || (failure.ReadyChecked? && !m.disrupted)
                then actual else RecoveryTarget(s))
  }

  method AttemptRecover(world: World, s: UpdateState, attempts: Attempts) returns (done: bool, p: Progress)
    requires Safe(world) && world.operation == Recover(s, world.link)
    requires world.persisted == s && world.monitor == UNWATCHED && world.tally == NO_FAILURE
    modifies world
    ensures Safe(world) && old(world.trace) <= world.trace
    ensures done && world.monitor.honest ==>
      world.tally == NO_FAILURE && world.achieved == old(world.achieved) + RecoverySteps(s, p.token, old(world.link))
    ensures done ==> world.monitor.honest
    ensures !done && world.monitor.honest && Tries(attempts) ==> FailedLast(world)
    ensures !done && world.monitor.honest && Tries(attempts) ==>
      Stands(s, old(world.link), FirstFailure(world.tally).value, world.link, world.monitor, p)
    ensures done ==>
              && world.link == RecoveryTarget(s) && world.persisted == Settled(s, world.link, old(world.link))
              && world.monitor.synced
              && world.monitor.healthy && world.monitor.ready != 0 && world.monitor.held == 0
    ensures !done ==> RecoverStalled(world, s, old(world.link), p)
    ensures old(world.kept) ==> world.kept
  {
    hide Watch, Count, Achieved, Kept;
    var actual := world.link;
    var ok;
    ok, p := EnterMaintenance(world, attempts);
    if !ok {
      return false, p;
    }
    ok, p := MoveToTarget(world, s, p);
    if !ok {
      return false, p;
    }
    done, p := FinishRecover(world, s, actual, p, attempts);
    assert done && world.monitor.honest ==>
             old(world.achieved) + EnterSteps(p.token) + PointSteps(s, actual) + ResumeSteps(s, p.token, actual)
             == old(world.achieved) + RecoverySteps(s, p.token, actual);
  }

  /** With the service stopped: the link is pointed at the recovery target where it is not, and that is started. */
  method MoveToTarget(world: World, s: UpdateState, before: Progress) returns (ok: bool, p: Progress)
    requires Safe(world) && world.operation == Recover(s, world.link) && RecoverStalled(world, s, world.link, before)
    requires before == NO_PROGRESS.(token := before.token, stopped := true, disrupted := true) && before.token != 0
    requires world.monitor.honest
    requires world.persisted == s && world.monitor.synced && world.tally == NO_FAILURE && world.monitor.stopped
    modifies world
    ensures RecoverStalled(world, s, old(world.link), p) && old(world.trace) <= world.trace
    ensures p.token == before.token && !p.released && p.disrupted && world.monitor.disrupted && world.persisted == s
    ensures ok ==> !p.stopped && world.link == RecoveryTarget(s) && world.monitor.synced
    ensures !ok ==> p.stopped
    ensures ok && world.monitor.honest ==>
      world.tally == NO_FAILURE && world.achieved == old(world.achieved) + PointSteps(s, old(world.link))
    ensures !ok && world.monitor.honest ==> FailedLast(world)
    ensures !ok && world.monitor.honest ==>
      Stands(s, old(world.link), FirstFailure(world.tally).value, world.link, world.monitor, p)
    ensures ok ==> world.tally.pending.None? && world.monitor.honest
    ensures old(world.kept) ==> world.kept
  {
    hide Watch, Count, Achieved, Kept;
    p := before;
    var actual := world.link;
    if actual != RecoveryTarget(s) {
      var switching := world.Switch(RecoveryTarget(s));
      ok := switching.Switched?;
      if !ok {
        return;
      }
      p := p.(switched := true);
      ok := switching.reported == Some(actual);
      if !ok {
        return;
      }
    }
    ok := world.StartService();
    if ok {
      p := p.(stopped := false);
    }
  }

  method FinishRecover(world: World, s: UpdateState, actual: Release, before: Progress, attempts: Attempts)
    returns (done: bool, p: Progress)
    requires world.operation == Recover(s, actual) && RecoverStalled(world, s, actual, before)
    requires before.disrupted && !before.released && !before.stopped && world.link == RecoveryTarget(s)
    requires world.monitor.synced && world.persisted == s && before.token != 0 && world.tally.pending.None?
    requires world.monitor.honest ==> world.tally == NO_FAILURE
    modifies world
    ensures Safe(world)
    ensures done ==>
              && world.link == RecoveryTarget(s) && world.persisted == Settled(s, world.link, actual)
              && world.monitor.synced
              && world.monitor.healthy && world.monitor.ready != 0 && world.monitor.held == 0
    ensures !done ==> RecoverStalled(world, s, actual, p)
    ensures old(world.trace) <= world.trace && p.token == before.token
    ensures world.monitor.honest == old(world.monitor).honest
    ensures done && world.monitor.honest ==>
      world.tally == NO_FAILURE && world.achieved == old(world.achieved) + ResumeSteps(s, p.token, actual)
    ensures !done && world.monitor.honest && Tries(attempts) ==> FailedLast(world)
    ensures !done && world.monitor.honest && Tries(attempts) ==>
      Stands(s, actual, FirstFailure(world.tally).value, world.link, world.monitor, p)
    ensures old(world.kept) ==> world.kept
  {
    hide Watch, Count, Achieved, Kept;
    p := before;
    var ok := Confirm(world, p.token, attempts);
    if !ok {
      return false, p;
    }
    done, p := ReleaseRecovered(world, s, actual, p);
  }

  /** Maintenance is given back, and the recovery recorded. */
  method ReleaseRecovered(world: World, s: UpdateState, actual: Release, before: Progress)
    returns (done: bool, p: Progress)
    requires world.operation == Recover(s, actual) && RecoverStalled(world, s, actual, before)
    requires before.disrupted && !before.released && !before.stopped && world.link == RecoveryTarget(s)
    requires world.monitor.synced && world.persisted == s && before.token != 0 && world.tally.pending.None?
    requires world.monitor.honest ==> world.tally == NO_FAILURE
    requires world.monitor.healthy && world.monitor.ready == before.token
    modifies world
    ensures Safe(world)
    ensures done ==>
              && world.link == RecoveryTarget(s) && world.persisted == Settled(s, world.link, actual)
              && world.monitor.synced
              && world.monitor.healthy && world.monitor.ready != 0 && world.monitor.held == 0
    ensures !done ==> RecoverStalled(world, s, actual, p)
    ensures old(world.trace) <= world.trace && p.token == before.token
    ensures world.monitor.honest == old(world.monitor).honest
    ensures done && world.monitor.honest ==>
      && world.tally == NO_FAILURE
      && world.achieved == old(world.achieved)
                           + [ReleaseAsked(p.token, true), Wrote(Settled(s, RecoveryTarget(s), actual), true)]
    ensures !done && world.monitor.honest ==> FailedLast(world)
    ensures !done && world.monitor.honest ==>
      Stands(s, actual, FirstFailure(world.tally).value, world.link, world.monitor, p)
    ensures old(world.kept) ==> world.kept
  {
    hide Watch, Count, Achieved, Kept;
    p := before;
    var ok := world.DisableMaintenance(p.token);
    if !ok {
      return false, p;
    }
    p := p.(released := true);
    done := world.WriteState(Settled(s, RecoveryTarget(s), actual));
  }

  method RestoreAfterRecover(world: World, s: UpdateState, actual: Release, p: Progress, attempts: Attempts)
    requires world.operation == Recover(s, actual) && RecoverStalled(world, s, actual, p)
    modifies world
    ensures Safe(world) && world.link == old(world.link)
    ensures || world.persisted == s
            || world.persisted == Settled(s, if world.monitor.synced then world.link else actual, actual)
    ensures !world.monitor.synced ==> world.link == RecoveryTarget(s) != actual
    ensures Went(world, true, true) && world.monitor.honest == old(world.monitor).honest
    ensures world.monitor.synced == old(world.monitor).synced && world.monitor.disrupted == old(world.monitor).disrupted
    ensures p.released ==> world.trace == old(world.trace)
    ensures p.stopped ==> |old(world.trace)| < |world.trace| && world.trace[|old(world.trace)|].effect.Started?
    ensures Failures(world.tally) == Failures(old(world.tally)) && Tries(attempts) ==>
      && !world.monitor.stopped
      && (!p.released ==> world.persisted == Settled(s, if p.switched then RecoveryTarget(s) else actual, actual))
      && (world.monitor.held == 0 <==> p.released || p.token == 0 || p.stopped || !p.disrupted)
    ensures old(world.kept) ==> world.kept
  {
    hide Watch, Count, Achieved, Kept;
    if p.released {
      return;
    }
    var safe := !p.disrupted;
    if p.stopped {
      safe := StartAndConfirm(world, p.token, attempts);
    }
    var active := if p.switched then RecoveryTarget(s) else actual;
    Conclude(world, p.token, safe, Settled(s, active, actual));
  }

  /**
   How a failed recovery ends when nothing fails after the first failure: the record names what the link points at, the
   service runs, and maintenance is given back exactly when the failure came before the service was started, or after
   it was confirmed; otherwise maintenance stays.
   */
  predicate RecoveryGivenUp(s: UpdateState, actual: Release, failure: Effect, here: Point, m: Monitor) {
    var moved := failure.Started? || failure.HealthChecked? || failure.ReleaseAsked? || failure.Wrote?
                 || (failure.ReadyChecked? && m.disrupted);
    if failure.Resolved? then here == Point(actual, s) && !m.disrupted
    else
      && !m.stopped && here.link == (if moved then RecoveryTarget(s) else actual)
      && (here.persisted == Settled(s, here.link, actual) || (failure.Wrote? && here.persisted == s))
      && (m.held == 0 <==> || failure.MaintenanceAsked? || failure.SwitchTried? || failure.Started? || failure.Wrote?
                           || (failure.ReadyChecked? && !m.disrupted))
  }

  /**
   Recovering an interrupted transition: until it is settled the record stays as found, so recovery may itself be
   interrupted any number of times; once settled the record names what the link points at, except exactly when the link
   was moved by a switch that was taken for a failure.
   */
  method RecoverInterrupted(world: World, s: UpdateState, attempts: Attempts) returns (r: Outcome)
    requires world.Valid() && world.trace == [] && world.operation == Recover(s, world.link) && world.persisted == s
    modifies world
    ensures world.Valid()
    ensures ReleaseGuarded(world.trace) && Sheltered(world.trace) && SwitchedOffline(world.trace)
    ensures !Interrupted(s) ==> r == Done(s) && world.trace == []
    ensures Interrupted(s) && RecoveryTarget(s) == "" ==> r == Rejected && world.trace == []
    ensures Interrupted(s) && r.Done? ==>
              && world.link == RecoveryTarget(s)
              && r.state == world.persisted == Settled(s, world.link, world.start.link)
              && world.monitor.healthy && world.monitor.ready != 0 && world.monitor.held == 0
    ensures Interrupted(s) && r.Done? && world.monitor.honest ==>
      exists token :: world.achieved == [Resolved(true), Resolved(true)] + RecoverySteps(s, token, world.start.link)
    ensures Interrupted(s) && r.Done? ==> world.monitor.honest
    ensures Tries(attempts) && world.monitor.honest ==> (r.Failure? <==> Failures(world.tally) != 0)
    ensures r.Failure? && Tries(attempts) && world.monitor.honest ==> exists f :: GoesOn(world.trace, f)
    ensures r.Failure? && Tries(attempts) && world.monitor.honest && world.monitor.synced
            && Failures(world.tally) == 1 ==>
      && FirstFailure(world.tally).Some?
      && RecoveryGivenUp(s, world.start.link, FirstFailure(world.tally).value, world.Here(), world.monitor)
    ensures Interrupted(s) && world.persisted.phase.Failed? ==>
              (world.link != world.persisted.current <==> !world.monitor.synced)
    ensures RecoverSession(Session(world.start, world.trace, r))
  {
    hide Watch, Count, Achieved, GoesOn, TurnsBack, ReleaseGuarded, Sheltered, SwitchedOffline;
    NothingHappened(world);
    if !Interrupted(s) {
      return Done(s);
    }
    if RecoveryTarget(s) == "" {
      return Rejected;
    }
    var target := world.Resolve(RecoveryTarget(s));
    if !target {
      TraceIsSafe(world);
      NotResolved(world, s);
      return Failure;
    }
    var current := world.Resolve(world.link);
    if !current {
      TraceIsSafe(world);
      NotResolved(world, s);
      return Failure;
    }
    var done := TryRecover(world, s, attempts);
    TraceIsSafe(world);
    r := if done then Done(world.persisted) else Failure;
  }

  /** The recovery is attempted, and what it left is put in order where it fails. */
  method TryRecover(world: World, s: UpdateState, attempts: Attempts) returns (done: bool)
    requires Safe(world) && world.operation == Recover(s, world.link) && world.persisted == s && Interrupted(s)
    requires world.monitor == UNWATCHED && world.tally == NO_FAILURE
    modifies world
    ensures Safe(world)
    ensures done ==>
              && world.link == RecoveryTarget(s) && world.persisted == Settled(s, world.link, old(world.link))
              && world.monitor.healthy && world.monitor.ready != 0 && world.monitor.held == 0 && world.monitor.honest
    ensures done ==>
      exists token :: world.achieved == old(world.achieved) + RecoverySteps(s, token, old(world.link))
    ensures Tries(attempts) && world.monitor.honest ==> (done <==> Failures(world.tally) == 0)
    ensures !done && Tries(attempts) && world.monitor.honest ==> exists f :: GoesOn(world.trace, f)
    ensures !done && Tries(attempts) && world.monitor.honest && world.monitor.synced
            && Failures(world.tally) == 1 ==>
      && FirstFailure(world.tally).Some?
      && RecoveryGivenUp(s, old(world.link), FirstFailure(world.tally).value, world.Here(), world.monitor)
    ensures world.persisted.phase.Failed? ==> (world.link != world.persisted.current <==> !world.monitor.synced)
    ensures old(world.kept) ==> world.kept
  {
    hide Watch, Count, Achieved, Kept;
    var actual := world.link;
    var p;
    done, p := AttemptRecover(world, s, attempts);
    ghost var before := world.trace;
    if !done {
      RestoreAfterRecover(world, s, actual, p, attempts);
      if Tries(attempts) && world.monitor.honest {
        var f := FirstFailed(before, world.trace);
        assert GoesOn(world.trace, f);
      }
    }
  }
}
