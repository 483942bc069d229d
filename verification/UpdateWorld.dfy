/**
 The world an update acts on: the `current` link, the persisted update record, and effects that may each fail.
 A ghost trace holds every effect together with the state it left, so "the process dies here" is any position of it.
 */
module UpdateWorlds {
  import opened Wrappers

  type Release = string

  datatype Phase = Idle | Downloading | Staged | Applying | HealthCheck | RollingBack | Failed

  datatype UpdateState = UpdateState(current: Release, previous: Release, staged: Release, phase: Phase)

  /**
   A switch fails and leaves the link alone, or replaces it and reports, rightly or not, what it replaced, or replaces
   it and fails to sync the directory: to the caller that is a failure like the first.
   */
  datatype Switching =
    | NotSwitched
    | Switched(replaced: Release, reported: Option<Release>)
    | Unsynced(replaced: Release)

  /** An effect and its outcome; `granted` is 0 when maintenance was refused or the call failed. */
  datatype Effect =
    | Wrote(next: UpdateState, ok: bool)
    | Resolved(ok: bool)
    | MaintenanceAsked(granted: nat)
    | ReleaseAsked(generation: nat, confirmed: bool)
    | ReadyChecked(generation: nat, ready: bool)
    | HealthChecked(healthy: bool)
    | Stopped(ok: bool)
    | Started(ok: bool)
    | Installed(ok: bool)
    | SwitchTried(target: Release, switching: Switching)
    | CleanedUp(ok: bool)

  datatype Point = Point(link: Release, persisted: UpdateState)

  datatype Event = Event(effect: Effect, point: Point)

  predicate Interrupted(s: UpdateState) { s.phase.Applying? || s.phase.HealthCheck? || s.phase.RollingBack? }

  /** The release that recovery makes current. */
  function RecoveryTarget(s: UpdateState): Release {
    if s.phase.Applying? then s.current else s.previous
  }

  /** A stop, start or switch, successful or not, ends whatever was known about the running service. */
  predicate Disturbs(e: Effect) { e.Stopped? || e.Started? || e.SwitchTried? }

  /** A switch that happened reported the release it replaced. */
  predicate Honest(e: Effect) {
    e.SwitchTried? && e.switching.Switched? ==> e.switching.reported == Some(e.switching.replaced)
  }

  /** The effect did not do what it was for; a switch that misreports what it replaced did not either. */
  predicate Fails(e: Effect) {
    match e
    case Wrote(_, ok) => !ok
    case Resolved(ok) => !ok
    case MaintenanceAsked(granted) => granted == 0
    case ReleaseAsked(_, confirmed) => !confirmed
    case ReadyChecked(_, ready) => !ready
    case HealthChecked(healthy) => !healthy
    case Stopped(ok) => !ok
    case Started(ok) => !ok
    case Installed(ok) => !ok
    case SwitchTried(_, switching) => !switching.Switched? || switching.reported != Some(switching.replaced)
    case CleanedUp(ok) => !ok
  }

  /** A check that is made again right away. */
  predicate Retries(before: Effect, after: Effect) {
    (before.ReadyChecked? && after.ReadyChecked?) || (before.HealthChecked? && after.HealthChecked?)
  }

  // ---------------------------------------------------------------------------------------------
  // What may be on disk while each operation runs
  // ---------------------------------------------------------------------------------------------

  datatype Operation =
    | Apply(state: UpdateState)
    | Rollback(state: UpdateState)
    | Recover(state: UpdateState, actual: Release)

  /** During an apply: the record is written ahead of every change of the link. */
  predicate ApplyPoint(s: UpdateState, p: Point) {
    var a, b := s.current, s.staged;
    || (p.persisted == s && p.link == a)
    || (p.persisted == UpdateState(a, s.previous, b, Applying) && (p.link == a || p.link == b))
    || (p.persisted == UpdateState(b, a, b, HealthCheck) && p.link == b)
    || (p.persisted == UpdateState(b, a, b, RollingBack) && (p.link == a || p.link == b))
    || (p.persisted == UpdateState(b, a, "", Idle) && p.link == b)
    || (p.persisted == UpdateState(b, a, "", Failed) && p.link == b)
    || (p.persisted == UpdateState(a, s.previous, b, Failed) && (p.link == a || p.link == b))
  }

  predicate RollbackPoint(s: UpdateState, p: Point) {
    var c, t := s.current, s.previous;
    || (p.persisted == s && p.link == c)
    || (p.persisted == UpdateState(c, t, s.staged, RollingBack) && (p.link == c || p.link == t))
    || (p.persisted == UpdateState(t, c, s.staged, HealthCheck) && (p.link == c || p.link == t))
    || (p.persisted == UpdateState(t, c, s.staged, Idle) && p.link == t)
    || (p.persisted == UpdateState(t, c, s.staged, Failed) && p.link == t)
    || (p.persisted == UpdateState(c, t, s.staged, Failed) && (p.link == c || p.link == t))
  }

  /** During a recovery: the record stays as it was found until it is settled to what the link is taken to be. */
  predicate RecoverPoint(s: UpdateState, actual: Release, p: Point, synced: bool) {
    || (p.persisted == s && (p.link == actual || p.link == RecoveryTarget(s)))
    || p.persisted == UpdateState(p.link, actual, s.staged, Failed)
    || (!synced && p.persisted == UpdateState(actual, actual, s.staged, Failed) && p.link == RecoveryTarget(s))
  }

  /** `synced`: no switch so far replaced the link and failed. */
  predicate PointOf(operation: Operation, p: Point, synced: bool) {
    match operation
    case Apply(s) => ApplyPoint(s, p)
    case Rollback(s) => RollbackPoint(s, p)
    case Recover(s, actual) => RecoverPoint(s, actual, p, synced)
  }

  // ---------------------------------------------------------------------------------------------
  // What a trace amounts to
  // ---------------------------------------------------------------------------------------------

  /**
   `disrupted`, `healthy`, `ready`: was the service disturbed, and what was confirmed since the last disturbance;
   `held`: the generation confirmed ready and not yet confirmed released; `stopped`: the last service command was a
   successful stop; `installed`: the new release is in place; `moves`: how often the link was replaced;
   `guarded`, `sheltered`, `offline`, `honest`, `synced`: what held at every step so far; `lost`: the first replacement
   did not say what it replaced.
   */
  datatype Monitor = Monitor(
    disrupted: bool, healthy: bool, ready: nat, held: nat, stopped: bool, installed: bool, moves: nat,
    guarded: bool, sheltered: bool, offline: bool, honest: bool, synced: bool,
    lost: bool)

  const UNWATCHED := Monitor(false, false, 0, 0, false, false, 0, true, true, true, true, true, false)

  function Watched(m: Monitor, e: Effect): Monitor {
    Monitor(
      m.disrupted || Disturbs(e),
      !Disturbs(e) && (m.healthy || e == HealthChecked(true)),
      if Disturbs(e) then 0 else if e.ReadyChecked? && e.ready then e.generation else m.ready,
      if e.ReadyChecked? && e.ready then e.generation else if e.ReleaseAsked? && e.confirmed then 0 else m.held,
      !e.Started? && (m.stopped || e == Stopped(true)),
      m.installed || e == Installed(true),
      if e.SwitchTried? && !e.switching.NotSwitched? then m.moves + 1 else m.moves,
      m.guarded && (e.ReleaseAsked? && m.disrupted ==> m.healthy && m.ready == e.generation != 0),
      m.sheltered && (Disturbs(e) ==> m.held != 0),
      m.offline && (e.SwitchTried? ==> m.stopped),
      m.honest && Honest(e),
      m.synced && !(e.SwitchTried? && e.switching.Unsynced?),
      m.lost || (m.moves == 0 && e.SwitchTried? && e.switching.Switched? && e.switching.reported.None?))
  }

  function Watch(trace: seq<Event>): Monitor {
    if trace == [] then UNWATCHED
    else var last := |trace| - 1; Watched(Watch(trace[..last]), trace[last].effect)
  }

  /**
   `pending`: the last effect, if it is a failed check, for that may be retried; `failed`: the first failure that was
   not made good by a retry; `failures`: how many there were before `pending`.
   */
  datatype Tally = Tally(pending: Option<Effect>, failed: Option<Effect>, failures: nat)

  const NO_FAILURE := Tally(None, None, 0)

  /** The failures so far, a failed check that was the last effect included. */
  function Failures(t: Tally): nat { t.failures + if t.pending.Some? then 1 else 0 }

  function FirstFailure(t: Tally): Option<Effect> { if t.failed.Some? then t.failed else t.pending }

  predicate IsCheck(e: Effect) { e.ReadyChecked? || e.HealthChecked? }

  /** A failed check that is not retried counts. */
  function Given(t: Tally, e: Effect): Tally {
    if t.pending.Some? && !Retries(t.pending.value, e) then Tally(None, FirstFailure(t), t.failures + 1)
    else t.(pending := None)
  }

  function Counted(t: Tally, e: Effect): Tally {
    if !Fails(e) then Given(t, e)
    else if IsCheck(e) then Given(t, e).(pending := Some(e))
    else Tally(None, Some(if Given(t, e).failed.Some? then Given(t, e).failed.value else e), Given(t, e).failures + 1)
  }

  function Count(trace: seq<Event>): Tally {
    if trace == [] then NO_FAILURE
    else var last := |trace| - 1; Counted(Count(trace[..last]), trace[last].effect)
  }

  /** The effects that did what they were for. */
  function Achieved(trace: seq<Event>): seq<Effect> {
    if trace == [] then []
    else
      var last := |trace| - 1;
      Achieved(trace[..last]) + if Fails(trace[last].effect) then [] else [trace[last].effect]
  }

  /** Every state the world went through, `start` included, was one the operation allows. */
  predicate Kept(operation: Operation, start: Point, trace: seq<Event>) {
    if trace == [] then PointOf(operation, start, true)
    else
      var last := |trace| - 1;
      Kept(operation, start, trace[..last]) && PointOf(operation, trace[last].point, Watch(trace).synced)
  }

  /** At `i` both checks have succeeded, for generation `g`, with no disturbance in between. */
  ghost predicate ConfirmedBefore(trace: seq<Event>, i: nat, g: nat)
    requires i <= |trace|
  {
    exists h, r ::
      && 0 <= h < i && 0 <= r < i
      && trace[h].effect == HealthChecked(true) && trace[r].effect == ReadyChecked(g, true)
      && forall k :: h < k < i || r < k < i ==> !Disturbs(trace[k].effect)
  }

  ghost predicate UndisturbedBefore(trace: seq<Event>, i: nat)
    requires i <= |trace|
  {
    forall k :: 0 <= k < i ==> !Disturbs(trace[k].effect)
  }

  /** Maintenance is given back only if the service was never disturbed or has been confirmed since it was. */
  ghost predicate ReleaseGuarded(trace: seq<Event>) {
    forall i :: 0 <= i < |trace| && trace[i].effect.ReleaseAsked? ==>
      UndisturbedBefore(trace, i) || ConfirmedBefore(trace, i, trace[i].effect.generation)
  }

  /** Readiness was confirmed at `r`, and no release has been confirmed between `r` and `i`. */
  ghost predicate ShelterFrom(trace: seq<Event>, r: nat, i: nat)
    requires i <= |trace|
  {
    && r < i && trace[r].effect.ReadyChecked? && trace[r].effect.ready
    && forall k :: r < k < i && trace[k].effect.ReleaseAsked? ==> !trace[k].effect.confirmed
  }

  /** The service is disturbed only after readiness was confirmed, and never after the release was confirmed. */
  ghost predicate Sheltered(trace: seq<Event>) {
    forall i :: 0 <= i < |trace| && Disturbs(trace[i].effect) ==> exists r :: ShelterFrom(trace, r, i)
  }

  /** The service was stopped at `r` and not started between `r` and `i`. */
  ghost predicate StoppedFrom(trace: seq<Event>, r: nat, i: nat)
    requires i <= |trace|
  {
    && r < i && trace[r].effect == Stopped(true)
    && forall k :: r < k < i ==> !trace[k].effect.Started?
  }

  /** The link is replaced only while the service is stopped. */
  ghost predicate SwitchedOffline(trace: seq<Event>) {
    forall i :: 0 <= i < |trace| && trace[i].effect.SwitchTried? ==> exists r :: StoppedFrom(trace, r, i)
  }

  lemma {:induction false} DisturbanceIsSeen(trace: seq<Event>)
    ensures !Watch(trace).disrupted ==> UndisturbedBefore(trace, |trace|)
  {
    if trace != [] {
      DisturbanceIsSeen(trace[..|trace| - 1]);
    }
  }

  ghost predicate HealthSeen(trace: seq<Event>, h: nat) {
    && h < |trace| && trace[h].effect == HealthChecked(true)
    && forall k :: h < k < |trace| ==> !Disturbs(trace[k].effect)
  }

  ghost predicate ReadySeen(trace: seq<Event>, r: nat, g: nat) {
    && r < |trace| && trace[r].effect == ReadyChecked(g, true)
    && forall k :: r < k < |trace| ==> !Disturbs(trace[k].effect)
  }

  ghost predicate HeldSince(trace: seq<Event>, r: nat) {
    && r < |trace| && trace[r].effect.ReadyChecked? && trace[r].effect.ready
    && forall k :: r < k < |trace| && trace[k].effect.ReleaseAsked? ==> !trace[k].effect.confirmed
  }

  /** The monitor's memory points at events of the trace. */
  lemma {:induction false} HealthIsSeen(trace: seq<Event>)
    requires Watch(trace).healthy
    ensures exists h :: HealthSeen(trace, h)
  {
    var last := |trace| - 1;
    if trace[last].effect == HealthChecked(true) {
      assert HealthSeen(trace, last);
    } else {
      HealthIsSeen(trace[..last]);
      var h: nat :| HealthSeen(trace[..last], h);
      assert HealthSeen(trace, h);
    }
  }

  lemma {:induction false} ReadyIsSeen(trace: seq<Event>, g: nat)
    requires Watch(trace).ready == g != 0
    ensures exists r :: ReadySeen(trace, r, g)
  {
    var last := |trace| - 1;
    if trace[last].effect.ReadyChecked? && trace[last].effect.ready {
      assert ReadySeen(trace, last, g);
    } else {
      ReadyIsSeen(trace[..last], g);
      var r: nat :| ReadySeen(trace[..last], r, g);
      assert ReadySeen(trace, r, g);
    }
  }

  lemma {:induction false} StopIsSeen(trace: seq<Event>)
    requires Watch(trace).stopped
    ensures exists r :: StoppedFrom(trace, r, |trace|)
  {
    var last := |trace| - 1;
    if trace[last].effect == Stopped(true) {
      assert StoppedFrom(trace, last, |trace|);
    } else {
      StopIsSeen(trace[..last]);
      var r: nat :| StoppedFrom(trace[..last], r, last);
      assert StoppedFrom(trace, r, |trace|);
    }
  }

  lemma {:induction false} HoldIsSeen(trace: seq<Event>)
    requires Watch(trace).held != 0
    ensures exists r :: HeldSince(trace, r)
  {
    var last := |trace| - 1;
    if trace[last].effect.ReadyChecked? && trace[last].effect.ready {
      assert HeldSince(trace, last);
    } else {
      HoldIsSeen(trace[..last]);
      var r: nat :| HeldSince(trace[..last], r);
      assert HeldSince(trace, r);
    }
  }

  lemma {:induction false} GuardMeansGuarded(trace: seq<Event>)
    requires Watch(trace).guarded
    ensures ReleaseGuarded(trace)
  {
    if trace != [] {
      var before, e := trace[..|trace| - 1], trace[|trace| - 1];
      assert trace == before + [e];
      GuardMeansGuarded(before);
      forall i | 0 <= i < |trace| && trace[i].effect.ReleaseAsked?
        ensures UndisturbedBefore(trace, i) || ConfirmedBefore(trace, i, trace[i].effect.generation)
      {
        if i < |before| {
          assert before[i] == trace[i];
          StillConfirmed(before, e, i);
        } else {
          NowConfirmed(before, e);
        }
      }
    }
  }

  lemma NowConfirmed(before: seq<Event>, e: Event)
    requires e.effect.ReleaseAsked? && Watched(Watch(before), e.effect).guarded
    ensures UndisturbedBefore(before + [e], |before|)
            || ConfirmedBefore(before + [e], |before|, e.effect.generation)
  {
    var trace := before + [e];
    DisturbanceIsSeen(before);
    if Watch(before).disrupted {
      HealthIsSeen(before);
      ReadyIsSeen(before, e.effect.generation);
      var h: nat :| HealthSeen(before, h);
      var r: nat :| ReadySeen(before, r, e.effect.generation);
      assert trace[h] == before[h] && trace[r] == before[r];
      assert forall k :: h < k < |before| || r < k < |before| ==> trace[k] == before[k];
    } else {
      assert forall k :: 0 <= k < |before| ==> trace[k] == before[k];
    }
  }

  lemma StillConfirmed(before: seq<Event>, e: Event, i: nat)
    requires i < |before| && before[i].effect.ReleaseAsked?
    requires UndisturbedBefore(before, i) || ConfirmedBefore(before, i, before[i].effect.generation)
    ensures UndisturbedBefore(before + [e], i) || ConfirmedBefore(before + [e], i, before[i].effect.generation)
  {
    var trace := before + [e];
    if !UndisturbedBefore(before, i) {
      var g := before[i].effect.generation;
      var h, r :|
        && 0 <= h < i && 0 <= r < i
        && before[h].effect == HealthChecked(true) && before[r].effect == ReadyChecked(g, true)
        && forall k :: h < k < i || r < k < i ==> !Disturbs(before[k].effect);
      assert trace[h] == before[h] && trace[r] == before[r];
    }
  }

  lemma {:induction false} ShelterMeansSheltered(trace: seq<Event>)
    requires Watch(trace).sheltered
    ensures Sheltered(trace)
  {
    if trace != [] {
      var before, e := trace[..|trace| - 1], trace[|trace| - 1];
      assert trace == before + [e];
      ShelterMeansSheltered(before);
      forall i | 0 <= i < |trace| && Disturbs(trace[i].effect)
        ensures exists r :: ShelterFrom(trace, r, i)
      {
        if i < |before| {
          assert before[i] == trace[i];
          var r :| ShelterFrom(before, r, i);
          assert ShelterFrom(trace, r, i);
        } else {
          HoldIsSeen(before);
          var r: nat :| HeldSince(before, r);
          assert ShelterFrom(trace, r, i);
        }
      }
    }
  }

  lemma {:induction false} OfflineMeansOffline(trace: seq<Event>)
    requires Watch(trace).offline
    ensures SwitchedOffline(trace)
  {
    if trace != [] {
      var before, e := trace[..|trace| - 1], trace[|trace| - 1];
      assert trace == before + [e];
      OfflineMeansOffline(before);
      forall i | 0 <= i < |trace| && trace[i].effect.SwitchTried?
        ensures exists r :: StoppedFrom(trace, r, i)
      {
        if i < |before| {
          assert before[i] == trace[i];
          var r :| StoppedFrom(before, r, i);
          assert StoppedFrom(trace, r, i);
        } else {
          StopIsSeen(before);
          var r: nat :| StoppedFrom(before, r, |before|);
          assert StoppedFrom(trace, r, i);
        }
      }
    }
  }

  lemma {:induction false} KeptMeansEveryPoint(operation: Operation, start: Point, trace: seq<Event>)
    requires Kept(operation, start, trace)
    ensures PointOf(operation, start, true)
    ensures forall k :: 0 <= k < |trace| ==> PointOf(operation, trace[k].point, Watch(trace).synced)
  {
    if trace != [] {
      KeptMeansEveryPoint(operation, start, trace[..|trace| - 1]);
    }
  }

  /** An effect that failed and was not a check made good, or failed again, by the next. */
  predicate Definitive(trace: seq<Event>, i: nat)
    requires i < |trace|
  {
    Fails(trace[i].effect) && !(i + 1 < |trace| && Retries(trace[i].effect, trace[i + 1].effect))
  }

  /** The memory of failures is about the definitive ones: whether there is one, and which was the first. */
  lemma {:induction false} CountMeans(trace: seq<Event>)
    ensures
      var t, last := Count(trace), |trace| - 1;
      && t.pending == (if trace != [] && Fails(trace[last].effect) && IsCheck(trace[last].effect)
                       then Some(trace[last].effect) else None)
      && (t.failures == 0 <==> t.failed.None?)
      && (t.failed.None? ==>
            forall i :: 0 <= i < |trace| && (i == last ==> t.pending.None?) ==> !Definitive(trace, i))
      && (t.failed.Some? ==>
            exists i: nat :: IsFirst(trace, i) && t.failed == Some(trace[i].effect))
  {
    if trace != [] {
      var last := |trace| - 1;
      var before := trace[..last];
      CountMeans(before);
      var t := Count(before);
      forall i | 0 <= i < last && !(i == last - 1 && t.pending.Some?)
        ensures Definitive(trace, i) == Definitive(before, i)
      {
      }
      if t.failed.Some? {
        var i: nat :| IsFirst(before, i) && t.failed == Some(before[i].effect);
        StillFirst(before, trace[last], i);
        assert before + [trace[last]] == trace;
      } else if Count(trace).failed.Some? {
        var i := if t.pending.Some? && !Retries(t.pending.value, trace[last].effect) then last - 1 else last;
        assert IsFirst(trace, i);
      }
    }
  }

  /** The first definitive failure. */
  ghost predicate IsFirst(trace: seq<Event>, i: nat) {
    && i < |trace| && Definitive(trace, i) && !(i == |trace| - 1 && IsCheck(trace[i].effect))
    && forall k :: 0 <= k < i ==> !Definitive(trace, k)
  }

  lemma StillFirst(before: seq<Event>, e: Event, i: nat)
    requires IsFirst(before, i)
    ensures IsFirst(before + [e], i)
  {
    var trace := before + [e];
    assert forall k :: 0 <= k <= i ==> trace[k] == before[k];
    assert i + 1 < |before| ==> trace[i + 1] == before[i + 1];
    forall k | 0 <= k < i ensures !Definitive(trace, k) {
      assert !Definitive(before, k) && trace[k + 1] == before[k + 1];
    }
  }

  /** Nothing failed exactly when no failure was definitive. */
  lemma NothingFailedMeans(trace: seq<Event>)
    ensures Failures(Count(trace)) == 0 <==> forall i :: 0 <= i < |trace| ==> !Definitive(trace, i)
  {
    CountMeans(trace);
    if Count(trace).pending.Some? {
      assert Definitive(trace, |trace| - 1);
    }
  }

  /** What the memories become is what they make of the longer trace. */
  lemma Longer(operation: Operation, start: Point, trace: seq<Event>, e: Event)
    ensures Watch(trace + [e]) == Watched(Watch(trace), e.effect)
    ensures Count(trace + [e]) == Counted(Count(trace), e.effect)
    ensures Counted(Count(trace), e.effect).pending.Some? ==> Counted(Count(trace), e.effect).pending.value == e.effect
    ensures Achieved(trace + [e]) == if Fails(e.effect) then Achieved(trace) else Achieved(trace) + [e.effect]
    ensures Kept(operation, start, trace + [e]) <==>
              Kept(operation, start, trace) && PointOf(operation, e.point, Watched(Watch(trace), e.effect).synced)
    ensures (trace + [e])[|trace|] == e
  {
    assert (trace + [e])[..|trace|] == trace;
  }

  // ---------------------------------------------------------------------------------------------
  // The object
  // ---------------------------------------------------------------------------------------------

  class World {
    ghost const operation: Operation
    ghost const start: Point
    var link: Release
    var persisted: UpdateState
    ghost var trace: seq<Event>
    ghost var monitor: Monitor
    ghost var kept: bool
    ghost var tally: Tally
    ghost var achieved: seq<Effect>

    constructor (ghost operation: Operation, link: Release, persisted: UpdateState)
      ensures Valid() && trace == [] && this.operation == operation
      ensures this.link == link && this.persisted == persisted && start == Point(link, persisted)
    {
      this.operation, this.link, this.persisted := operation, link, persisted;
      start := Point(link, persisted);
      trace, tally, achieved := [], NO_FAILURE, [];
      monitor, kept := UNWATCHED, PointOf(operation, Point(link, persisted), true);
    }

    ghost function Here(): Point
      reads this
    {
      Point(link, persisted)
    }

    ghost predicate Valid()
      reads this
    {
      && monitor == Watch(trace) && tally == Count(trace) && achieved == Achieved(trace)
      && (tally.pending.Some? ==> trace != [] && trace[|trace| - 1].effect == tally.pending.value)
      && (kept <==> Kept(operation, start, trace))
      && (kept ==> PointOf(operation, Here(), monitor.synced))
      && Here() == (if trace == [] then start else trace[|trace| - 1].point)
    }

    /** `e` happened and left the world as it now is. */
    twostate predicate Recorded(e: Effect)
      reads this
    {
      && Valid()
      && trace == old(trace) + [Event(e, Here())]
      && monitor == Watched(old(monitor), e) && tally == Counted(old(tally), e)
      && achieved == (if Fails(e) then old(achieved) else old(achieved) + [e])
      && kept == (old(kept) && PointOf(operation, Here(), monitor.synced))
    }

    ghost method Record(e: Effect)
      requires monitor == Watch(trace) && tally == Count(trace) && achieved == Achieved(trace)
      requires kept <==> Kept(operation, start, trace)
      modifies this`trace, this`monitor, this`kept, this`tally, this`achieved
      ensures Recorded(e)
    {
      hide Watch, Watched, Count, Counted, Achieved, Kept, PointOf, Fails;
      ghost var event := Event(e, Here());
      Longer(operation, start, trace, event);
      kept := kept && PointOf(operation, Here(), Watched(monitor, e).synced);
      achieved := if Fails(e) then achieved else achieved + [e];
      trace, monitor, tally := trace + [event], Watched(monitor, e), Counted(tally, e);
    }

    /** Replacing the file is atomic; the directory sync that follows may still fail. */
    method WriteState(next: UpdateState) returns (ok: bool)
      requires Valid()
      modifies this
      ensures Recorded(Wrote(next, ok)) && link == old(link)
      ensures persisted == next || (!ok && persisted == old(persisted))
    {
      ok := *;
      var replaced: bool := *;
      if ok || replaced {
        persisted := next;
      }
      Record(Wrote(next, ok));
    }

    method Resolve(release: Release) returns (ok: bool)
      requires Valid()
      modifies this
      ensures Recorded(Resolved(ok)) && Here() == old(Here())
    {
      ok := *;
      Record(Resolved(ok));
    }

    /** 0 stands for a refusal, an invalid generation or a failed call. */
    method EnableMaintenance() returns (token: nat)
      requires Valid()
      modifies this
      ensures Recorded(MaintenanceAsked(token)) && Here() == old(Here())
    {
      token := *;
      Record(MaintenanceAsked(token));
    }

    method DisableMaintenance(token: nat) returns (ok: bool)
      requires Valid()
      modifies this
      ensures Recorded(ReleaseAsked(token, ok)) && Here() == old(Here())
    {
      ok := *;
      Record(ReleaseAsked(token, ok));
    }

    method CheckReady(token: nat) returns (answer: Option<bool>)
      requires Valid()
      modifies this
      ensures Recorded(ReadyChecked(token, answer == Some(true))) && Here() == old(Here())
    {
      answer := *;
      Record(ReadyChecked(token, answer == Some(true)));
    }

    method CheckHealth() returns (answer: Option<bool>)
      requires Valid()
      modifies this
      ensures Recorded(HealthChecked(answer == Some(true))) && Here() == old(Here())
    {
      answer := *;
      Record(HealthChecked(answer == Some(true)));
    }

    method StopService() returns (ok: bool)
      requires Valid()
      modifies this
      ensures Recorded(Stopped(ok)) && Here() == old(Here())
    {
      ok := *;
      Record(Stopped(ok));
    }

    method StartService() returns (ok: bool)
      requires Valid()
      modifies this
      ensures Recorded(Started(ok)) && Here() == old(Here())
    {
      ok := *;
      Record(Started(ok));
    }

    method Install(release: Release) returns (ok: bool)
      requires Valid()
      modifies this
      ensures Recorded(Installed(ok)) && Here() == old(Here())
    {
      ok := *;
      Record(Installed(ok));
    }

    /** Replacing the link is atomic; the directory sync may still fail, and what is reported need not be true. */
    method Switch(target: Release) returns (r: Switching)
      requires Valid()
      modifies this
      ensures Recorded(SwitchTried(target, r)) && persisted == old(persisted)
      ensures !r.NotSwitched? ==> link == target && r.replaced == old(link)
      ensures r.NotSwitched? ==> link == old(link)
    {
      var replaced: bool := *;
      r := NotSwitched;
      if replaced {
        var synced: bool := *;
        var reported: Option<Release> := *;
        r := if synced then Switched(link, reported) else Unsynced(link);
        link := target;
      }
      Record(SwitchTried(target, r));
    }

    method CleanUp() returns (ok: bool)
      requires Valid()
      modifies this
      ensures Recorded(CleanedUp(ok)) && Here() == old(Here())
    {
      ok := *;
      Record(CleanedUp(ok));
    }
  }
}
