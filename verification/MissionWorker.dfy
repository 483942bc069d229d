/**
 The mission worker: executing a cleaning mission and recovering one from its checkpoint.
 What the worker sees comes as a finite sequence of moments; when it runs out the process has died, so a crash may
 fall between any two observations, and in particular between completing a segment and recording it.
 The ghost `log` holds the segments really completed; unlike the worker's fields it survives a crash.
 */
module MissionWorkers {
  import opened Wrappers
  import opened MissionCheckpoints
  import opened MissionMoments
  import opened Machines = MissionStateMachines

  datatype Outcome = MissionCompleted | AlreadyComplete | MissionCancelled | MissionFailed | ProcessDied

  datatype Goal = Goal(runId: string, loop: bool, loopCount: nat, segments: seq<Segment>)

  function RequestedLoops(loop: bool, loopCount: nat): nat { if loop then Max(1, loopCount) else 1 }

  predicate Continuous(loop: bool, loopCount: nat) { loop && loopCount == 0 }

  function InitialCheckpoint(goal: Goal): Checkpoint {
    Checkpoint(
      goal.runId, Cleaning, goal.loop, goal.loopCount, 0,
      if Continuous(goal.loop, goal.loopCount) then 0 else RequestedLoops(goal.loop, goal.loopCount),
      0, |goal.segments|, 0, goal.segments, None)
  }

  /** Two records of one mission: they differ in progress alone. */
  predicate SameMission(c: Checkpoint, d: Checkpoint) {
    d == c.(currentLoop := d.currentLoop, next := d.next, completed := d.completed)
  }

  /** The mission under `m` is where it was, ready to begin its segment again. */
  function Interrupted(m: Machine): Machine { Machine(Preparing, m.current, m.total, 0, 0) }

  /** How a step that does not complete a segment leaves the machine. */
  predicate Held(before: Machine, after: Machine, step: StepResult) {
    match step
    case Success => after == before
    case Restart => after == Interrupted(before)
    case _ => after.current == before.current && after.total == before.total && !after.state.Completed?
  }

  /** How many passes a mission runs, unless it runs without end. */
  function PassesOf(c: Checkpoint): nat {
    if c.totalLoops > 0 then c.totalLoops else RequestedLoops(c.loop, c.loopCount)
  }

  /** A mission of a single pass, as its record says. */
  predicate OnePass(c: Checkpoint) { c.totalLoops == 1 && !(c.loop && c.loopCount == 0) }

  /** The number of passes is left open only by a mission without end. */
  predicate Planned(c: Checkpoint) { c.totalLoops == 0 ==> Continuous(c.loop, c.loopCount) }

  /** The machine after its current segment is completed. */
  function Advanced(m: Machine): Machine {
    Machine(if m.current + 1 >= m.total then Completed else Preparing, m.current + 1, m.total, 0, 0)
  }

  /** The record written after the segment at `recorded`'s mark marks the place after it. */
  lemma RecordIsNext(recorded: Checkpoint, c: Checkpoint, loop: nat, index: nat)
    requires Valid(recorded) && Counted(recorded) && Mark(recorded) == Place(loop, index) && index < recorded.total
    requires c == recorded.(currentLoop := loop, next := index + 1, completed := recorded.completed + 1)
    ensures Counted(c) && Mark(c) == NextPlace(Mark(recorded), c.total)
  {
    MarkNumber(recorded);
  }

  /** In the first pass the record of the next segment is valid. */
  lemma NextIsValid(c: Checkpoint, c': Checkpoint, loop: nat, index: nat)
    requires Valid(c) && Counted(c) && Mark(c) == Place(loop, index) && index < c.total
    requires c' == c.(currentLoop := loop, next := index + 1, completed := c.completed + 1)
    ensures loop == 0 ==> Valid(c')
  {
    if loop == 0 {
      ProgressIsRejectedExactlyAfterOnePass(c);
    }
  }

  /** A record between two passes is between the first and the second. */
  lemma PassesWithinOne(c: Checkpoint, loop: nat)
    requires Valid(c) && Counted(c) && Mark(c) == Place(loop, 0) && loop >= 1
    ensures loop == 1
  {
    MarkNumber(c);
    if loop >= 2 {
      MoreThanOnce(loop, c.total);
    }
  }

  lemma MoreThanOnce(k: nat, n: nat)
    requires k >= 2 && n > 0
    ensures k * n > n
  {
    AtLeastOnce(k - 1, n);
    assert k * n == (k - 1) * n + n;
  }

  lemma {:induction false} AdvancingNumbers(log: seq<Place>, n: nat, i: nat)
    requires Orderly(log, n) && Advances(log, 0, n) && i < |log|
    ensures Number(log[i], n) == i
  {
    if i > 0 {
      AdvancingNumbers(log, n, i - 1);
      NextNumber(log[i - 1], n);
    }
  }

  /** Where a recorded mission goes on; with no pass left it is at the end of its only one. */
  lemma ResumesAt(c: Checkpoint, loop: nat, start: nat)
    requires Valid(c) && Counted(c) && Planned(c)
    requires if c.next >= |c.segments| then loop == c.currentLoop + 1 && start == 0
             else loop == c.currentLoop && start == c.next
    ensures Mark(c) == Place(loop, start) && start < c.total == |c.segments|
    ensures !Continuous(c.loop, c.loopCount) && loop >= PassesOf(c) ==> Mark(c) == Place(1, 0) && OnePass(c)
  {
    if c.next >= |c.segments| {
      OnlyTheFirstPassEnds(c);
    }
  }

  lemma MarkWithin(c: Checkpoint)
    requires Valid(c) && Counted(c)
    ensures Mark(c).segment < c.total == |c.segments|
  {
    MarkNumber(c);
  }

  /** Nothing was completed since now. */
  lemma NothingSince(log: seq<Place>, n: nat)
    ensures Advances(log, |log|, n)
  {
  }

  /** A mission that has done nothing stands at its first segment. */
  lemma NothingDone(goal: Goal)
    ensures
      var c := InitialCheckpoint(goal);
      && Orderly([], c.total) && Advances([], 0, c.total) && Counted(c) && Planned(c)
      && (Valid(c) ==> Mark(c) == Place(0, 0) && Reached([], c) && c.total > 0)
  {
  }

  /** A first pass done without a crash completes every segment once. */
  lemma OnePassAtOnce(log: seq<Place>, c: Checkpoint)
    requires c.total > 0 && Orderly(log, c.total) && Advances(log, 0, c.total) && Mark(c) == Place(1, 0)
    requires Reached(log, c) && (log != [] ==> NextPlace(log[|log| - 1], c.total) == Mark(c))
    ensures |log| == c.total
  {
    AdvancingNumbers(log, c.total, |log| - 1);
    NextNumber(log[|log| - 1], c.total);
    assert Number(Place(1, 0), c.total) == c.total;
  }

  /** Completing the marked segment keeps the log in order; where the log was recorded, the segment is a new one. */
  lemma LogExtended(log: seq<Place>, c: Checkpoint, from: nat)
    requires c.total > 0 && Mark(c).segment < c.total && Orderly(log, c.total) && Reached(log, c)
    requires from <= |log| && Advances(log, from, c.total)
    requires from < |log| ==> NextPlace(log[|log| - 1], c.total) == Mark(c)
    ensures Orderly(log + [Mark(c)], c.total) && Advances(log + [Mark(c)], from, c.total)
    ensures Reached(log + [Mark(c)], c)
  {
    var log' := log + [Mark(c)];
    forall i | 0 < i < |log'| ensures Follows(log'[i - 1], log'[i], c.total) {
      if i < |log| {
        assert Follows(log[i - 1], log[i], c.total);
      }
    }
    forall i | from < i < |log'| ensures log'[i] == NextPlace(log'[i - 1], c.total) {
      if i < |log| {
        assert log[i] == NextPlace(log[i - 1], c.total);
      }
    }
  }

  /** The first pass, segment by segment. */
  function FirstPass(n: nat): (log: seq<Place>)
    ensures |log| == n
  {
    seq(n, i requires 0 <= i < n => Place(0, i))
  }

  /**
   A mission of several passes does come to where a shutdown makes it look complete: after its first pass, recorded with
   the next one, the record is valid and in step with the segments completed, and passes are left.
   */
  lemma PassesCanBeLeft(goal: Goal)
    requires goal.runId != "" && goal.segments != [] && forall s :: s in goal.segments ==> s.geometryValid
    requires goal.loop && goal.loopCount != 1
    ensures
      var c := InitialCheckpoint(goal).(currentLoop := 1, completed := |goal.segments|);
      var log := FirstPass(|goal.segments|);
      && Valid(c) && Counted(c) && Planned(c) && SameMission(InitialCheckpoint(goal), c) && Mark(c) == Place(1, 0)
      && Orderly(log, c.total) && Reached(log, c) && !OnePass(c)
  {
    var n := |goal.segments|;
    var log := FirstPass(n);
    forall i | 0 < i < n ensures Follows(log[i - 1], log[i], n) {
    }
  }

  // ---------------------------------------------------------------------------------------------
  // What the completed segments stand on
  // ---------------------------------------------------------------------------------------------

  /** Each completed segment has moments of its own before `end`, in the order of the segments, and is earned by them. */
  ghost predicate Credit(
      log: seq<Place>, done: seq<Completion>, moments: seq<Moment>, end: nat, segments: seq<Segment>)
  {
    && |done| == |log| && end <= |moments|
    && (forall i :: 0 <= i < |log| ==>
          && log[i].segment < |segments| && done[i].at < end
          && Earned(moments, done[i], segments[log[i].segment].turns))
    && forall i :: 0 < i < |done| ==> done[i - 1].at < done[i].begun
  }

  /** From `from` on, segments are replanned on the way home, and where a recovered mission goes on. */
  predicate PlansKept(done: seq<Completion>, from: nat, home: bool, first: bool) {
    forall i :: from <= i < |done| ==> (done[i].replanned.Some? <==> home || (first && i == from))
  }

  /** The vehicle was found ready to begin between `b` and the completion `c`. */
  ghost predicate Cleared(moments: seq<Moment>, b: nat, c: Completion) {
    exists k :: b <= k < c.begun && k < |moments| && Prepared(moments[k])
  }

  lemma ClearedBy(moments: seq<Moment>, b: nat, c: Completion, k: nat)
    requires b <= k < c.begun && k < |moments| && Prepared(moments[k])
    ensures Cleared(moments, b, c)
  {
  }

  ghost predicate Arrival(moments: seq<Moment>, b: nat, c: Completion, arrival: Completion) {
    Earned(moments, arrival, false) && arrival.replanned.Some? && b <= arrival.begun && arrival.at < c.begun
  }

  /** Between `b` and the completion `c` an attempt of its own, planned from where it was, brought the vehicle back. */
  ghost predicate BroughtBack(moments: seq<Moment>, b: nat, c: Completion) {
    exists arrival :: Arrival(moments, b, c, arrival)
  }

  lemma BroughtBackBy(moments: seq<Moment>, b: nat, c: Completion, arrival: Completion)
    requires Arrival(moments, b, c, arrival)
    ensures BroughtBack(moments, b, c)
  {
  }

  lemma BroughtBackSince(moments: seq<Moment>, b: nat, later: nat, c: Completion)
    requires BroughtBack(moments, later, c) && b <= later
    ensures BroughtBack(moments, b, c)
  {
    var arrival :| Arrival(moments, later, c, arrival);
    assert Arrival(moments, b, c, arrival);
  }

  lemma CreditReboots(
      log: seq<Place>, done: seq<Completion>, moments: seq<Moment>, end: nat, more: seq<Moment>, segments: seq<Segment>)
    requires Credit(log, done, moments, end, segments)
    ensures Credit(log, done, moments[..end] + more, end, segments)
  {
    forall i | 0 <= i < |log| ensures Earned(moments[..end] + more, done[i], segments[log[i].segment].turns) {
      assert forall k :: 0 <= k < end ==> (moments[..end] + more)[k] == moments[k];
    }
  }

  /** What segments completed since `from` are held to: begun at `entry` or later, replanned always or at `first`. */
  datatype Terms = Terms(segments: seq<Segment>, home: bool, from: nat, entry: nat, first: bool)

  function TermsOf(c: Checkpoint, from: nat, entry: nat, first: bool): Terms {
    Terms(c.segments, c.kind.ReturnHome?, from, entry, first)
  }

  datatype Audit = Credited | Discredited

  ghost function AuditOf(log: seq<Place>, done: seq<Completion>, moments: seq<Moment>, end: nat, t: Terms): Audit {
    if && Credit(log, done, moments, end, t.segments) && PlansKept(done, t.from, t.home, t.first)
       && (|done| > t.from ==> done[t.from].begun >= t.entry)
    then Credited else Discredited
  }

  lemma AuditStands(log: seq<Place>, done: seq<Completion>, moments: seq<Moment>, end: nat, later: nat, t: Terms)
    requires AuditOf(log, done, moments, end, t).Credited? && end <= later <= |moments|
    ensures AuditOf(log, done, moments, later, t).Credited? && |done| == |log|
    ensures |done| > t.from ==> done[t.from].begun >= t.entry
  {
  }

  lemma AuditGrows(
      log: seq<Place>, done: seq<Completion>, moments: seq<Moment>, end: nat, later: nat, t: Terms,
      p: Place, earned: Completion)
    requires AuditOf(log, done, moments, end, t).Credited? && t.entry <= end
    requires p.segment < |t.segments| && Earned(moments, earned, t.segments[p.segment].turns)
    requires end <= earned.begun && earned.at < later <= |moments|
    requires t.from <= |log| && (earned.replanned.Some? <==> t.home || (t.first && |log| == t.from))
    ensures AuditOf(log + [p], done + [earned], moments, later, t).Credited?
  {
    var log', done' := log + [p], done + [earned];
    forall i | 0 <= i < |log'|
      ensures log'[i].segment < |t.segments| && done'[i].at < later
      ensures Earned(moments, done'[i], t.segments[log'[i].segment].turns)
    {
      assert i < |log| ==> log'[i] == log[i] && done'[i] == done[i];
    }
    assert forall i :: 0 <= i < |done| ==> done'[i] == done[i];
  }

  /** Where nothing was completed since `from`, nothing depends on when or how it was to be begun. */
  lemma AuditBegins(log: seq<Place>, done: seq<Completion>, moments: seq<Moment>, end: nat, t: Terms)
    requires Credit(log, done, moments, end, t.segments) && t.from == |log|
    ensures AuditOf(log, done, moments, end, t).Credited?
  {
  }

  lemma AuditReenters(
      log: seq<Place>, done: seq<Completion>, moments: seq<Moment>, end: nat, t: Terms, entry: nat)
    requires AuditOf(log, done, moments, end, t).Credited? && (t.from == |log| || entry <= t.entry)
    ensures AuditOf(log, done, moments, end, t.(entry := entry)).Credited?
  {
  }

  lemma AuditMeans(log: seq<Place>, done: seq<Completion>, moments: seq<Moment>, end: nat, t: Terms)
    requires AuditOf(log, done, moments, end, t).Credited?
    ensures Credit(log, done, moments, end, t.segments) && PlansKept(done, t.from, t.home, t.first)
  {
  }

  predicate Working(m: Machine) { m.state.Preparing? || m.state.Turning? || m.state.Tracking? }

  class MissionWorker {
    const store: MissionCheckpointStore
    var moments: seq<Moment>
    var at: nat
    var nextRequest: nat
    var nextGeneration: nat
    var expectedTurn: nat
    var expectedTracking: nat
    ghost var log: seq<Place>
    ghost var done: seq<Completion>
    ghost var reached: nat

    ghost predicate Numbered()
      reads this
    {
      nextRequest > 0 && nextGeneration > 0 && at <= |moments|
    }

    constructor (moments: seq<Moment>)
      ensures Numbered() && fresh(store) && store.file == None && log == [] && this.moments == moments
      ensures at == 0 && done == [] && reached == 0
    {
      store := new MissionCheckpointStore();
      this.moments := moments;
      nextRequest, nextGeneration, expectedTurn, expectedTracking := 1, 1, 0, 0;
      at, log, done, reached := 0, [], [], 0;
    }

    /** The process starts again and sees `moments` from now on: the file and what was completed are all that is left. */
    method Reboot(moments: seq<Moment>)
      requires at <= |this.moments|
      modifies this
      ensures Numbered() && log == old(log) && done == old(done) && at == old(at) && reached == old(reached)
      ensures this.moments == old(this.moments)[..at] + moments
    {
      this.moments := this.moments[..at] + moments;
      nextRequest, nextGeneration, expectedTurn, expectedTracking := 1, 1, 0, 0;
    }

    method Observe() returns (m: Option<Moment>)
      requires at <= |moments|
      modifies `at
      ensures if old(at) == |moments| then m == None && at == old(at)
              else m == Some(moments[old(at)]) && at == old(at) + 1
    {
      if at == |moments| { return None; }
      m := Some(moments[at]);
      at := at + 1;
    }

    method WaitForPreflight() returns (step: StepResult)
      requires at <= |moments|
      modifies `at
      ensures old(at) <= at <= |moments|
      ensures !step.Restart? && (step.Died? ==> at == |moments|)
      ensures !step.Died? ==> at > old(at)
      ensures step.Failure? || step.Cancellation? ==> Disturbed(moments, old(at), at)
      ensures forall k :: old(at) <= k < (if step.Died? then at else at - 1) ==>
                Waiting(moments[k]) && !Prepared(moments[k]) && !moments[k].timedOut
      ensures !step.Died? ==>
        var m := moments[at - 1];
        && (step.Success? <==> Prepared(m)) && (step.Cancellation? <==> m.cancelling)
        && (step.Failure? ==> m.faulted || m.timedOut)
    {
      hide Disturbed;
      while true
        invariant old(at) <= at <= |moments|
        invariant forall k :: old(at) <= k < at ==>
                    Waiting(moments[k]) && !Prepared(moments[k]) && !moments[k].timedOut
        decreases |moments| - at
      {
        var m := Observe();
        if m.None? { return Died; }
        if !Operational(m.value) || m.value.timedOut { DisturbedAt(moments, old(at), at - 1, at); }
        if m.value.cancelling { return Cancellation; }
        if m.value.faulted { return Failure; }
        if m.value.rtkReady && m.value.hardwareReady { return Success; }
        if m.value.timedOut { return Failure; }
      }
    }

    method WaitWhilePaused(machine: MissionStateMachine) returns (step: StepResult)
      requires Working(machine.View()) || machine.state.RtkRecovering?
      requires at <= |moments|
      modifies `at, machine
      ensures old(at) <= at <= |moments|
      ensures !step.Success? && Held(old(machine.View()), machine.View(), step)
      ensures step.Died? ==> at == |moments|
      ensures !step.Died? ==> old(at) < at
      ensures forall k :: old(at) <= k < (if step.Died? then at else at - 1) ==>
                Waiting(moments[k]) && moments[k].paused
      ensures !step.Died? ==> at > old(at)
      ensures !step.Died? ==>
        var m := moments[at - 1];
        && (step.Cancellation? <==> m.cancelling) && (step.Failure? <==> !m.cancelling && m.faulted)
        && (step.Restart? <==> Waiting(m) && !m.paused)
    {
      var _ := machine.PauseMission();
      while true
        invariant machine.View() == Machine(Paused, old(machine.current), old(machine.total), 0, 0)
        invariant old(at) <= at <= |moments|
        invariant forall k :: old(at) <= k < at ==> Waiting(moments[k]) && moments[k].paused
        decreases |moments| - at
      {
        var m := Observe();
        if m.None? { return Died; }
        if m.value.cancelling {
          var _ := machine.CancelMission();
          return Cancellation;
        }
        if m.value.faulted {
          var _ := machine.FailMission();
          return Failure;
        }
        if !m.value.paused {
          var _ := machine.ResumeMission();
          return Restart;
        }
      }
    }

    method WaitForRtkRecovery(machine: MissionStateMachine) returns (step: StepResult)
      requires Working(machine.View())
      requires at <= |moments|
      modifies `at, machine
      ensures old(at) <= at <= |moments|
      ensures !step.Success? && Held(old(machine.View()), machine.View(), step)
      ensures step.Died? ==> at == |moments|
      ensures !step.Died? ==> old(at) < at
      ensures !step.Died? ==> at > old(at)
      ensures forall k :: old(at) <= k < (if step.Died? then at else at - 1) ==>
                Waiting(moments[k]) && (!moments[k].paused ==> !moments[k].rtkReady && !moments[k].timedOut)
      ensures !step.Died? ==>
        var m := moments[at - 1];
        && (step.Cancellation? <==> m.cancelling) && (step.Failure? ==> m.faulted || m.timedOut)
        && (step.Restart? ==> Waiting(m) && !m.paused)
        && (Waiting(m) && !m.paused && m.rtkReady ==> step.Restart?)
    {
      var _ := machine.BeginRecovery();
      while true
        invariant machine.View() == Machine(RtkRecovering, old(machine.current), old(machine.total), 0, 0)
        invariant old(at) <= at <= |moments|
        invariant forall k :: old(at) <= k < at ==>
                    Waiting(moments[k]) && (!moments[k].paused ==> !moments[k].rtkReady && !moments[k].timedOut)
        decreases |moments| - at
      {
        var m := Observe();
        if m.None? { return Died; }
        if m.value.cancelling {
          var _ := machine.CancelMission();
          return Cancellation;
        }
        if m.value.faulted {
          var _ := machine.FailMission();
          return Failure;
        }
        if m.value.paused {
          step := WaitWhilePaused(machine);
          return;
        }
        if m.value.rtkReady {
          var _ := machine.RecoverFix();
          return Restart;
        }
        if m.value.timedOut {
          var _ := machine.FailMission();
          return Failure;
        }
      }
    }

    /** The vehicle met an edge before its target: it stays stopped until the operator confirms. */
    method WaitForEdgeConfirmation(machine: MissionStateMachine) returns (step: StepResult)
      requires Working(machine.View())
      requires at <= |moments|
      modifies `at, machine
      ensures old(at) <= at <= |moments|
      ensures !step.Success? && Held(old(machine.View()), machine.View(), step)
      ensures step.Died? ==> at == |moments|
      ensures !step.Died? ==> old(at) < at
      ensures step.Restart? ==> at > old(at) && Waiting(moments[at - 1]) && !moments[at - 1].paused
    {
      step := WaitWhilePaused(machine);
    }

    /** The next moment decides: the step goes on exactly when the vehicle is operational. */
    method EnsureOperational(machine: MissionStateMachine) returns (step: StepResult)
      requires Working(machine.View())
      requires at <= |moments|
      modifies `at, machine
      ensures old(at) <= at <= |moments|
      ensures Held(old(machine.View()), machine.View(), step)
      ensures step.Died? ==> at == |moments|
      ensures !step.Died? ==> old(at) < at
      ensures old(at) == |moments| ==> step.Died? && at == old(at)
      ensures old(at) < |moments| ==>
        var m := moments[old(at)];
        && at > old(at) && moments[old(at)] == m
        && (step.Success? <==> Operational(m))
        && (m.cancelling ==> step.Cancellation?)
        && (!m.cancelling && (m.faulted || !m.hardwareReady) ==> step.Failure?)
      ensures step.Success? ==> at == old(at) + 1
      ensures step.Restart? ==> Waiting(moments[at - 1]) && !moments[at - 1].paused
    {
      var m := Observe();
      if m.None? { return Died; }
      if m.value.cancelling {
        var _ := machine.CancelMission();
        return Cancellation;
      }
      if m.value.faulted || !m.value.hardwareReady {
        var _ := machine.FailMission();
        return Failure;
      }
      if m.value.paused {
        step := WaitWhilePaused(machine);
      } else if !m.value.rtkReady {
        step := WaitForRtkRecovery(machine);
      } else {
        step := Success;
      }
    }

    /** A turn succeeds exactly when an operational moment is followed by the completion of its own request. */
    method ExecuteTurn(machine: MissionStateMachine) returns (step: StepResult)
      requires Numbered() && machine.state.Preparing? && machine.turn == 0 && machine.tracking == 0
      modifies `at, `nextRequest, `expectedTurn, machine
      ensures old(at) <= at <= |moments|
      ensures Numbered() && nextRequest == old(nextRequest) + 1
      ensures Held(old(machine.View()), machine.View(), step)
      ensures step.Died? ==> at == |moments|
      ensures !step.Died? ==> expectedTurn == 0
      ensures !step.Died? ==> old(at) < at
      ensures step.Restart? || step.Failure? || step.Cancellation? ==> Disturbed(moments, old(at), at)
      ensures exists n: nat :: TurnedFor(moments, old(at), n, old(nextRequest), step, at)
    {
      hide TurnedOn, Disturbed;
      var request := nextRequest;
      nextRequest := nextRequest + 1;
      var _ := machine.BeginTurn(request);
      expectedTurn := request;
      ghost var n: nat := 0;
      TurnedNever(moments, at, request);
      while true
        invariant machine.View() == Machine(Turning, old(machine.current), old(machine.total), request, 0)
        invariant Numbered() && nextRequest == request + 1 && expectedTurn == request
        invariant old(at) <= at <= |moments|
        invariant at == old(at) + 2 * n && TurnedOn(moments, old(at), n, request)
        decreases |moments| - at
      {
        step := EnsureOperational(machine);
        if !step.Success? {
          expectedTurn := 0;
          assert TurnedFor(moments, old(at), n, request, step, at);
          if !step.Died? { DisturbedAt(moments, old(at), old(at) + 2 * n, at); }
          return;
        }
        var m := Observe();
        if m.None? {
          step := Died;
          assert TurnedFor(moments, old(at), n, request, step, at);
          return;
        }
        var decided;
        decided, step := JudgeTurn(machine, m.value, request);
        if decided {
          assert TurnedFor(moments, old(at), n, request, step, at);
          if !step.Success? { DisturbedAt(moments, old(at), at - 1, at); }
          return;
        }
        TurnedOnce(moments, old(at), n, request);
        n := n + 1;
      }
    }

    /** What a moment decides about the turn under `request`. */
    method JudgeTurn(machine: MissionStateMachine, m: Moment, request: nat) returns (decided: bool, step: StepResult)
      requires machine.View() == Machine(Turning, machine.current, machine.total, request, 0)
      requires expectedTurn == request > 0
      modifies `expectedTurn, machine
      ensures decided <==> CompletesTurn(m, request) || FailsTurn(m, request)
      ensures decided ==> expectedTurn == 0
      ensures decided ==> step == if CompletesTurn(m, request) then Success else Failure
      ensures decided ==> Held(Machine(Preparing, old(machine.current), old(machine.total), 0, 0), machine.View(), step)
      ensures !decided ==> expectedTurn == request && machine.View() == old(machine.View())
    {
      decided, step := true, Success;
      if m.report.TurnStatus? && m.report.request == expectedTurn {
        if m.report.completed {
          var _ := machine.CompleteTurn(request);
          expectedTurn := 0;
          return;
        }
        if m.report.refused {
          var _ := machine.FailMission();
          expectedTurn := 0;
          return true, Failure;
        }
      }
      if m.timedOut {
        var _ := machine.FailMission();
        expectedTurn := 0;
        return true, Failure;
      }
      decided := false;
    }

    /**
     One attempt at tracking the current segment under a generation of its own. It is completed exactly when an
     operational moment is followed by a status that carries this generation or by an edge met at the target; whatever
     else comes in leaves the segment where it is.
     */
    method AttemptTracking(machine: MissionStateMachine) returns (step: StepResult)
      requires Numbered() && machine.View() == Machine(Preparing, machine.current, machine.total, 0, 0)
      requires machine.current < machine.total
      modifies `at, `nextGeneration, `expectedTracking, `reached, machine
      ensures old(at) <= at <= |moments|
      ensures Numbered() && nextGeneration == old(nextGeneration) + 1
      ensures if step.Success? then machine.View() == Advanced(old(machine.View()))
              else Held(old(machine.View()), machine.View(), step)
      ensures step.Died? ==> at == |moments|
      ensures !step.Died? ==> expectedTracking == 0
      ensures reached == old(reached) + if step.Success? then 1 else 0
      ensures !step.Died? ==> old(at) < at
      ensures step.Restart? || step.Failure? || step.Cancellation? ==> Disturbed(moments, old(at), at)
      ensures exists n: nat :: TrackedFor(moments, old(at), n, old(nextGeneration), step, at)
    {
      hide Disturbed, TrackedOn, Operational, Completes, Interrupts;
      var generation := nextGeneration;
      nextGeneration := nextGeneration + 1;
      var _ := machine.BeginTracking(generation);
      expectedTracking := generation;
      ghost var n: nat := 0;
      TrackedNever(moments, at, generation);
      while true
        invariant machine.View() == Machine(Tracking, old(machine.current), old(machine.total), 0, generation)
        invariant old(at) <= at <= |moments| && expectedTracking == generation && reached == old(reached)
        invariant Numbered() && nextGeneration == generation + 1
        invariant at == old(at) + 2 * n && TrackedOn(moments, old(at), n, generation)
        decreases |moments| - at
      {
        step := EnsureOperational(machine);
        if !step.Success? {
          expectedTracking := 0;
          assert TrackedFor(moments, old(at), n, generation, step, at);
          if !step.Died? { DisturbedAt(moments, old(at), old(at) + 2 * n, at); }
          return;
        }
        var m := Observe();
        if m.None? {
          step := Died;
          assert TrackedFor(moments, old(at), n, generation, step, at);
          return;
        }
        var decided;
        decided, step := JudgeTracking(machine, m.value, generation);
        if decided {
          if !step.Success? {
            InterruptDisturbs(m.value, generation);
            DisturbedAt(moments, old(at), old(at) + 2 * n + 1, at);
          }
          assert TrackedFor(moments, old(at), n, generation, step, at);
          return;
        }
        TrackedOnce(moments, old(at), n, generation);
        n := n + 1;
      }
    }

    /** What a moment decides about the attempt under `generation`. */
    method JudgeTracking(machine: MissionStateMachine, m: Moment, generation: nat)
      returns (decided: bool, step: StepResult)
      requires machine.View() == Machine(Tracking, machine.current, machine.total, 0, generation)
      requires machine.current < machine.total && expectedTracking == generation > 0
      requires at <= |moments|
      modifies `at, `expectedTracking, `reached, machine
      ensures old(at) <= at <= |moments|
      ensures decided <==> Completes(m, generation) || Interrupts(m, generation)
      ensures !decided ==> expectedTracking == generation && machine.View() == old(machine.View())
      ensures decided ==> (step.Success? <==> Completes(m, generation))
      ensures decided && step.Success? ==> machine.View() == Advanced(old(machine.View()))
      ensures decided && !step.Success? ==> Held(old(machine.View()), machine.View(), step)
      ensures decided && step.Died? ==> at == |moments|
      ensures !decided || step.Success? ==> at == old(at)
      ensures decided && !step.Success? ==> (Blocks(m, generation) <==> step.Failure? && at == old(at))
      ensures decided ==> expectedTracking == 0
      ensures reached == old(reached) + if decided && step.Success? then 1 else 0
    {
      decided, step := true, Success;
      var received := m.report.TrackingStatus? && m.report.generation == expectedTracking;
      if received && m.report.finished {
        var _ := machine.CompleteTracking(generation);
        expectedTracking, reached := 0, reached + 1;
        return;
      }
      if received && m.report.blocked {
        expectedTracking := 0;
        if m.report.rtkInvalid {
          step := WaitForRtkRecovery(machine);
        } else {
          var _ := machine.FailMission();
          step := Failure;
        }
        return;
      }
      if m.edge.TargetReached? {
        var _ := machine.CompleteTracking(generation);
        expectedTracking, reached := 0, reached + 1;
        return;
      }
      if m.edge.ConfirmRequired? {
        expectedTracking := 0;
        step := WaitForEdgeConfirmation(machine);
        return;
      }
      decided := false;
    }

    /** The last two moments seen earned what the latest tracking attempt was made for. */
    ghost predicate JustCompleted(b: nat)
      reads `moments, `at, `nextGeneration
    {
      && b + 2 <= at <= |moments| && nextGeneration > 0
      && Operational(moments[at - 2]) && Completes(moments[at - 1], nextGeneration - 1)
    }

    /** With the brush under management an interrupted attempt is repeated at once, without turning again. */
    method ExecuteTracking(machine: MissionStateMachine, manageBrush: bool) returns (step: StepResult)
      requires Numbered() && machine.View() == Machine(Preparing, machine.current, machine.total, 0, 0)
      requires machine.current < machine.total
      modifies `at, `nextGeneration, `expectedTracking, `reached, machine
      ensures old(at) <= at <= |moments|
      ensures Numbered()
      ensures if step.Success? then machine.View() == Advanced(old(machine.View()))
              else Held(old(machine.View()), machine.View(), step)
      ensures (step.Success? ==> JustCompleted(old(at)))
      ensures step.Died? ==> at == |moments|
      ensures !step.Died? ==> old(at) < at
      ensures step.Restart? ==> !manageBrush
      ensures reached == old(reached) + if step.Success? then 1 else 0
      ensures step.Restart? || step.Failure? || step.Cancellation? ==> Disturbed(moments, old(at), at)
    {
      hide Disturbed;
      while true
        invariant reached == old(reached)
        invariant Numbered() && machine.View() == old(machine.View())
        invariant old(at) <= at <= |moments|
        decreases |moments| - at
      {
        ghost var begun := at;
        step := AttemptTracking(machine);
        if Disturbed(moments, begun, at) { DisturbedWithin(moments, old(at), begun, at, at); }
        if !step.Restart? || !manageBrush { return; }
      }
    }

    /**
     After a reboot the vehicle first moves to the start of the unfinished segment; this completes no segment, but is
     itself completed by an operational moment and the end of its own attempt.
     */
    method RepositionToPoint() returns (step: StepResult, ghost arrival: Completion)
      requires Numbered()
      modifies `at, `nextRequest, `nextGeneration, `expectedTurn, `expectedTracking, `reached
      ensures old(at) <= at <= |moments|
      ensures Numbered() && !step.Restart?
      ensures step.Success? ==>
        && Earned(moments, arrival, false) && arrival.replanned.Some?
        && old(at) <= arrival.begun && arrival.at == at - 1
      ensures reached == old(reached) + if step.Success? then 1 else 0
      ensures step.Died? ==> at == |moments|
      ensures !step.Died? ==> old(at) < at
      ensures step.Failure? || step.Cancellation? ==> Disturbed(moments, old(at), at)
    {
      hide Disturbed;
      while true
        invariant Numbered() && old(at) <= at <= |moments| && reached == old(reached)
        decreases |moments| - at
      {
        var transfer := new MissionStateMachine();
        var _ := transfer.Start(1, 0);
        ghost var begun := at;
        step, arrival := AttemptSegment(transfer, Segment(true, false), true, false);
        if Disturbed(moments, begun, at) { DisturbedWithin(moments, old(at), begun, at, at); }
        if !step.Restart? { return; }
      }
    }

    // -------------------------------------------------------------------------------------------
    // Segments and passes
    // -------------------------------------------------------------------------------------------

    /** The file holds `c`, its count is right, and the completed segments are in order and in step with it. */
    ghost predicate Kept(c: Checkpoint)
      reads this, store
    {
      && store.file == Some(c) && Valid(c) && Counted(c) && Planned(c)
      && Orderly(log, c.total) && Reached(log, c)
    }

    /** Since position `from`, where the mission stood at `mark`, no segment was repeated and none skipped. */
    ghost predicate Since(from: nat, mark: Place, n: nat)
      reads `log
    {
      from <= |log| && Advances(log, from, n) && (from < |log| ==> log[from] == mark)
    }

    /** Everything completed since `from` is recorded in `c`. */
    ghost predicate Recorded(from: nat, c: Checkpoint)
      reads `log
    {
      from < |log| ==> NextPlace(log[|log| - 1], c.total) == Mark(c)
    }

    /** The segment is begun in an operational moment, and planned anew from where the vehicle is if that is asked for. */
    method BeginSegment(machine: MissionStateMachine, segment: Segment, replan: bool)
      returns (step: StepResult, turns: bool, ghost replanned: Option<nat>)
      requires Working(machine.View()) && at <= |moments|
      modifies `at, machine
      ensures old(at) <= at <= |moments| && Held(old(machine.View()), machine.View(), step)
      ensures step.Died? ==> at == |moments|
      ensures !step.Success? && !step.Died? ==> old(at) < at && Disturbed(moments, old(at), at)
      ensures step.Success? ==>
        && old(at) < at && Operational(moments[old(at)])
        && if replan then at == old(at) + 2 && replanned == Some(at - 1) && moments[at - 1].rtkReady
                          && turns == moments[at - 1].turns
           else at == old(at) + 1 && replanned == None && turns == segment.turns
    {
      hide Disturbed;
      turns, replanned := segment.turns, None;
      step := EnsureOperational(machine);
      if !step.Success? && !step.Died? { DisturbedAt(moments, old(at), old(at), at); }
      if !step.Success? || !replan { return; }
      var m := Observe();
      if m.None? {
        step := Died;
        return;
      }
      if !m.value.rtkReady {
        DisturbedAt(moments, old(at), at - 1, at);
        step := Failure;
        return;
      }
      turns, replanned := m.value.turns, Some(at - 1);
    }

    method TurnIfAsked(machine: MissionStateMachine, turns: bool) returns (step: StepResult, ghost turned: Option<nat>)
      requires Numbered() && machine.state.Preparing? && machine.turn == 0 && machine.tracking == 0
      modifies `at, `nextRequest, `expectedTurn, machine
      ensures old(at) <= at <= |moments| && Numbered() && Held(old(machine.View()), machine.View(), step)
      ensures step.Died? ==> at == |moments|
      ensures !step.Success? && !step.Died? ==> old(at) < at && Disturbed(moments, old(at), at)
      ensures step.Success? ==>
        && (turned.Some? <==> turns) && (turned.None? ==> at == old(at))
        && (turned.Some? ==>
              && turned.value == at - 1 && old(at) < turned.value
              && Operational(moments[turned.value - 1]) && CompletesTurn(moments[turned.value], old(nextRequest)))
    {
      hide TurnedOn, Disturbed;
      step, turned := Success, None;
      if turns {
        step := ExecuteTurn(machine);
        turned := if step.Success? then Some(at - 1) else None;
      }
    }

    /**
     One turn of the worker's inner loop, up to the completion of its segment. Success is earned: the segment was begun
     in an operational moment, replanned and turned for where that is asked for, and completed by its own attempt.
     */
    method AttemptSegment(machine: MissionStateMachine, segment: Segment, replan: bool, manageBrush: bool)
      returns (step: StepResult, ghost earned: Completion)
      requires Numbered() && machine.View() == Machine(Preparing, machine.current, machine.total, 0, 0)
      requires machine.current < machine.total
      modifies `at, `nextRequest, `nextGeneration, `expectedTurn, `expectedTracking, `reached, machine
      ensures old(at) <= at <= |moments|
      ensures Numbered()
      ensures if step.Success? then machine.View() == Advanced(old(machine.View()))
              else Held(old(machine.View()), machine.View(), step)
      ensures step.Died? ==> at == |moments|
      ensures !step.Died? ==> old(at) < at
      ensures reached == old(reached) + if step.Success? then 1 else 0
      ensures step.Restart? || step.Failure? || step.Cancellation? ==> Disturbed(moments, old(at), at)
      ensures step.Success? ==>
        && Earned(moments, earned, segment.turns) && earned.begun == old(at) && earned.at == at - 1
        && earned.generation == nextGeneration - 1 && (earned.replanned.Some? <==> replan)
    {
      hide Disturbed;
      earned := Completion(at, None, None, nextRequest, 0, 0);
      var turns;
      ghost var replanned;
      step, turns, replanned := BeginSegment(machine, segment, replan);
      if !step.Success? { return; }
      earned := earned.(replanned := replanned);
      ghost var planned := at;
      ghost var turned;
      step, turned := TurnIfAsked(machine, turns);
      if Disturbed(moments, planned, at) { DisturbedWithin(moments, old(at), planned, at, at); }
      if !step.Success? { return; }
      earned := earned.(turned := turned);
      ghost var aimed := at;
      step := ExecuteTracking(machine, manageBrush);
      if Disturbed(moments, aimed, at) { DisturbedWithin(moments, old(at), aimed, at, at); }
      earned := earned.(at := at - 1, generation := nextGeneration - 1);
    }

    /** The marked segment is completed; the process may die before the record of it is written. */
    method RecordSegment(
        c: Checkpoint, loop: nat, index: nat, ghost from: nat, ghost mark: Place, ghost earned: Completion)
      returns (step: StepResult, c': Checkpoint)
      requires Kept(c) && Since(from, mark, c.total) && Recorded(from, c) && (from == |log| ==> mark == Mark(c))
      requires Mark(c) == Place(loop, index) && index < c.total
      requires at <= |moments|
      modifies `log, `done, `at, store
      ensures old(at) <= at <= |moments|
      ensures !step.Restart?
      ensures log == old(log) + [Mark(c)] && Since(from, mark, c.total)
      ensures done == old(done) + [earned]
      ensures c' == c.(currentLoop := loop, next := index + 1, completed := c.completed + 1)
      ensures step.Died? ==> at == |moments|
      ensures !step.Success? && !step.Died? ==> step.Failure? && (Disturbed(moments, old(at), at) || loop >= 1)
      ensures if step.Success? then Kept(c') && Recorded(from, c') && Mark(c') == NextPlace(Mark(c), c.total)
              else Kept(c)
    {
      log, done := log + [Mark(c)], done + [earned];
      c' := c.(currentLoop := loop, next := index + 1, completed := c.completed + 1);
      MarkNumber(c);
      RecordIsNext(c, c', loop, index);
      LogExtended(old(log), c, from);
      var m := Observe();
      if m.None? { return Died, c'; }
      hide Disturbed;
      if !m.value.writes { DisturbedAt(moments, old(at), old(at), at); }
      NextIsValid(c, c', loop, index);
      var saved := store.Save(c', m.value.writes);
      step := if saved then Success else Failure;
    }

    /** The marked segment is driven, and where it is completed that is recorded. */
    method CompleteSegment(
        machine: MissionStateMachine, c0: Checkpoint, loop: nat, index: nat, replan: bool,
        ghost mark: Place, ghost t: Terms)
      returns (step: StepResult, c: Checkpoint)
      requires Underway(c0, mark, t) && t.from <= |log| && Mark(c0) == Place(loop, index) && index < c0.total
      requires machine.View() == Machine(Preparing, index, c0.total, 0, 0)
      requires replan <==> t.home || (t.first && |log| == t.from)
      modifies `nextRequest, `nextGeneration, `expectedTurn, `expectedTracking, `reached, `at, `log, `done, store, machine
      ensures old(at) <= at <= |moments| && Numbered() && (step.Died? ==> at == |moments|)
      ensures |done| == |log| && Since(t.from, mark, c0.total) && AuditOf(log, done, moments, at, t).Credited?
      ensures step.Success? ==>
        && old(at) < at && Underway(c, mark, t) && SameMission(c0, c) && Mark(c) == NextPlace(Mark(c0), c0.total)
        && c.currentLoop == loop && c.next == index + 1
        && log == old(log) + [Mark(c0)] && old(done) <= done && machine.View() == Advanced(old(machine.View()))
      ensures step.Restart? ==>
        && old(at) < at && c == c0 && log == old(log) && done == old(done) && Underway(c, mark, t)
        && machine.View() == old(machine.View())
      ensures reached == old(reached) + |log| - |old(log)|
      ensures !step.Success? ==> old(log) <= log && old(done) <= done && Kept(c0)
      ensures step.Failure? || step.Cancellation? ==> Disturbed(moments, old(at), at) || loop >= 1
    {
      hide Disturbed, AuditOf, Earned, Orderly, Reached, Advances;
      MarkNumber(c0);
      c := c0;
      ghost var earned;
      step, earned := AttemptSegment(machine, c0.segments[index], replan, c0.kind.Cleaning?);
      AuditStands(log, done, moments, old(at), at, t);
      if !step.Success? { return; }
      ghost var completed := at;
      step, c := RecordSegment(c0, loop, index, t.from, mark, earned);
      AuditGrows(old(log), old(done), moments, old(at), at, t, Place(loop, index), earned);
      if Disturbed(moments, completed, at) { DisturbedWithin(moments, old(at), completed, at, at); }
    }

    /** One pass from the marked segment to its end, each completed segment recorded before the next is begun. */
    method RunPass(
        machine: MissionStateMachine, c0: Checkpoint, loop: nat, replanFirst0: bool, ghost mark: Place, ghost t: Terms)
      returns (step: StepResult, c: Checkpoint, replanFirst: bool)
      requires Underway(c0, mark, t) && t.from <= |log| && Mark(c0) == Place(loop, machine.current)
      requires machine.View() == Machine(Preparing, machine.current, c0.total, 0, 0)
      requires replanFirst0 == (t.first && |log| == t.from)
      modifies `nextRequest, `nextGeneration, `expectedTurn, `expectedTracking, `reached, `at, `log, `done, store, machine
      ensures old(at) <= at <= |moments| && Numbered() && !step.Restart? && (step.Died? ==> at == |moments|)
      ensures old(log) <= log && old(done) <= done && |done| == |log|
      ensures Since(t.from, mark, c0.total) && AuditOf(log, done, moments, at, t).Credited?
      ensures store.file.Some? && Kept(store.file.value) && SameMission(c0, store.file.value)
      ensures reached == old(reached) + |log| - |old(log)|
      ensures step.Failure? || step.Cancellation? ==> Disturbed(moments, old(at), at) || loop >= 1
      ensures step.Success? ==>
        && Underway(c, mark, t) && SameMission(c0, c) && c.next == c.total && c.currentLoop == loop
        && machine.state.Completed? && old(at) < at && |old(log)| < |log| && !replanFirst
    {
      hide Disturbed, AuditOf, Orderly, Reached, Advances, Valid, Counted, Planned;
      c, replanFirst := c0, replanFirst0;
      var start := machine.current;
      while true
        invariant old(at) <= at && Underway(c, mark, t) && SameMission(c0, c) && Mark(c) == Place(loop, machine.current)
        invariant old(log) <= log && old(done) <= done && reached == old(reached) + |log| - |old(log)|
        invariant |log| == |old(log)| ==> machine.current == start
        invariant replanFirst == (replanFirst0 && |log| == |old(log)|)
        invariant machine.View() == Machine(Preparing, machine.current, c.total, 0, 0)
        decreases |moments| - at
      {
        var index := machine.current;
        MarkWithin(c);
        var replan := c.kind.ReturnHome? || (replanFirst && index == start);
        ghost var begun := at;
        step, c := CompleteSegment(machine, c, loop, index, replan, mark, t);
        if Disturbed(moments, begun, at) { DisturbedWithin(moments, old(at), begun, at, at); }
        if step.Restart? { continue; }
        if replanFirst && index == start { replanFirst := false; }
        if !step.Success? || machine.state.Completed? { return; }
      }
    }

    /** A pass is over and another is to come. */
    method RecordPass(c: Checkpoint, loop: nat) returns (step: StepResult, c': Checkpoint)
      requires Kept(c) && c.next == c.total && loop == c.currentLoop + 1
      requires at <= |moments|
      modifies `at, store
      ensures old(at) <= at <= |moments|
      ensures !step.Restart?
      ensures c' == c.(currentLoop := loop, next := 0) && Mark(c') == Mark(c)
      ensures step.Died? ==> at == |moments|
      ensures !step.Success? && !step.Died? ==> step.Failure? && (Disturbed(moments, old(at), at) || !Valid(c'))
      ensures if step.Success? then Kept(c') else Kept(c)
    {
      NextPassKeepsCount(c);
      c' := c.(currentLoop := loop, next := 0);
      var m := Observe();
      if m.None? { return Died, c'; }
      if !m.value.writes { DisturbedAt(moments, old(at), old(at), at); }
      var saved := store.Save(c', m.value.writes);
      step := if saved then Success else Failure;
    }

    /**
     The machine is started at segment `start`, after the vehicle was brought there where that is needed.
     */
    method PreparePass(machine: MissionStateMachine, total: nat, start: nat, reposition: bool)
      returns (step: StepResult, shutDown: bool, ghost arrival: Completion)
      requires Numbered() && (machine.state.Idle? || machine.state.Completed?) && start < total
      modifies `at, `nextRequest, `nextGeneration, `expectedTurn, `expectedTracking, `reached, machine
      ensures old(at) <= at <= |moments|
      ensures Numbered() && !step.Restart?
      ensures step.Success? ==> old(at) < at
      ensures step.Success? && !shutDown ==> machine.View() == Machine(Preparing, start, total, 0, 0)
      ensures step.Success? && !shutDown && reposition ==>
        && Earned(moments, arrival, false) && arrival.replanned.Some?
        && old(at) < arrival.begun && arrival.at == at - 1
      ensures reached == old(reached) + if reposition && step.Success? && !shutDown then 1 else 0
      ensures !step.Success? || shutDown ==> machine.View() == old(machine.View())
      ensures shutDown ==> step.Success? && Disturbed(moments, old(at), at)
      ensures step.Died? ==> at == |moments|
      ensures step.Failure? || step.Cancellation? ==> Disturbed(moments, old(at), at)
      ensures old(at) < |moments| ==> (step.Success? && shutDown <==> moments[old(at)].shutdown)
    {
      hide Disturbed;
      shutDown, arrival := false, Completion(0, None, None, 0, 0, 0);
      var m := Observe();
      if m.None? {
        step := Died;
        return;
      }
      if m.value.shutdown {
        DisturbedAt(moments, old(at), old(at), at);
        step, shutDown := Success, true;
        return;
      }
      if reposition {
        ghost var begun := at;
        step, arrival := RepositionToPoint();
        if Disturbed(moments, begun, at) { DisturbedWithin(moments, old(at), begun, at, at); }
        if !step.Success? { return; }
      }
      var started := machine.Start(total, start);
      step := if started then Success else Failure;
    }

    /** Where the mission stands between two passes: `c` is on record, and everything completed is credited. */
    ghost predicate Underway(c: Checkpoint, mark: Place, t: Terms)
      reads this, store
    {
      && Numbered() && Kept(c) && Since(t.from, mark, c.total) && Recorded(t.from, c)
      && (t.from == |log| ==> mark == Mark(c))
      && t.segments == c.segments && t.home == c.kind.ReturnHome? && t.entry <= at
      && |done| == |log| && AuditOf(log, done, moments, at, t).Credited?
    }

    /** A pass is over: the last one ends the mission, any other is recorded with the pass after it. */
    method ClosePass(c: Checkpoint, loop: nat, ghost mark: Place, ghost t: Terms)
      returns (step: StepResult, c': Checkpoint, finished: bool)
      requires Underway(c, mark, t) && c.next == c.total && loop == c.currentLoop + 1
      modifies `at, store
      ensures old(at) <= at <= |moments| && Numbered() && !step.Restart? && SameMission(c, c')
      ensures Since(t.from, mark, c.total) && AuditOf(log, done, moments, at, t).Credited?
      ensures if step.Success? then Underway(c', mark, t) && Mark(c') == Place(1, 0) == Place(loop, 0) else Kept(c)
      ensures finished <==> OnePass(c)
      ensures step.Success? ==> c' == if finished then c else c.(currentLoop := loop, next := 0)
      ensures step.Died? ==> at == |moments|
      ensures step.Failure? || step.Cancellation? ==> !OnePass(c)
    {
      hide Disturbed, AuditOf, Orderly, Reached, Advances;
      OnlyTheFirstPassEnds(c);
      step, c' := Success, c;
      finished := !Continuous(c.loop, c.loopCount) && loop >= PassesOf(c);
      if !finished {
        step, c' := RecordPass(c, loop);
      }
      AuditStands(log, done, moments, old(at), at, t);
    }

    /** One pass: the vehicle is brought to where a recovered mission goes on, and the segments are driven. */
    method DrivePass(
        machine: MissionStateMachine, c0: Checkpoint, loop: nat, start: nat, ghost mark: Place, ghost t0: Terms,
        needsReposition: bool)
      returns (step: StepResult, c: Checkpoint, shutDown: bool, ghost t: Terms)
      requires Underway(c0, mark, t0) && Mark(c0) == Place(loop, start)
      requires machine.state.Idle? || machine.state.Completed?
      requires needsReposition == (t0.first && |log| == t0.from)
      modifies `nextRequest, `nextGeneration, `expectedTurn, `expectedTracking, `reached, `at, `log, `done, store, machine
      ensures old(at) <= at <= |moments| && Numbered() && !step.Restart?
      ensures old(log) <= log && Since(t.from, mark, c0.total) && old(done) <= done && |done| == |log|
      ensures t == t0.(entry := t.entry) && t0.entry <= t.entry <= at && AuditOf(log, done, moments, at, t).Credited?
      ensures |old(log)| > t.from ==> t == t0
      ensures step.Died? ==> at == |moments|
      ensures step.Failure? || step.Cancellation? ==> Disturbed(moments, old(at), at) || loop >= 1
      ensures shutDown ==> Disturbed(moments, old(at), at)
      ensures 0 <= reached - old(reached) - (|log| - |old(log)|) <= if needsReposition then 1 else 0
      ensures t.first && |old(log)| == t.from && |log| > t.from ==> BroughtBack(moments, old(at), done[t.from])
      ensures store.file.Some? && Kept(store.file.value) && SameMission(c0, store.file.value)
      ensures shutDown ==>
                && step.Success? && c == c0 && log == old(log) && machine.View() == old(machine.View())
                && Underway(c, mark, t)
      ensures step.Success? && !shutDown ==>
        && Underway(c, mark, t) && SameMission(c0, c) && c.next == c.total && c.currentLoop == loop
        && machine.state.Completed? && old(at) < at && |old(log)| < |log|
    {
      hide Disturbed, Earned, AuditOf, BroughtBack, Orderly, Reached, Advances;
      MarkNumber(c0);
      c, t := c0, t0;
      ghost var arrival;
      step, shutDown, arrival := PreparePass(machine, |c0.segments|, start, needsReposition);
      AuditStands(log, done, moments, old(at), at, t);
      if !step.Success? || shutDown { return; }
      ghost var prepared := at;
      if |log| == t.from {
        AuditReenters(log, done, moments, at, t, at);
        t := t.(entry := at);
      }
      var replanFirst;
      step, c, replanFirst := RunPass(machine, c0, loop, needsReposition, mark, t);
      AuditStands(log, done, moments, at, at, t);
      if Disturbed(moments, prepared, at) { DisturbedWithin(moments, old(at), prepared, at, at); }
      if t.first && |old(log)| == t.from && |log| > t.from {
        BroughtBackBy(moments, old(at), done[t.from], arrival);
      }
    }

    /** One pass, and what comes after it. */
    method DriveAndClose(machine: MissionStateMachine, c0: Checkpoint, loop: nat, start: nat, ghost mark: Place,
                         ghost t0: Terms, needsReposition: bool)
      returns (step: StepResult, c: Checkpoint, shutDown: bool, finished: bool, ghost t: Terms)
      requires Underway(c0, mark, t0) && Mark(c0) == Place(loop, start)
      requires machine.state.Idle? || (machine.state.Completed? && start == 0 && loop >= 1)
      requires needsReposition == (t0.first && |log| == t0.from)
      modifies `nextRequest, `nextGeneration, `expectedTurn, `expectedTracking, `reached, `at, `log, `done, store, machine
      ensures old(at) <= at <= |moments| && Numbered() && !step.Restart? && (step.Died? ==> at == |moments|)
      ensures old(log) <= log && Since(t.from, mark, c0.total) && old(done) <= done && |done| == |log|
      ensures t == t0.(entry := t.entry) && t0.entry <= t.entry && AuditOf(log, done, moments, at, t).Credited?
      ensures t.first && |old(log)| == t.from && |log| > t.from ==> BroughtBack(moments, old(at), done[t.from])
      ensures t.first && |old(log)| > t.from ==> done[t.from] == old(done)[t.from]
      ensures store.file.Some? && Kept(store.file.value) && SameMission(c0, store.file.value)
      ensures step.Failure? || step.Cancellation? ==> Disturbed(moments, old(at), at) || loop >= 1 || !OnePass(c0)
      ensures step.Success? ==> Underway(c, mark, t) && SameMission(c0, c)
      ensures 0 <= reached - old(reached) - (|log| - |old(log)|) <= if needsReposition then 1 else 0
      ensures step.Success? && shutDown ==>
        && Disturbed(moments, old(at), at)
        && (machine.state.Completed? ==> Mark(c) == Place(1, 0))
      ensures step.Success? && !shutDown ==>
        && old(at) < at && |old(log)| < |log| && machine.state.Completed?
        && Mark(c) == Place(1, 0) == Place(loop + 1, 0) && (finished <==> OnePass(c0))
    {
      hide Disturbed, AuditOf, BroughtBack, Orderly, Reached, Advances, NextPlace, Counted, Planned, Valid;
      finished := false;
      step, c, shutDown, t := DrivePass(machine, c0, loop, start, mark, t0, needsReposition);
      ghost var driven := at;
      if !step.Success? { return; }
      if shutDown {
        if machine.state.Completed? { PassesWithinOne(c, loop); }
        return;
      }
      step, c, finished := ClosePass(c, loop + 1, mark, t);
    }

    /**
     The passes that are left. The runtime may be found shutting down between two of them; the loop then ends with the
     machine complete as well.
     */
    method RunPasses(
        machine: MissionStateMachine, c0: Checkpoint, loop0: nat, start0: nat, reposition: bool,
        ghost from: nat, ghost mark: Place)
      returns (step: StepResult, c: Checkpoint, ghost shutDown: bool)
      requires Underway(c0, mark, TermsOf(c0, from, at, reposition)) && from == |log| && mark == Place(loop0, start0)
      requires machine.View() == INITIAL && (loop0 < PassesOf(c0) || Continuous(c0.loop, c0.loopCount))
      modifies `nextRequest, `nextGeneration, `expectedTurn, `expectedTracking, `reached, `at, `log, `done, store, machine
      ensures old(at) <= at <= |moments|
      ensures Numbered() && !step.Restart? && old(log) <= log && Since(from, mark, c0.total)
      ensures old(done) <= done && AuditOf(log, done, moments, at, TermsOf(c0, from, old(at), reposition)).Credited?
      ensures 0 <= reached - old(reached) - (|log| - |old(log)|) <= if reposition then 1 else 0
      ensures |done| == |log| && (|log| > from && reposition ==> BroughtBack(moments, old(at), done[from]))
      ensures store.file.Some? && Kept(store.file.value) && SameMission(c0, store.file.value)
      ensures step.Died? ==> at == |moments|
      ensures !step.Died? && !(step.Success? && machine.state.Completed?) ==>
                Disturbed(moments, old(at), at) || !OnePass(c0)
      ensures step.Success? && machine.state.Completed? ==>
        && Kept(c) && SameMission(c0, c) && Mark(c) == Place(1, 0) && Recorded(from, c)
        && (shutDown || OnePass(c0))
    {
      hide Disturbed, AuditOf, BroughtBack, Orderly, Reached, Advances, Mark, NextPlace, Counted, Planned, Valid;
      c, step, shutDown := c0, Success, false;
      var loop: nat, start: nat := loop0, start0;
      var needsReposition, finished := reposition, false;
      ghost var t := TermsOf(c0, from, at, reposition);
      while !finished
        invariant step.Success? && !shutDown && Underway(c, mark, t) && SameMission(c0, c)
        invariant t == TermsOf(c0, from, t.entry, reposition) && old(at) <= t.entry
        invariant old(log) <= log && old(done) <= done
        invariant |log| > from && reposition ==> BroughtBack(moments, old(at), done[from])
        invariant 0 <= reached - old(reached) - (|log| - |old(log)|)
        invariant reached - old(reached) - (|log| - |old(log)|) <= if reposition && |log| > from then 1 else 0
        invariant needsReposition == (reposition && |log| == from)
        invariant Mark(c) == Place(loop, start)
        invariant machine.state.Idle? || (machine.state.Completed? && start == 0 && loop >= 1)
        invariant OnePass(c0) && !finished ==> loop == 0
        invariant finished ==> machine.state.Completed? && Mark(c) == Place(1, 0) && OnePass(c0)
        decreases !finished, |moments| - at
      {
        ghost var begun, length := at, |log|;
        var down;
        step, c, down, finished, t := DriveAndClose(machine, c, loop, start, mark, t, needsReposition);
        AuditReenters(log, done, moments, at, t, old(at));
        if Disturbed(moments, begun, at) { DisturbedWithin(moments, old(at), begun, at, at); }
        if length == from && |log| > from && reposition { BroughtBackSince(moments, old(at), begun, done[from]); }
        if !step.Success? { return; }
        if down {
          shutDown := true;
          return;
        }
        needsReposition, loop, start := false, loop + 1, 0;
      }
      AuditReenters(log, done, moments, at, t, old(at));
    }

    method Finish(machine: MissionStateMachine, step: StepResult) returns (outcome: Outcome)
      requires at <= |moments|
      modifies `at, store, machine
      ensures old(at) <= at <= |moments|
      ensures !outcome.AlreadyComplete?
      ensures step.Died? || old(at) == |moments| ==> outcome.ProcessDied?
      ensures !step.Died? && old(at) < |moments| ==>
        var m := moments[old(at)];
        && (outcome.MissionCancelled? <==> m.cancelling || step.Cancellation?)
        && (outcome.MissionCompleted? <==> !m.cancelling && step.Success? && old(machine.state).Completed?)
        && (outcome.MissionFailed? <==> !outcome.MissionCancelled? && !outcome.MissionCompleted?)
        && store.file == if outcome.MissionCompleted? && m.writes then None else old(store.file)
      ensures outcome.ProcessDied? ==> store.file == old(store.file)
      ensures outcome.ProcessDied? && !step.Died? ==> at == |moments|
      ensures !step.Died? && old(at) < |moments| ==> at == old(at) + 1
    {
      if step.Died? { return ProcessDied; }
      var m := Observe();
      if m.None? { return ProcessDied; }
      if m.value.cancelling || step.Cancellation? {
        var _ := machine.CancelMission();
        return MissionCancelled;
      }
      if step.Success? && machine.state.Completed? {
        var _ := store.Clear(m.value.writes);
        return MissionCompleted;
      }
      var _ := machine.FailMission();
      outcome := MissionFailed;
    }

    /** The passes that are left, and the end of the mission. */
    method RunToTheEnd(machine: MissionStateMachine, c0: Checkpoint, loop: nat, start: nat, reposition: bool)
      returns (outcome: Outcome, ghost shutDown: bool)
      requires Underway(c0, Place(loop, start), TermsOf(c0, |log|, at, reposition))
      requires machine.View() == INITIAL && (loop < PassesOf(c0) || Continuous(c0.loop, c0.loopCount))
      modifies `nextRequest, `nextGeneration, `expectedTurn, `expectedTracking, `reached, `at, `log, `done, store, machine
      ensures old(at) <= at <= |moments| && Numbered() && !outcome.AlreadyComplete?
      ensures old(log) <= log && Since(|old(log)|, Place(loop, start), c0.total) && Orderly(log, c0.total)
      ensures old(done) <= done && |done| == |log|
      ensures AuditOf(log, done, moments, at, TermsOf(c0, |old(log)|, old(at), reposition)).Credited?
      ensures |log| > |old(log)| && reposition ==> BroughtBack(moments, old(at), done[|old(log)|])
      ensures if store.file.Some? then Kept(store.file.value) && SameMission(c0, store.file.value)
              else outcome.MissionCompleted?
      ensures outcome.ProcessDied? ==> at == |moments|
      ensures 0 <= reached - old(reached) - (|log| - |old(log)|) <= if reposition then 1 else 0
      ensures outcome.MissionFailed? || outcome.MissionCancelled? ==> Disturbed(moments, old(at), at) || !OnePass(c0)
      ensures outcome.MissionCompleted? ==>
        && Covered(log, c0.total) && (old(log) == [] ==> |log| == c0.total) && (shutDown || OnePass(c0))
    {
      hide Disturbed, AuditOf, BroughtBack, Orderly, Reached, Advances, Covered, Planned;
      ghost var t := TermsOf(c0, |log|, at, reposition);
      var step, c;
      step, c, shutDown := RunPasses(machine, c0, loop, start, reposition, |log|, Place(loop, start));
      if step.Success? && machine.state.Completed? {
        EndOfPassCoversEverySegment(log, c);
        if old(log) == [] { OnePassAtOnce(log, c); }
      }
      ghost var begun := at;
      outcome := Finish(machine, step);
      AuditStands(log, done, moments, begun, at, t);
      if Disturbed(moments, old(at), begun) { DisturbedWithin(moments, old(at), old(at), begun, at); }
      if begun < at && moments[begun].cancelling { DisturbedAt(moments, old(at), begun, at); }
    }

    /**
     A cleaning mission from its first segment. Wherever it ends, dies included, either nothing was done and the file is
     untouched, or the file tells where to go on.
     */
    method Execute(goal: Goal) returns (outcome: Outcome, ghost shutDown: bool)
      requires Numbered()
      modifies `nextRequest, `nextGeneration, `expectedTurn, `expectedTracking, `reached, `at, `log, `done, store
      ensures old(at) <= at <= |moments|
      ensures Numbered() && !outcome.AlreadyComplete?
      ensures
        || (log == [] && store.file == old(store.file) && !outcome.MissionCompleted?)
        || (store.file.Some? && Kept(store.file.value) && SameMission(InitialCheckpoint(goal), store.file.value))
        || (store.file.None? && outcome.MissionCompleted?)
      ensures Orderly(log, |goal.segments|) && Advances(log, 0, |goal.segments|)
      ensures AuditOf(log, done, moments, at, Terms(goal.segments, false, 0, old(at), false)).Credited?
      ensures done != [] ==> Cleared(moments, old(at), done[0])
      ensures outcome.ProcessDied? ==> at == |moments|
      ensures reached == old(reached) + |log|
      ensures outcome.MissionFailed? || outcome.MissionCancelled? ==>
        || Disturbed(moments, old(at), at)
        || !OnePass(InitialCheckpoint(goal)) || !Valid(InitialCheckpoint(goal))
      ensures outcome.MissionCompleted? ==>
        && Covered(log, |goal.segments|) && |log| == |goal.segments|
        && (shutDown || OnePass(InitialCheckpoint(goal)))
    {
      hide Disturbed, AuditOf, Orderly, Reached, Advances, Covered, Cleared, Mark, NextPlace, Counted, Planned, Valid;
      hide BroughtBack, Prepared, Credit;
      log, done, shutDown := [], [], false;
      NothingDone(goal);
      ghost var t := Terms(goal.segments, false, 0, at, false);
      AuditBegins(log, done, moments, at, t);
      var machine := new MissionStateMachine();
      var preflight := WaitForPreflight();
      AuditStands(log, done, moments, old(at), at, t);
      ghost var cleared := at;
      if !preflight.Success? {
        outcome := Finish(machine, preflight);
        AuditStands(log, done, moments, cleared, at, t);
        if Disturbed(moments, old(at), cleared) { DisturbedWithin(moments, old(at), old(at), cleared, at); }
        return;
      }
      var c := InitialCheckpoint(goal);
      var m := Observe();
      AuditStands(log, done, moments, cleared, at, t);
      AuditReenters(log, done, moments, at, t, at);
      if m.None? { return ProcessDied, false; }
      var saved := store.Save(c, m.value.writes);
      ghost var begun := at;
      if !saved {
        outcome := Finish(machine, Failure);
        AuditStands(log, done, moments, begun, at, t);
        if !m.value.writes { DisturbedAt(moments, old(at), cleared, at); }
        return;
      }
      outcome, shutDown := RunToTheEnd(machine, c, 0, 0, false);
      if Disturbed(moments, begun, at) { DisturbedWithin(moments, old(at), begun, at, at); }
      AuditStands(log, done, moments, at, at, t.(entry := begun));
      if done != [] { ClearedBy(moments, old(at), done[0], cleared - 1); }
      AuditReenters(log, done, moments, at, t.(entry := begun), old(at));
    }

    /**
     Recovery from the file. What was completed before is kept, the marked segment comes next, and nothing after it is
     repeated or skipped.
     */
    method Recover() returns (outcome: Outcome, ghost shutDown: bool)
      requires Numbered()
      requires store.file.Some? ==>
                 Kept(store.file.value) && Credit(log, done, moments, at, store.file.value.segments)
      modifies `nextRequest, `nextGeneration, `expectedTurn, `expectedTracking, `reached, `at, `log, `done, store
      ensures old(at) <= at <= |moments|
      ensures Numbered() && old(log) <= log && old(done) <= done
      ensures store.file.Some? ==> Kept(store.file.value)
      ensures old(store.file).None? ==>
                outcome.MissionFailed? && log == old(log) && done == old(done) && store.file == None
      ensures outcome.ProcessDied? ==> at == |moments|
      ensures 0 <= reached - old(reached) - (|log| - |old(log)|) <= 1
      ensures old(store.file).Some? && (outcome.MissionFailed? || outcome.MissionCancelled?) ==>
                Disturbed(moments, old(at), at) || !OnePass(old(store.file).value)
      ensures old(store.file).Some? ==>
        var c := old(store.file).value;
        && Since(|old(log)|, Mark(c), c.total) && Orderly(log, c.total)
        && AuditOf(log, done, moments, at, TermsOf(c, |old(log)|, old(at), c.kind.Cleaning?)).Credited?
        && (|done| > |old(log)| ==>
              && Cleared(moments, old(at), done[|old(log)|])
              && (c.kind.Cleaning? ==> BroughtBack(moments, old(at), done[|old(log)|])))
        && (store.file.Some? ==> SameMission(c, store.file.value))
        && (store.file.None? ==> outcome.MissionCompleted? || outcome.AlreadyComplete?)
        && (outcome.MissionCompleted? || outcome.AlreadyComplete? ==> Covered(log, c.total) && (shutDown || OnePass(c)))
    {
      hide Disturbed, AuditOf, BroughtBack, Cleared, Orderly, Reached, Advances, Covered;
      hide Planned, Valid, Counted, Mark, OnePass;
      shutDown := false;
      var loaded := store.LoadLatest();
      if loaded.None? { return MissionFailed, false; }
      var c := loaded.value;
      var machine := new MissionStateMachine();
      NothingSince(log, c.total);
      ghost var t := TermsOf(c, |log|, at, c.kind.Cleaning?);
      AuditBegins(log, done, moments, at, t);
      var preflight := WaitForPreflight();
      ghost var cleared := at;
      if !preflight.Success? {
        outcome := Finish(machine, preflight);
        AuditStands(log, done, moments, old(at), at, t);
        if Disturbed(moments, old(at), cleared) { DisturbedWithin(moments, old(at), old(at), cleared, at); }
        return;
      }
      AuditStands(log, done, moments, old(at), at, t);
      AuditReenters(log, done, moments, at, t, at);
      var loop: nat, start: nat := c.currentLoop, c.next;
      if start >= |c.segments| {
        loop, start := loop + 1, 0;
      }
      ResumesAt(c, loop, start);
      if !Continuous(c.loop, c.loopCount) && loop >= PassesOf(c) {
        EndOfPassCoversEverySegment(log, c);
        var m := Observe();
        AuditStands(log, done, moments, cleared, at, t);
        if m.None? { return ProcessDied, false; }
        var _ := store.Clear(m.value.writes);
        return AlreadyComplete, false;
      }
      outcome, shutDown := RunToTheEnd(machine, c, loop, start, c.kind.Cleaning?);
      if Disturbed(moments, cleared, at) { DisturbedWithin(moments, old(at), cleared, at, at); }
      AuditStands(log, done, moments, at, at, t.(entry := cleared));
      if |done| > |old(log)| { ClearedBy(moments, old(at), done[|old(log)|], cleared - 1); }
      AuditReenters(log, done, moments, at, t.(entry := cleared), old(at));
      if |log| > |old(log)| && t.first {
        BroughtBackSince(moments, old(at), cleared, done[|old(log)|]);
      }
    }
  }

  /**
   A mission through any number of process deaths and recoveries, each seeing moments of its own. The segments completed
   start at the first and never skip or go back, and a mission that ends complete completed all of them.
   */
  method MissionThroughCrashes(goal: Goal, first: seq<Moment>, sessions: seq<seq<Moment>>)
    returns (worker: MissionWorker, complete: bool)
    ensures Orderly(worker.log, |goal.segments|)
    ensures complete ==> Covered(worker.log, |goal.segments|)
    ensures Credit(worker.log, worker.done, worker.moments, worker.at, goal.segments)
    ensures worker.store.file.Some? ==>
      && Valid(worker.store.file.value) && Reached(worker.log, worker.store.file.value)
      && SameMission(InitialCheckpoint(goal), worker.store.file.value)
    ensures worker.store.file.None? ==> complete || worker.log == []
  {
    hide AuditOf, Earned, Orderly, Reached, Valid, Counted, Planned;
    worker := new MissionWorker(first);
    ghost var shutDown;
    var outcome;
    outcome, shutDown := worker.Execute(goal);
    complete := outcome.MissionCompleted?;
    AuditMeans(worker.log, worker.done, worker.moments, worker.at, Terms(goal.segments, false, 0, 0, false));
    for k := 0 to |sessions|
      invariant fresh(worker) && fresh(worker.store) && worker.Numbered()
      invariant Orderly(worker.log, |goal.segments|)
      invariant complete ==> Covered(worker.log, |goal.segments|)
      invariant Credit(worker.log, worker.done, worker.moments, worker.at, goal.segments)
      invariant worker.store.file.Some? ==>
        worker.Kept(worker.store.file.value) && SameMission(InitialCheckpoint(goal), worker.store.file.value)
      invariant worker.store.file.None? ==> complete || worker.log == []
    {
      CreditReboots(worker.log, worker.done, worker.moments, worker.at, sessions[k], goal.segments);
      worker.Reboot(sessions[k]);
      ghost var file, from, begun := worker.store.file, |worker.log|, worker.at;
      outcome, shutDown := worker.Recover();
      if file.Some? {
        AuditMeans(worker.log, worker.done, worker.moments, worker.at,
                   TermsOf(file.value, from, begun, file.value.kind.Cleaning?));
      }
      complete := complete || outcome.MissionCompleted? || outcome.AlreadyComplete?;
    }
  }
}
