/**
 What the mission worker sees, moment by moment, and what it takes for a segment to count as completed: a moment in
 which the vehicle may go on, and right after it one that completes the attempt.
 */
module MissionMoments {
  import opened Wrappers

  datatype Report =
    | Nothing
    | TurnStatus(request: nat, completed: bool, refused: bool)
    | TrackingStatus(generation: nat, finished: bool, blocked: bool, rtkInvalid: bool)

  datatype Edge = Clear | TargetReached | ConfirmRequired

  /**
   One observation: the flags every wait looks at, whether the runtime is shutting down, the status message that came
   in, the edge decision, whether the current file operation succeeds, and whether a replanned segment needs a turn.
   */
  datatype Moment = Moment(
    cancelling: bool, faulted: bool, hardwareReady: bool, paused: bool, rtkReady: bool, timedOut: bool,
    shutdown: bool, report: Report, edge: Edge, writes: bool, turns: bool)

  /** `Died` stands for the process ending: no moment is left to observe. */
  datatype StepResult = Success | Restart | Failure | Cancellation | Died

  /** A moment in which nothing keeps the vehicle from working. */
  predicate Operational(m: Moment) {
    !m.cancelling && !m.faulted && m.hardwareReady && !m.paused && m.rtkReady
  }

  /** A moment that gives reason to interrupt, fail or cancel a mission. */
  predicate Disturbing(m: Moment) {
    || !Operational(m) || m.timedOut || m.shutdown || m.edge.ConfirmRequired? || !m.writes
    || (m.report.TrackingStatus? && m.report.blocked) || (m.report.TurnStatus? && m.report.refused)
  }

  predicate Disturbed(seen: seq<Moment>, b: nat, end: nat) {
    end <= |seen| && exists k :: b <= k < end && Disturbing(seen[k])
  }

  lemma InterruptDisturbs(m: Moment, generation: nat)
    requires Interrupts(m, generation)
    ensures Disturbing(m)
  {
  }

  lemma DisturbedWithin(seen: seq<Moment>, b: nat, from: nat, to: nat, end: nat)
    requires Disturbed(seen, from, to) && b <= from && to <= end <= |seen|
    ensures Disturbed(seen, b, end)
  {
    var k :| from <= k < to && Disturbing(seen[k]);
  }

  lemma DisturbedAt(seen: seq<Moment>, b: nat, k: nat, end: nat)
    requires b <= k < end <= |seen| && Disturbing(seen[k])
    ensures Disturbed(seen, b, end)
  {
  }

  /** A moment in which a mission may begin. */
  predicate Prepared(m: Moment) { !m.cancelling && !m.faulted && m.hardwareReady && m.rtkReady }

  /** A moment that gives an operator or the sensors reason to keep waiting. */
  predicate Waiting(m: Moment) { !m.cancelling && !m.faulted }

  predicate FromTracking(m: Moment, generation: nat) {
    m.report.TrackingStatus? && m.report.generation == generation
  }

  predicate FromTurn(m: Moment, request: nat) {
    m.report.TurnStatus? && m.report.request == request
  }

  /** A moment that completes the attempt made under `generation`. */
  predicate Completes(m: Moment, generation: nat) {
    || (FromTracking(m, generation) && m.report.finished)
    || (!(FromTracking(m, generation) && m.report.blocked) && m.edge.TargetReached?)
  }

  /** A moment that ends it otherwise: blocked, or at an edge before the target. */
  predicate Interrupts(m: Moment, generation: nat) {
    && !Completes(m, generation)
    && ((FromTracking(m, generation) && m.report.blocked) || m.edge.ConfirmRequired?)
  }

  /** Blocked for another reason than a lost fix: the attempt fails right away, anything else is waited for. */
  predicate Blocks(m: Moment, generation: nat) {
    FromTracking(m, generation) && m.report.blocked && !m.report.rtkInvalid
  }

  predicate CompletesTurn(m: Moment, request: nat) { FromTurn(m, request) && m.report.completed }

  predicate FailsTurn(m: Moment, request: nat) {
    !CompletesTurn(m, request) && ((FromTurn(m, request) && m.report.refused) || m.timedOut)
  }

  /** A round of an attempt: an operational moment, and one that decides nothing about it. */
  predicate TrackingRound(check: Moment, next: Moment, generation: nat) {
    Operational(check) && !Completes(next, generation) && !Interrupts(next, generation)
  }

  predicate TurningRound(check: Moment, next: Moment, request: nat) {
    Operational(check) && !CompletesTurn(next, request) && !FailsTurn(next, request)
  }

  /** `n` rounds of one attempt from `b` on. */
  predicate TrackedOn(seen: seq<Moment>, b: nat, n: nat, generation: nat) {
    n == 0 || (&& b + 2 * n <= |seen| && TrackedOn(seen, b, n - 1, generation)
               && TrackingRound(seen[b + 2 * n - 2], seen[b + 2 * n - 1], generation))
  }

  predicate TurnedOn(seen: seq<Moment>, b: nat, n: nat, request: nat) {
    n == 0 || (&& b + 2 * n <= |seen| && TurnedOn(seen, b, n - 1, request)
               && TurningRound(seen[b + 2 * n - 2], seen[b + 2 * n - 1], request))
  }

  lemma TrackedNever(seen: seq<Moment>, b: nat, generation: nat)
    ensures TrackedOn(seen, b, 0, generation)
  {
  }

  lemma TurnedNever(seen: seq<Moment>, b: nat, request: nat)
    ensures TurnedOn(seen, b, 0, request)
  {
  }

  lemma TrackedOnce(seen: seq<Moment>, b: nat, n: nat, generation: nat)
    requires b + 2 * n + 2 <= |seen| && TrackedOn(seen, b, n, generation)
    requires TrackingRound(seen[b + 2 * n], seen[b + 2 * n + 1], generation)
    ensures TrackedOn(seen, b, n + 1, generation)
  {
  }

  lemma TurnedOnce(seen: seq<Moment>, b: nat, n: nat, request: nat)
    requires b + 2 * n + 2 <= |seen| && TurnedOn(seen, b, n, request)
    requires TurningRound(seen[b + 2 * n], seen[b + 2 * n + 1], request)
    ensures TurnedOn(seen, b, n + 1, request)
  {
  }

  /**
   How a tracking attempt that began at `b` ends at `end`, after `n` rounds: with success exactly where an operational
   moment is followed by one that completes it, otherwise where a moment is not operational, or interrupts, or is missing.
   */
  predicate TrackedFor(seen: seq<Moment>, b: nat, n: nat, generation: nat, step: StepResult, end: nat) {
    && b + 2 * n <= end <= |seen| && TrackedOn(seen, b, n, generation)
    && if step.Success? then
         end == b + 2 * n + 2 && Operational(seen[b + 2 * n]) && Completes(seen[b + 2 * n + 1], generation)
       else
         || (step.Died? && (end == b + 2 * n || (end == b + 2 * n + 1 && Operational(seen[b + 2 * n]))))
         || (end > b + 2 * n && !Operational(seen[b + 2 * n]))
         || (&& end > b + 2 * n + 1 && Operational(seen[b + 2 * n]) && Interrupts(seen[b + 2 * n + 1], generation)
             && (Blocks(seen[b + 2 * n + 1], generation) <==> step.Failure? && end == b + 2 * n + 2))
  }

  predicate TurnedFor(seen: seq<Moment>, b: nat, n: nat, request: nat, step: StepResult, end: nat) {
    && b + 2 * n <= end <= |seen| && TurnedOn(seen, b, n, request)
    && if step.Success? then
         end == b + 2 * n + 2 && Operational(seen[b + 2 * n]) && CompletesTurn(seen[b + 2 * n + 1], request)
       else
         || (step.Died? && (end == b + 2 * n || (end == b + 2 * n + 1 && Operational(seen[b + 2 * n]))))
         || (end > b + 2 * n && !Operational(seen[b + 2 * n]))
         || (&& end == b + 2 * n + 2 && Operational(seen[b + 2 * n]) && FailsTurn(seen[b + 2 * n + 1], request)
             && step.Failure?)
  }

  /**
   What a completed segment stands on, as positions in what was seen: the moment it was begun in, the one it was
   replanned in and the one its turn was completed in, if any, and the one that completed it.
   */
  datatype Completion = Completion(
    begun: nat, replanned: Option<nat>, turned: Option<nat>, request: nat, at: nat, generation: nat)

  predicate TurnEarned(seen: seq<Moment>, c: Completion) {
    c.turned.Some? ==>
      && c.begun < c.turned.value < c.at && c.turned.value < |seen|
      && Operational(seen[c.turned.value - 1]) && CompletesTurn(seen[c.turned.value], c.request)
  }

  predicate ReplanEarned(seen: seq<Moment>, c: Completion) {
    c.replanned.Some? ==>
      && c.begun < c.replanned.value < c.at && c.replanned.value < |seen| && seen[c.replanned.value].rtkReady
      && (c.turned.Some? ==> c.replanned.value < c.turned.value)
  }

  /** The segment was completed by its own attempt, and turned for if it, or its new plan, asks for a turn. */
  predicate Earned(seen: seq<Moment>, c: Completion, turns: bool) {
    && c.begun < c.at < |seen| && Operational(seen[c.begun])
    && Operational(seen[c.at - 1]) && Completes(seen[c.at], c.generation)
    && TurnEarned(seen, c) && ReplanEarned(seen, c)
    && (c.turned.Some? <==> if c.replanned.Some? then seen[c.replanned.value].turns else turns)
  }
}
